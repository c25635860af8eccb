/**
 * The batch loop shared by violation and bug detection: the files go to the model ten at a
 * time; before each request the service reports one progress value per file of the batch and
 * one for the batch itself; the findings of every reply are appended in batch order, and a
 * request that throws ends the whole operation with that exception.
 */
module Batches {
  import opened Wrappers
  import opened Collections
  import opened Domain
  import opened Progress

  /** `files.Chunk(10)`. */
  const BatchSize: nat := 10

  /** What a run of the loop produces: the findings or the exception, and the values reported. */
  datatype Run<F> = Run(result: Result<seq<F>>, events: seq<int>)

  function Prepend<F>(acc: seq<F>, r: Result<seq<F>>): Result<seq<F>>
  {
    if r.Ok? then Ok(acc + r.value) else r
  }

  /** A finished prefix of the loop followed by the rest of it. */
  function Then<F>(first: seq<F>, firstEvents: seq<int>, rest: Run<F>): Run<F>
  {
    Run(Prepend(first, rest.result), firstEvents + rest.events)
  }

  function Sizes(bs: seq<seq<CodeFile>>): (r: seq<nat>)
    ensures |r| == |bs| && forall i :: 0 <= i < |bs| ==> r[i] == |bs[i]|
  {
    seq(|bs|, i requires 0 <= i < |bs| => |bs[i]|)
  }

  /**
   * The loop from batch `b` (1-based, of `total`) on, over batches of the given sizes, where
   * `answers[i]` is the parsed reply to batch `b + i` or `None` when that request throws.
   */
  function BatchRun<F>(sizes: seq<nat>, answers: seq<Option<seq<F>>>, b: nat, total: nat,
                       base: int, span: nat, sink: bool): Run<F>
    requires |answers| == |sizes| && 1 <= b && b + |sizes| <= total + 1
    decreases |sizes|
  {
    if sizes == [] then Run(Ok([]), [])
    else
      var ev := if sink then BatchEvents(base, span, b, total, sizes[0]) else [];
      match answers[0]
      case None => Run(Err(ModelCallFailed), ev)
      case Some(found) => Then(found, ev, BatchRun(sizes[1..], answers[1..], b + 1, total, base, span, sink))
  }

  lemma ThenAssoc<F>(acc: seq<F>, events: seq<int>, found: seq<F>, ev: seq<int>, rest: Run<F>)
    ensures Then(acc, events, Then(found, ev, rest)) == Then(acc + found, events + ev, rest)
  {
    assert events + (ev + rest.events) == events + ev + rest.events;
    if rest.result.Ok? {
      assert acc + (found + rest.result.value) == acc + found + rest.result.value;
    }
  }

  /** One iteration of the loop, unfolded at batch `k + 1`. */
  lemma BatchRunStep<F>(sizes: seq<nat>, answers: seq<Option<seq<F>>>, k: nat, total: nat,
                        base: int, span: nat, sink: bool)
    requires |answers| == |sizes| == total && k < total
    ensures BatchRun(sizes[k..], answers[k..], k + 1, total, base, span, sink) ==
      var ev := if sink then BatchEvents(base, span, k + 1, total, sizes[k]) else [];
      if answers[k].None? then Run(Err(ModelCallFailed), ev)
      else Then(answers[k].value, ev, BatchRun(sizes[k + 1..], answers[k + 1..], k + 2, total, base, span, sink))
  {
    assert sizes[k..][1..] == sizes[k + 1..] && answers[k..][1..] == answers[k + 1..];
  }

  /** The progress reported for batch `b` of `total` before it is sent: one value per file, then the batch. */
  method ReportBatch(events: seq<int>, sink: bool, base: int, span: nat, b: nat, total: nat, len: nat)
    returns (after: seq<int>)
    requires 1 <= b <= total
    ensures after == events + (if sink then BatchEvents(base, span, b, total, len) else [])
  {
    after := events;
    for i := 0 to len
      invariant after == events + (if sink then FileSteps(base, span, b, total, len, i) else [])
    {
      after := Emit(after, sink, FileStep(base, span, b, total, i, len));
    }
    after := Emit(after, sink, BatchEnd(base, span, b, total));
  }

  /**
   * The `foreach (var batch in files.Chunk(10))` loop of `AnalyzeCodeViolationsAsync` and
   * `DetectBugsAsync`. `ask(batch)` sends one batch and parses the reply (`None`: the call
   * throws); `answers` names those outcomes for the specification.
   */
  method RunBatches<F>(files: seq<CodeFile>, base: int, span: nat, sink: bool,
                       ask: seq<CodeFile> -> Option<seq<F>>, ghost answers: seq<Option<seq<F>>>)
    returns (result: Result<seq<F>>, events: seq<int>)
    requires |answers| == |Chunk(files, BatchSize)|
    requires forall k :: 0 <= k < |answers| ==> ask(Chunk(files, BatchSize)[k]) == answers[k]
    ensures Run(result, events) == BatchRun(Sizes(Chunk(files, BatchSize)), answers, 1, |Chunk(files, BatchSize)|, base, span, sink)
  {
    var batches := Chunk(files, BatchSize);
    var total := |batches|;
    ghost var sizes := Sizes(batches);
    ghost var whole := BatchRun(sizes, answers, 1, total, base, span, sink);
    var found: seq<F> := [];
    events := [];
    assert whole.events == [] + whole.events;
    if whole.result.Ok? {
      assert whole.result.value == [] + whole.result.value;
    }
    var k := 0;
    while k < total
      invariant 0 <= k <= total
      invariant Then(found, events, BatchRun(sizes[k..], answers[k..], k + 1, total, base, span, sink)) == whole
    {
      var batch := batches[k];
      ghost var before := events;
      events := ReportBatch(events, sink, base, span, k + 1, total, |batch|);
      ghost var ev := events[|before|..];
      assert before + ev == events;
      BatchRunStep(sizes, answers, k, total, base, span, sink);
      var reply := ask(batch);
      if reply.None? {
        return Err(ModelCallFailed), events;
      }
      ThenAssoc(found, before, reply.value, ev, BatchRun(sizes[k + 1..], answers[k + 1..], k + 2, total, base, span, sink));
      found := found + reply.value;
      k := k + 1;
    }
    assert found + [] == found && events + [] == events;
    result := Ok(found);
  }

  // ---------------------------------------------------------------- what a run produces

  predicate AllAnswered<F>(answers: seq<Option<seq<F>>>)
  {
    forall i :: 0 <= i < |answers| ==> answers[i].Some?
  }

  function Replies<F>(answers: seq<Option<seq<F>>>): (r: seq<seq<F>>)
    requires AllAnswered(answers)
    ensures |r| == |answers| && forall i :: 0 <= i < |answers| ==> r[i] == answers[i].value
  {
    seq(|answers|, i requires 0 <= i < |answers| => answers[i].value)
  }

  function Sum(xs: seq<nat>): nat
  {
    if xs == [] then 0 else xs[0] + Sum(xs[1..])
  }

  /**
   * The run fails exactly when some request throws; otherwise its findings are the replies'
   * findings in batch order.
   */
  lemma {:induction false} BatchRunResult<F>(sizes: seq<nat>, answers: seq<Option<seq<F>>>, b: nat, total: nat,
                                             base: int, span: nat, sink: bool)
    requires |answers| == |sizes| && 1 <= b && b + |sizes| <= total + 1
    ensures BatchRun(sizes, answers, b, total, base, span, sink).result.Ok? <==> AllAnswered(answers)
    ensures AllAnswered(answers) ==> BatchRun(sizes, answers, b, total, base, span, sink).result.value == Flatten(Replies(answers))
    decreases |sizes|
  {
    if sizes != [] {
      BatchRunResult(sizes[1..], answers[1..], b + 1, total, base, span, sink);
      if AllAnswered(answers) {
        assert AllAnswered(answers[1..]);
        assert Replies(answers)[1..] == Replies(answers[1..]);
      }
      if answers[0].Some? && !AllAnswered(answers) {
        var i :| 0 <= i < |answers| && answers[i].None?;
        assert answers[1..][i - 1].None?;
      }
    }
  }

  /**
   * The reported values never decrease and stay between the end of the batch before `b` and
   * `base + span`.
   */
  lemma {:induction false} BatchRunEvents<F>(sizes: seq<nat>, answers: seq<Option<seq<F>>>, b: nat, total: nat,
                                             base: int, span: nat, sink: bool)
    requires |answers| == |sizes| && 1 <= b && b + |sizes| <= total + 1
    requires forall i :: 0 <= i < |sizes| ==> sizes[i] > 0
    requires total > 0
    ensures NonDecreasing(BatchRun(sizes, answers, b, total, base, span, sink).events)
    ensures Within(BatchRun(sizes, answers, b, total, base, span, sink).events, BatchEnd(base, span, b - 1, total), base + span)
    decreases |sizes|
  {
    if sizes != [] {
      var ev := if sink then BatchEvents(base, span, b, total, sizes[0]) else [];
      BatchEventsShape(base, span, b, total, sizes[0]);
      BatchEndRange(base, span, b, total);
      BatchEndMono(base, span, b - 1, b, total);
      if answers[0].Some? {
        var rest := BatchRun(sizes[1..], answers[1..], b + 1, total, base, span, sink);
        BatchRunEvents(sizes[1..], answers[1..], b + 1, total, base, span, sink);
        NonDecreasingConcat(ev, rest.events, BatchEnd(base, span, b, total));
        assert BatchRun(sizes, answers, b, total, base, span, sink).events == ev + rest.events;
      }
    }
  }

  /**
   * When every request is answered and progress is reported, there is one value per file and
   * one per batch, and the last one is `base + span`.
   */
  lemma {:induction false} BatchRunCompletes<F>(sizes: seq<nat>, answers: seq<Option<seq<F>>>, b: nat, total: nat,
                                                base: int, span: nat)
    requires |answers| == |sizes| && 1 <= b && b + |sizes| == total + 1
    requires AllAnswered(answers)
    ensures |BatchRun(sizes, answers, b, total, base, span, true).events| == Sum(sizes) + |sizes|
    ensures sizes != [] ==> Last(BatchRun(sizes, answers, b, total, base, span, true).events) == base + span
    decreases |sizes|
  {
    if sizes != [] {
      assert AllAnswered(answers[1..]);
      BatchRunCompletes(sizes[1..], answers[1..], b + 1, total, base, span);
      if |sizes| == 1 {
        BatchEndRange(base, span, b, total);
      }
    }
  }

  function Last(s: seq<int>): int
    requires s != []
  {
    s[|s| - 1]
  }

  /** The batch sizes of `Chunk` add up to the number of files, and none is zero. */
  lemma {:induction false} ChunkSizes(files: seq<CodeFile>)
    ensures Sum(Sizes(Chunk(files, BatchSize))) == |files|
    ensures forall i :: 0 <= i < |Chunk(files, BatchSize)| ==> Sizes(Chunk(files, BatchSize))[i] > 0
  {
    ChunkCorrect(files, BatchSize);
    SumSizesFlatten(Chunk(files, BatchSize));
  }

  lemma {:induction false} SumSizesFlatten(bs: seq<seq<CodeFile>>)
    ensures Sum(Sizes(bs)) == |Flatten(bs)|
  {
    if bs != [] {
      SumSizesFlatten(bs[1..]);
      assert Sizes(bs)[1..] == Sizes(bs[1..]);
    }
  }
}
