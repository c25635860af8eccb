/**
 * The integer progress percentages the services report. `SendProgress` forwards a value only
 * when a progress hub is configured and the connection id is non-empty; `sink` stands for that
 * condition and the reported values are collected in order (the messages are not modelled).
 */
module Progress {

  /** `SendProgress(connectionId, p, _)`: the value is recorded only when there is somewhere to send it. */
  function Emit(events: seq<int>, sink: bool, p: int): (r: seq<int>)
    ensures sink ==> r == events + [p]
    ensures !sink ==> r == events
  {
    if sink then events + [p] else events
  }

  predicate NonDecreasing(s: seq<int>)
  {
    forall i, j :: 0 <= i < j < |s| ==> s[i] <= s[j]
  }

  predicate Within(s: seq<int>, lo: int, hi: int)
  {
    forall i :: 0 <= i < |s| ==> lo <= s[i] <= hi
  }

  // ---------------------------------------------------------------- integer division facts

  lemma MulMono(a: int, b: int, c: nat)
    requires a <= b
    ensures a * c <= b * c
  {
  }

  /** Division by a positive number is monotone. */
  lemma DivMono(a: int, b: int, d: int)
    requires 0 < d && a <= b
    ensures a / d <= b / d
  {
    var qa, qb := a / d, b / d;
    if qa > qb {
      MulMono(qb + 1, qa, d);
      assert false;
    }
  }

  /** `a < n * s` bounds the quotient by `s`. */
  lemma DivBelow(a: int, n: int, s: int)
    requires 0 < n && 0 <= a < n * s
    ensures a / n < s
  {
    var q := a / n;
    if q >= s {
      MulMono(s, q, n);
      assert false;
    }
  }

  /** A multiple of a positive number divides back exactly. */
  lemma MulDiv(k: int, d: int)
    requires 0 < d
    ensures (k * d) / d == k
  {
    var q := (k * d) / d;
    assert (k - q) * d == k * d - q * d;
    if k > q {
      MulMono(1, k - q, d);
      assert false;
    } else if k < q {
      MulMono(k - q, -1, d);
      assert false;
    }
  }

  /** Quotients add up to at most the quotient of the sum. */
  lemma DivAdd(a: int, b: int, d: int)
    requires 0 < d
    ensures a / d + b / d <= (a + b) / d
  {
    var qa, qb := a / d, b / d;
    assert qa * d + qb * d == (qa + qb) * d;
    assert (qa + qb) * d <= a + b;
    MulDiv(qa + qb, d);
    DivMono((qa + qb) * d, a + b, d);
  }

  /** A quotient is fixed by any decomposition with a remainder in range. */
  lemma DivUnique(n: int, d: int, q: int, r: int)
    requires 0 < d && n == q * d + r && 0 <= r < d
    ensures n / d == q
  {
    var q0, r0 := n / d, n % d;
    assert n == q0 * d + r0;
    if q0 < q {
      MulMono(q0 + 1, q, d);
      assert false;
    } else if q0 > q {
      MulMono(q + 1, q0, d);
      assert false;
    }
  }

  /** Adding `k` whole divisors adds `k` to the quotient and leaves the remainder. */
  lemma DivShift(n: nat, d: nat, k: nat)
    requires d > 0
    ensures (n + k * d) / d == n / d + k && (n + k * d) % d == n % d
  {
    assert (n / d + k) * d == n / d * d + k * d;
    DivUnique(n + k * d, d, n / d + k, n % d);
  }

  /** A common positive factor cancels. */
  lemma DivCancel(a: nat, b: int, c: int)
    requires 0 < b && 0 < c
    ensures (a * c) / (b * c) == a / b
  {
    var q, r := a / b, a % b;
    assert a == q * b + r;
    assert a * c == q * b * c + r * c;
    assert q * b * c == q * (b * c);
    MulMono(0, r, c);
    MulMono(r + 1, b, c);
    assert (r + 1) * c == r * c + c;
    MulMono(1, b, c);
    DivUnique(a * c, b * c, q, r * c);
  }

  // ---------------------------------------------------------------- per-file progress without batches

  /** The demo loops and the markdown loop: `base + i * span / n`. */
  function Step(base: int, span: nat, i: nat, n: nat): int
    requires n > 0
  {
    base + i * span / n
  }

  /** After the last of `n` items the value is `base + span`. */
  lemma StepAtEnd(base: int, span: nat, n: nat)
    requires n > 0
    ensures Step(base, span, n, n) == base + span
  {
    MulDiv(span, n);
    assert n * span == span * n;
  }

  /** For `i < n` the value stays in `[base, base + span - 1]` and grows with `i`. */
  lemma StepBounds(base: int, span: nat, i: nat, n: nat)
    requires span > 0 && i < n
    ensures base <= Step(base, span, i, n) <= base + span - 1
  {
    MulMono(0, i, span);
    MulMono(i, n - 1, span);
    assert n * span == (n - 1) * span + span;
    DivMono(0, i * span, n);
    DivBelow(i * span, n, span);
  }

  lemma StepMono(base: int, span: nat, i: nat, j: nat, n: nat)
    requires i <= j && n > 0
    ensures Step(base, span, i, n) <= Step(base, span, j, n)
  {
    MulMono(i, j, span);
    DivMono(i * span, j * span, n);
  }

  /** The values `Step(base, span, i, n)` for `i < k`. */
  function Steps(base: int, span: nat, n: nat, k: nat): (r: seq<int>)
    requires k <= n
    ensures |r| == k
    ensures forall i :: 0 <= i < k ==> r[i] == Step(base, span, i, n)
  {
    seq(k, i requires 0 <= i < k => Step(base, span, i, n))
  }

  /** The per-file values of a loop over `n` items are non-decreasing and lie in `[base, base + span - 1]`. */
  lemma StepsShape(base: int, span: nat, n: nat)
    requires span > 0
    ensures NonDecreasing(Steps(base, span, n, n))
    ensures Within(Steps(base, span, n, n), base, base + span - 1)
  {
    forall i | 0 <= i < n ensures base <= Step(base, span, i, n) <= base + span - 1 {
      StepBounds(base, span, i, n);
    }
    forall i, j | 0 <= i < j < n ensures Step(base, span, i, n) <= Step(base, span, j, n) {
      StepMono(base, span, i, j, n);
    }
  }

  // ---------------------------------------------------------------- per-file progress with batches

  /** `base + (b - 1) * span / T + i * span / (T * len)` for file `i` of batch `b` (1-based) of `T`. */
  function FileStep(base: int, span: nat, b: nat, total: nat, i: nat, len: nat): int
    requires 1 <= b <= total && len > 0
  {
    base + (b - 1) * span / total + i * span / (total * len)
  }

  /** `base + b * span / T` once batch `b` has been handed to the model. */
  function BatchEnd(base: int, span: nat, b: nat, total: nat): int
    requires total > 0
  {
    base + b * span / total
  }

  /** The within-batch offset of a file never exceeds one batch's share. */
  lemma FileOffsetBound(span: nat, total: nat, i: nat, len: nat)
    requires 0 < total && i < len
    ensures 0 <= i * span / (total * len) <= span / total
  {
    MulMono(1, total, len);
    MulMono(0, i, span);
    MulMono(i, len, span);
    assert len * span == span * len;
    DivMono(0, i * span, total * len);
    DivMono(i * span, span * len, total * len);
    DivCancel(span, total, len);
  }

  /** One more batch adds one batch's share at least. */
  lemma BatchEndStep(span: nat, b: nat, total: nat)
    requires 1 <= b && 0 < total
    ensures (b - 1) * span / total + span / total <= b * span / total
  {
    DivAdd((b - 1) * span, span, total);
    assert (b - 1) * span + span == b * span;
  }

  /** A file's value lies between the end of the previous batch and the end of its own. */
  lemma FileStepBounds(base: int, span: nat, b: nat, total: nat, i: nat, len: nat)
    requires 1 <= b <= total && i < len
    ensures BatchEnd(base, span, b - 1, total) <= FileStep(base, span, b, total, i, len) <= BatchEnd(base, span, b, total)
  {
    FileOffsetBound(span, total, i, len);
    BatchEndStep(span, b, total);
  }

  lemma FileStepMono(base: int, span: nat, b: nat, total: nat, i: nat, j: nat, len: nat)
    requires 1 <= b <= total && i <= j && len > 0
    ensures FileStep(base, span, b, total, i, len) <= FileStep(base, span, b, total, j, len)
  {
    MulMono(i, j, span);
    DivMono(i * span, j * span, total * len);
  }

  lemma BatchEndMono(base: int, span: nat, b: nat, c: nat, total: nat)
    requires b <= c && total > 0
    ensures BatchEnd(base, span, b, total) <= BatchEnd(base, span, c, total)
  {
    MulMono(b, c, span);
    DivMono(b * span, c * span, total);
  }

  /** The batch-end values run from `base` (before the first batch) to `base + span` (after the last). */
  lemma BatchEndRange(base: int, span: nat, b: nat, total: nat)
    requires b <= total && total > 0
    ensures base <= BatchEnd(base, span, b, total) <= base + span
    ensures BatchEnd(base, span, 0, total) == base
    ensures BatchEnd(base, span, total, total) == base + span
  {
    assert 0 * span == 0;
    BatchEndMono(base, span, 0, b, total);
    BatchEndMono(base, span, b, total, total);
    DivCancel(span, 1, total);
    assert 1 * total == total && span / 1 == span;
    assert span * total == total * span;
  }

  /** The per-file values of the first `k` files of batch `b` of `T` holding `len` files. */
  function FileSteps(base: int, span: nat, b: nat, total: nat, len: nat, k: nat): (r: seq<int>)
    requires 1 <= b <= total && k <= len
    ensures |r| == k
    ensures forall i :: 0 <= i < k ==> r[i] == FileStep(base, span, b, total, i, len)
  {
    seq(k, i requires 0 <= i < k => FileStep(base, span, b, total, i, len))
  }

  /** The values reported for batch `b` of `T` holding `len` files: one per file, then the batch end. */
  function BatchEvents(base: int, span: nat, b: nat, total: nat, len: nat): (r: seq<int>)
    requires 1 <= b <= total
    ensures |r| == len + 1
    ensures forall i :: 0 <= i < len ==> r[i] == FileStep(base, span, b, total, i, len)
    ensures r[len] == BatchEnd(base, span, b, total)
  {
    FileSteps(base, span, b, total, len, len) + [BatchEnd(base, span, b, total)]
  }

  /** A batch's values are non-decreasing and lie between the previous batch end and its own. */
  lemma BatchEventsShape(base: int, span: nat, b: nat, total: nat, len: nat)
    requires 1 <= b <= total && len > 0
    ensures NonDecreasing(BatchEvents(base, span, b, total, len))
    ensures Within(BatchEvents(base, span, b, total, len), BatchEnd(base, span, b - 1, total), BatchEnd(base, span, b, total))
  {
    var r := BatchEvents(base, span, b, total, len);
    BatchEndMono(base, span, b - 1, b, total);
    forall i | 0 <= i < len
      ensures BatchEnd(base, span, b - 1, total) <= r[i] <= BatchEnd(base, span, b, total)
    {
      FileStepBounds(base, span, b, total, i, len);
    }
    forall i, j | 0 <= i < j <= len ensures r[i] <= r[j] {
      if j < len {
        FileStepMono(base, span, b, total, i, j, len);
      }
    }
  }

  /** Lowering the bound keeps a run within it. */
  lemma WithinWeaken(s: seq<int>, lo: int, lo2: int, hi: int)
    requires Within(s, lo2, hi) && lo <= lo2
    ensures Within(s, lo, hi)
  {
  }

  /** A run in `[lo, mid]` followed by a run in `[mid, hi]`, both non-decreasing. */
  lemma JoinEvents(a: seq<int>, b: seq<int>, lo: int, mid: int, hi: int)
    requires NonDecreasing(a) && Within(a, lo, mid) && NonDecreasing(b) && Within(b, mid, hi) && lo <= mid <= hi
    ensures NonDecreasing(a + b) && Within(a + b, lo, hi)
  {
    NonDecreasingConcat(a, b, mid);
    forall k | 0 <= k < |a + b| ensures lo <= (a + b)[k] <= hi {
      if k < |a| {
        assert (a + b)[k] == a[k];
      } else {
        assert (a + b)[k] == b[k - |a|];
      }
    }
  }

  /** One reported value `v`, then (when `keep`) a run that starts no lower than `v`. */
  lemma PrefixEvent(sink: bool, v: int, rest: seq<int>, keep: bool, mid: int, hi: int)
    requires NonDecreasing(rest) && Within(rest, mid, hi) && v <= mid && v <= hi
    ensures NonDecreasing(Emit([], sink, v) + (if keep then rest else []))
    ensures Within(Emit([], sink, v) + (if keep then rest else []), v, hi)
  {
    var ev := Emit([], sink, v);
    if keep {
      WithinWeaken(rest, v, mid, hi);
      JoinEvents(ev, rest, v, v, hi);
    } else {
      assert ev + [] == ev;
    }
  }

  /** Two non-decreasing runs joined where the first never exceeds the start of the second. */
  lemma NonDecreasingConcat(a: seq<int>, b: seq<int>, m: int)
    requires NonDecreasing(a) && NonDecreasing(b)
    requires forall i :: 0 <= i < |a| ==> a[i] <= m
    requires forall j :: 0 <= j < |b| ==> m <= b[j]
    ensures NonDecreasing(a + b)
  {
  }
}
