/**
 * `DocumentationService`: coding standards either extracted from the repository's markdown
 * files or generated from a sample of its code files, by the chat model or, in demo mode, as a
 * fixed list of five. The reply parsing (`ExtractJsonFromResponse`, `ParseStandardsFromResponse`)
 * is shared with module `ReplyParsing`, where it is modelled once.
 */
module Documentation {
  import opened Wrappers
  import opened Collections
  import opened Domain
  import opened Progress
  import opened Batches
  import opened Chat
  import opened ReplyParsing
  import opened FileAnalyzer
  import opened AIAnalysis

  // ---------------------------------------------------------------- demo mode

  function DemoStandard(name: string, description: string, category: string, examples: seq<string>): Standard
  {
    Standard(name, description, category, "", "", false, "Demo-Generated", examples, [])
  }

  /** `GenerateMockStandards(files)`: five fixed standards; the argument is not looked at. */
  const DemoStandards: seq<Standard> := [
    DemoStandard("Consistent Naming Conventions",
      "Use PascalCase for class names, camelCase for variables, and UPPERCASE for constants.",
      "Naming",
      ["public class UserService { }", "private string userName;", "const int MAX_RETRIES = 3;"]),
    DemoStandard("Error Handling",
      "Always use try-catch blocks for operations that may throw exceptions. Log errors appropriately.",
      "Error Handling",
      ["try { await service.Process(); } catch (Exception ex) { _logger.LogError(ex, \"Error\"); }"]),
    DemoStandard("Code Documentation",
      "All public methods must have XML documentation comments.",
      "Documentation",
      ["/// <summary>\n/// Processes the user request\n/// </summary>"]),
    DemoStandard("Async/Await Usage",
      "Use async/await for I/O operations. Avoid blocking calls like .Result or .Wait().",
      "Performance",
      ["await repository.SaveAsync();", "var data = await httpClient.GetStringAsync(url);"]),
    DemoStandard("Dependency Injection",
      "Use constructor injection for dependencies. Avoid service locator pattern.",
      "Architecture",
      ["public class Service { private readonly IRepository _repo; public Service(IRepository repo) { _repo = repo; } }"])
  ]

  /**
   * The demo list has five standards in fixed categories, none of them taken from the
   * repository's documents, all attributed to "Demo-Generated".
   */
  lemma DemoStandardsShape()
    ensures |DemoStandards| == 5
    ensures forall i :: 0 <= i < 5 ==> !DemoStandards[i].isFromExistingDocs && DemoStandards[i].sourceFile == "Demo-Generated"
    ensures forall i :: 0 <= i < 5 ==> DemoStandards[i].techStack == "" && DemoStandards[i].tags == []
    ensures Map(DemoStandards, CategoryOf) == ["Naming", "Error Handling", "Documentation", "Performance", "Architecture"]
    ensures Map(DemoStandards, ExampleCount) == [3, 1, 1, 2, 1]
  {
  }

  function CategoryOf(standard: Standard): string { standard.category }
  function ExampleCount(standard: Standard): nat { |standard.examples| }

  // ---------------------------------------------------------------- standards from markdown

  /**
   * The markdown loop from file `i` on: a Markdown-typed file reports `26 + i * 12 / n`, is sent
   * to the model and contributes its parsed standards tagged with its path; other files are
   * skipped; a call that throws ends the operation; after the last file the service reports 38.
   */
  function MarkdownFrom(files: seq<CodeFile>, i: nat, sink: bool, complete: Prompt -> Option<string>,
                        decode: string -> Decoded<StandardDto>): Run<Standard>
    requires i <= |files|
    decreases |files| - i
  {
    if i == |files| then Run(Ok([]), Emit([], sink, 38))
    else if !files[i].fileType.Markdown? then MarkdownFrom(files, i + 1, sink, complete, decode)
    else
      var ev := Emit([], sink, Step(26, 12, i, |files|));
      match complete(MarkdownRequest(files[i].content))
      case None => Run(Err(ModelCallFailed), ev)
      case Some(reply) =>
        Then(ParseStandards(reply, decode, files[i].filePath, true), ev, MarkdownFrom(files, i + 1, sink, complete, decode))
  }

  /** One iteration of the markdown loop, unfolded at file `i`. */
  lemma MarkdownStep(files: seq<CodeFile>, i: nat, sink: bool, complete: Prompt -> Option<string>,
                     decode: string -> Decoded<StandardDto>)
    requires i < |files|
    ensures !files[i].fileType.Markdown? ==>
      MarkdownFrom(files, i, sink, complete, decode) == MarkdownFrom(files, i + 1, sink, complete, decode)
    ensures files[i].fileType.Markdown? && complete(MarkdownRequest(files[i].content)).None? ==>
      MarkdownFrom(files, i, sink, complete, decode) == Run(Err(ModelCallFailed), Emit([], sink, Step(26, 12, i, |files|)))
    ensures files[i].fileType.Markdown? && complete(MarkdownRequest(files[i].content)).Some? ==>
      MarkdownFrom(files, i, sink, complete, decode) ==
        Then(ParseStandards(complete(MarkdownRequest(files[i].content)).value, decode, files[i].filePath, true),
             Emit([], sink, Step(26, 12, i, |files|)), MarkdownFrom(files, i + 1, sink, complete, decode))
  {
  }

  /** The loop's invariant carried over file `i`, given what the body collected and reported before it. */
  lemma MarkdownAdvance(files: seq<CodeFile>, i: nat, sink: bool, complete: Prompt -> Option<string>,
                        decode: string -> Decoded<StandardDto>, acc: seq<Standard>, events: seq<int>)
    requires i < |files|
    ensures !files[i].fileType.Markdown? ==>
      Then(acc, events, MarkdownFrom(files, i, sink, complete, decode)) == Then(acc, events, MarkdownFrom(files, i + 1, sink, complete, decode))
    ensures files[i].fileType.Markdown? && complete(MarkdownRequest(files[i].content)).None? ==>
      Then(acc, events, MarkdownFrom(files, i, sink, complete, decode)) ==
        Run(Err(ModelCallFailed), Emit(events, sink, Step(26, 12, i, |files|)))
    ensures files[i].fileType.Markdown? && complete(MarkdownRequest(files[i].content)).Some? ==>
      Then(acc, events, MarkdownFrom(files, i, sink, complete, decode)) ==
        Then(acc + ParseStandards(complete(MarkdownRequest(files[i].content)).value, decode, files[i].filePath, true),
             Emit(events, sink, Step(26, 12, i, |files|)), MarkdownFrom(files, i + 1, sink, complete, decode))
  {
    MarkdownStep(files, i, sink, complete, decode);
    var ev := Emit([], sink, Step(26, 12, i, |files|));
    assert events + ev == Emit(events, sink, Step(26, 12, i, |files|));
    if files[i].fileType.Markdown? && complete(MarkdownRequest(files[i].content)).Some? {
      ThenAssoc(acc, events, ParseStandards(complete(MarkdownRequest(files[i].content)).value, decode, files[i].filePath, true),
        ev, MarkdownFrom(files, i + 1, sink, complete, decode));
    }
  }

  /**
   * `ExtractStandardsFromMarkdownAsync`: in demo mode one progress value per file and the demo
   * standards; otherwise 26, then the markdown loop.
   */
  method ExtractStandardsFromMarkdown(markdownFiles: seq<CodeFile>, provider: Option<string>, sink: bool,
                                      complete: Prompt -> Option<string>, decode: string -> Decoded<StandardDto>)
    returns (result: Result<seq<Standard>>, events: seq<int>)
    ensures IsDemo(provider) ==> result == Ok(DemoStandards) && events == DemoEvents(26, 12, sink, |markdownFiles|)
    ensures !IsDemo(provider) ==>
      Run(result, events) == Then([], Emit([], sink, 26), MarkdownFrom(markdownFiles, 0, sink, complete, decode))
  {
    if IsDemo(provider) {
      events := ReportFiles(sink, 26, 12, |markdownFiles|);
      result := Ok(DemoStandards);
      return;
    }
    events := Emit([], sink, 26);
    var allStandards: seq<Standard> := [];
    ghost var whole := Then([], events, MarkdownFrom(markdownFiles, 0, sink, complete, decode));
    var n := |markdownFiles|;
    for i := 0 to n
      invariant Then(allStandards, events, MarkdownFrom(markdownFiles, i, sink, complete, decode)) == whole
    {
      var file := markdownFiles[i];
      MarkdownAdvance(markdownFiles, i, sink, complete, decode, allStandards, events);
      if file.fileType.Markdown? {
        events := Emit(events, sink, Step(26, 12, i, n));
        var reply := complete(MarkdownRequest(file.content));
        if reply.None? {
          return Err(ModelCallFailed), events;
        }
        var standards := ParseStandards(reply.value, decode, file.filePath, true);
        allStandards := allStandards + standards;
      }
    }
    events := Emit(events, sink, 38);
    result := Ok(allStandards);
    assert allStandards + [] == allStandards;
  }

  /** Every call answered: the whole markdown loop succeeds. */
  predicate MarkdownAnswered(files: seq<CodeFile>, i: nat, complete: Prompt -> Option<string>)
    requires i <= |files|
  {
    forall j :: i <= j < |files| && files[j].fileType.Markdown? ==> complete(MarkdownRequest(files[j].content)).Some?
  }

  /** The loop fails exactly when the model throws on one of the markdown files. */
  lemma {:induction false} MarkdownOk(files: seq<CodeFile>, i: nat, sink: bool, complete: Prompt -> Option<string>,
                                      decode: string -> Decoded<StandardDto>)
    requires i <= |files|
    ensures MarkdownFrom(files, i, sink, complete, decode).result.Ok? <==> MarkdownAnswered(files, i, complete)
    decreases |files| - i
  {
    if i < |files| {
      MarkdownOk(files, i + 1, sink, complete, decode);
      MarkdownOkStep(files, i, sink, complete, decode);
      MarkdownAnsweredStep(files, i, complete);
    }
  }

  /** File `i` keeps the loop going exactly when it is not markdown or its call is answered. */
  lemma MarkdownOkStep(files: seq<CodeFile>, i: nat, sink: bool, complete: Prompt -> Option<string>,
                       decode: string -> Decoded<StandardDto>)
    requires i < |files|
    ensures MarkdownFrom(files, i, sink, complete, decode).result.Ok? <==>
      (files[i].fileType.Markdown? ==> complete(MarkdownRequest(files[i].content)).Some?)
      && MarkdownFrom(files, i + 1, sink, complete, decode).result.Ok?
  {
    MarkdownStep(files, i, sink, complete, decode);
  }

  lemma MarkdownAnsweredStep(files: seq<CodeFile>, i: nat, complete: Prompt -> Option<string>)
    requires i < |files|
    ensures MarkdownAnswered(files, i, complete) <==>
      (files[i].fileType.Markdown? ==> complete(MarkdownRequest(files[i].content)).Some?) && MarkdownAnswered(files, i + 1, complete)
  {
    if (files[i].fileType.Markdown? ==> complete(MarkdownRequest(files[i].content)).Some?) && MarkdownAnswered(files, i + 1, complete) {
      forall j | i <= j < |files| && files[j].fileType.Markdown?
        ensures complete(MarkdownRequest(files[j].content)).Some?
      {
      }
    }
  }

  /** `st` is marked as coming from the documents and names a markdown file at or after `i` as its source. */
  predicate FromMarkdown(files: seq<CodeFile>, i: nat, st: Standard)
  {
    st.isFromExistingDocs && exists j :: i <= j < |files| && files[j].fileType.Markdown? && st.sourceFile == files[j].filePath
  }

  /**
   * What the loop collects is marked as coming from the documents and names a markdown file of
   * the input as its source.
   */
  lemma {:induction false} MarkdownOrigin(files: seq<CodeFile>, i: nat, sink: bool, complete: Prompt -> Option<string>,
                                          decode: string -> Decoded<StandardDto>)
    requires i <= |files|
    ensures MarkdownFrom(files, i, sink, complete, decode).result.Ok? ==>
      forall st :: st in MarkdownFrom(files, i, sink, complete, decode).result.value ==> FromMarkdown(files, i, st)
    decreases |files| - i
  {
    if i < |files| {
      MarkdownOrigin(files, i + 1, sink, complete, decode);
      MarkdownStep(files, i, sink, complete, decode);
      var rest := MarkdownFrom(files, i + 1, sink, complete, decode);
      if rest.result.Ok? {
        forall st | st in rest.result.value
          ensures FromMarkdown(files, i, st)
        {
          assert FromMarkdown(files, i + 1, st);
          var j :| i + 1 <= j < |files| && files[j].fileType.Markdown? && st.sourceFile == files[j].filePath;
        }
      }
      if files[i].fileType.Markdown? && complete(MarkdownRequest(files[i].content)).Some? && rest.result.Ok? {
        var reply := complete(MarkdownRequest(files[i].content)).value;
        var found := ParseStandards(reply, decode, files[i].filePath, true);
        ParsedStandardsOrigin(reply, decode, files[i].filePath, true);
        forall st | st in found
          ensures FromMarkdown(files, i, st)
        {
          var k :| 0 <= k < |found| && found[k] == st;
        }
        assert MarkdownFrom(files, i, sink, complete, decode).result.value == found + rest.result.value;
      }
    }
  }

  /** The markdown loop's progress never decreases and stays between the value of file `i` and 38. */
  lemma {:induction false} MarkdownEvents(files: seq<CodeFile>, i: nat, sink: bool, complete: Prompt -> Option<string>,
                                          decode: string -> Decoded<StandardDto>)
    requires i <= |files| && |files| > 0
    ensures NonDecreasing(MarkdownFrom(files, i, sink, complete, decode).events)
    ensures Within(MarkdownFrom(files, i, sink, complete, decode).events, Step(26, 12, i, |files|), 38)
    decreases |files| - i
  {
    if i == |files| {
      StepAtEnd(26, 12, |files|);
    } else {
      MarkdownEvents(files, i + 1, sink, complete, decode);
      MarkdownEventsStep(files, i, sink, complete, decode);
    }
  }

  /** The progress of file `i` joined to that of the files after it. */
  lemma MarkdownEventsStep(files: seq<CodeFile>, i: nat, sink: bool, complete: Prompt -> Option<string>,
                           decode: string -> Decoded<StandardDto>)
    requires i < |files|
    requires NonDecreasing(MarkdownFrom(files, i + 1, sink, complete, decode).events)
    requires Within(MarkdownFrom(files, i + 1, sink, complete, decode).events, Step(26, 12, i + 1, |files|), 38)
    ensures NonDecreasing(MarkdownFrom(files, i, sink, complete, decode).events)
    ensures Within(MarkdownFrom(files, i, sink, complete, decode).events, Step(26, 12, i, |files|), 38)
  {
    var n := |files|;
    StepMono(26, 12, i, i + 1, n);
    StepBounds(26, 12, i, n);
    MarkdownEventsOf(files, i, sink, complete, decode);
    var rest := MarkdownFrom(files, i + 1, sink, complete, decode).events;
    if files[i].fileType.Markdown? {
      PrefixEvent(sink, Step(26, 12, i, n), rest, complete(MarkdownRequest(files[i].content)).Some?, Step(26, 12, i + 1, n), 38);
    } else {
      WithinWeaken(rest, Step(26, 12, i, n), Step(26, 12, i + 1, n), 38);
    }
  }

  /** The progress values of the loop from file `i`, in terms of those from file `i + 1`. */
  lemma MarkdownEventsOf(files: seq<CodeFile>, i: nat, sink: bool, complete: Prompt -> Option<string>,
                         decode: string -> Decoded<StandardDto>)
    requires i < |files|
    ensures MarkdownFrom(files, i, sink, complete, decode).events ==
      if !files[i].fileType.Markdown? then MarkdownFrom(files, i + 1, sink, complete, decode).events
      else (Emit([], sink, Step(26, 12, i, |files|)) +
        (if complete(MarkdownRequest(files[i].content)).Some? then MarkdownFrom(files, i + 1, sink, complete, decode).events else []))
  {
    if files[i].fileType.Markdown? && complete(MarkdownRequest(files[i].content)).None? {
      assert Emit([], sink, Step(26, 12, i, |files|)) + [] == Emit([], sink, Step(26, 12, i, |files|));
    }
  }

  /** When every call is answered and progress is reported, the markdown loop ends by reporting 38. */
  lemma {:induction false} MarkdownEndsAt38(files: seq<CodeFile>, i: nat, complete: Prompt -> Option<string>,
                                            decode: string -> Decoded<StandardDto>)
    requires i <= |files| && MarkdownAnswered(files, i, complete)
    ensures MarkdownFrom(files, i, true, complete, decode).events != []
    ensures Last(MarkdownFrom(files, i, true, complete, decode).events) == 38
    decreases |files| - i
  {
    if i < |files| {
      assert MarkdownAnswered(files, i + 1, complete);
      MarkdownEndsAt38(files, i + 1, complete, decode);
      MarkdownStep(files, i, true, complete, decode);
      var rest := MarkdownFrom(files, i + 1, true, complete, decode);
      if files[i].fileType.Markdown? {
        var ev := Emit([], true, Step(26, 12, i, |files|));
        assert MarkdownFrom(files, i, true, complete, decode).events == ev + rest.events;
      }
    }
  }

  /** Demo or not, markdown progress stays in `[26, 38]` and never decreases. */
  lemma MarkdownProgress(files: seq<CodeFile>, provider: Option<string>, sink: bool, complete: Prompt -> Option<string>,
                         decode: string -> Decoded<StandardDto>)
    ensures NonDecreasing(DemoEvents(26, 12, sink, |files|)) && Within(DemoEvents(26, 12, sink, |files|), 26, 37)
    ensures NonDecreasing(Then([], Emit([], sink, 26), MarkdownFrom(files, 0, sink, complete, decode)).events)
    ensures Within(Then([], Emit([], sink, 26), MarkdownFrom(files, 0, sink, complete, decode)).events, 26, 38)
  {
    DemoEventsShape(26, 12, sink, |files|);
    var rest := MarkdownFrom(files, 0, sink, complete, decode);
    if |files| > 0 {
      MarkdownEvents(files, 0, sink, complete, decode);
    }
    NonDecreasingConcat(Emit([], sink, 26), rest.events, 26);
  }

  // ---------------------------------------------------------------- standards from the codebase

  /** The files handed to the model: at most the first twenty code files, in order. */
  function CodeSample(codeFiles: seq<CodeFile>): seq<CodeFile>
  {
    Take(Filter(codeFiles, (f: CodeFile) => IsCodeFile(f.fileType)), 20)
  }

  /**
   * The sample holds at most twenty code files of the input; when it holds fewer, it holds
   * every code file of the input.
   */
  lemma CodeSampleShape(codeFiles: seq<CodeFile>)
    ensures |CodeSample(codeFiles)| <= 20
    ensures forall i :: 0 <= i < |CodeSample(codeFiles)| ==>
      CodeSample(codeFiles)[i] in codeFiles && IsCodeFile(CodeSample(codeFiles)[i].fileType)
    ensures |CodeSample(codeFiles)| < 20 ==>
      forall i :: 0 <= i < |codeFiles| && IsCodeFile(codeFiles[i].fileType) ==> codeFiles[i] in CodeSample(codeFiles)
  {
    var all := Filter(codeFiles, (f: CodeFile) => IsCodeFile(f.fileType));
    var r := CodeSample(codeFiles);
    assert r == Take(all, 20);
    forall i | 0 <= i < |r| ensures r[i] in codeFiles && IsCodeFile(r[i].fileType) {
      assert r[i] == all[i];
    }
  }

  /**
   * `GenerateStandardsFromCodebaseAsync`: demo mode reports 26, 30 and 35 and returns the demo
   * standards; otherwise the sample goes to the model, and the parsed reply is attributed to
   * "AI-Generated" and reported with a closing 40.
   */
  method GenerateStandardsFromCodebase(codeFiles: seq<CodeFile>, provider: Option<string>, sink: bool,
                                       complete: Prompt -> Option<string>, decode: string -> Decoded<StandardDto>)
    returns (result: Result<seq<Standard>>, events: seq<int>)
    ensures IsDemo(provider) ==> result == Ok(DemoStandards) && events == (if sink then [26, 30, 35] else [])
    ensures !IsDemo(provider) && complete(CodebaseRequest(CodeSample(codeFiles))).None? ==>
      result == Err(ModelCallFailed) && events == (if sink then [26, 30, 35] else [])
    ensures !IsDemo(provider) && complete(CodebaseRequest(CodeSample(codeFiles))).Some? ==>
      result == Ok(ParseStandards(complete(CodebaseRequest(CodeSample(codeFiles))).value, decode, "AI-Generated", false))
    ensures !IsDemo(provider) && complete(CodebaseRequest(CodeSample(codeFiles))).Some? ==>
      events == (if sink then [26, 30, 35, 40] else [])
  {
    CodebaseEvents(sink);
    events := Emit([], sink, 26);
    if IsDemo(provider) {
      events := Emit(events, sink, 30);
      events := Emit(events, sink, 35);
      result := Ok(DemoStandards);
      return;
    }
    var sampledFiles := CodeSample(codeFiles);
    events := Emit(events, sink, 30);
    events := Emit(events, sink, 35);
    var closing;
    result, closing := AskForStandards(sampledFiles, sink, complete, decode);
    events := events + closing;
  }

  /** The values `GenerateStandardsFromCodebaseAsync` reports, one `Emit` at a time. */
  lemma CodebaseEvents(sink: bool)
    ensures Emit(Emit(Emit([], sink, 26), sink, 30), sink, 35) == (if sink then [26, 30, 35] else [])
    ensures (if sink then [26, 30, 35] else []) + (if sink then [40] else []) == (if sink then [26, 30, 35, 40] else [])
  {
  }

  /** The model call of `GenerateStandardsFromCodebaseAsync`: the parsed reply and a closing 40, or the failure. */
  method AskForStandards(sampledFiles: seq<CodeFile>, sink: bool,
                         complete: Prompt -> Option<string>, decode: string -> Decoded<StandardDto>)
    returns (result: Result<seq<Standard>>, events: seq<int>)
    ensures complete(CodebaseRequest(sampledFiles)).None? ==> result == Err(ModelCallFailed) && events == []
    ensures complete(CodebaseRequest(sampledFiles)).Some? ==>
      result == Ok(ParseStandards(complete(CodebaseRequest(sampledFiles)).value, decode, "AI-Generated", false))
      && events == (if sink then [40] else [])
  {
    var reply := complete(CodebaseRequest(sampledFiles));
    if reply.None? {
      return Err(ModelCallFailed), [];
    }
    result := Ok(ParseStandards(reply.value, decode, "AI-Generated", false));
    events := Emit([], sink, 40);
  }

  /** Standards generated from the code are never marked as coming from the documents. */
  lemma GeneratedStandardsOrigin(reply: string, decode: string -> Decoded<StandardDto>)
    ensures forall i :: 0 <= i < |ParseStandards(reply, decode, "AI-Generated", false)| ==>
      !ParseStandards(reply, decode, "AI-Generated", false)[i].isFromExistingDocs
      && ParseStandards(reply, decode, "AI-Generated", false)[i].sourceFile == "AI-Generated"
  {
    ParsedStandardsOrigin(reply, decode, "AI-Generated", false);
  }
}
