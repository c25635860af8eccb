/**
 * `AIAnalysisService`: violation and bug detection, either mocked (demo mode) or by sending the
 * files to the chat model in batches, and the file classifications it uses in its progress
 * messages and prompts. The project summary lives in module `ProjectSummaries`.
 */
module AIAnalysis {
  import opened Wrappers
  import opened Text
  import opened Collections
  import opened Paths
  import opened Domain
  import opened Progress
  import opened Batches
  import opened Chat
  import opened ReplyParsing

  // ---------------------------------------------------------------- demo mode

  /**
   * `new Random(42)`, created afresh by each generator: `random(k, hi)` is the value of the
   * `k`-th call `Next(1, hi)`, which lies in `[1, hi)`.
   */
  ghost predicate ValidRandom(random: (nat, int) -> int)
  {
    forall k: nat, hi: int :: 1 < hi ==> 1 <= random(k, hi) < hi
  }

  function Max(a: int, b: int): int
  {
    if a < b then b else a
  }

  /** `standards.FirstOrDefault()?.Name`, or the given fallback. */
  function FirstStandardName(standards: seq<Standard>, fallback: string): (r: string)
    ensures standards != [] ==> r == standards[0].name
    ensures standards == [] ==> r == fallback
  {
    if standards == [] then fallback else standards[0].name
  }

  /** The line drawn for the `i`-th mock finding: `random.Next(1, Math.Max(2, file.LineCount))`. */
  function MockLine(files: seq<CodeFile>, random: (nat, int) -> int, i: nat): int
    requires i < |files|
  {
    random(i, Max(2, files[i].lineCount))
  }

  /** The violation `GenerateMockViolations` reports for one file, at the given line. */
  function MockViolation(file: CodeFile, standards: seq<Standard>, line: int): Violation
  {
    Violation(
      fileId := "",
      filePath := file.filePath,
      lineNumber := line,
      endLineNumber := 0,
      ruleName := FirstStandardName(standards, "Naming Convention"),
      description := "Variable naming does not follow " + FirstStandardName(standards, "standard naming") + " convention",
      kind := NamingConvention,
      severity := Medium,
      codeSnippet := "var user_name = \"John\";",
      suggestedFix := "var userName = \"John\";")
  }

  /**
   * The mock violations: one per file among the first five, each a medium naming-convention
   * violation of the first standard at a line in `[1, max(2, LineCount))`.
   */
  function MockViolations(files: seq<CodeFile>, standards: seq<Standard>, random: (nat, int) -> int): (r: seq<Violation>)
    requires ValidRandom(random)
    ensures |r| == |Take(files, 5)|
    ensures forall i :: 0 <= i < |r| ==>
      r[i].filePath == files[i].filePath && 1 <= r[i].lineNumber < Max(2, files[i].lineCount)
      && r[i].lineNumber == MockLine(files, random, i)
      && r[i].severity == Medium && r[i].kind == NamingConvention
      && r[i].ruleName == FirstStandardName(standards, "Naming Convention")
  {
    var n := |Take(files, 5)|;
    seq(n, i requires 0 <= i < n => MockViolation(files[i], standards, MockLine(files, random, i)))
  }

  /** `GenerateMockViolations`: the `foreach (var file in files.Take(5))` loop. */
  method GenerateMockViolations(files: seq<CodeFile>, standards: seq<Standard>, random: (nat, int) -> int)
    returns (violations: seq<Violation>)
    requires ValidRandom(random)
    ensures violations == MockViolations(files, standards, random)
  {
    violations := [];
    var firstFive := Take(files, 5);
    for k := 0 to |firstFive|
      invariant violations == MockViolations(files, standards, random)[..k]
    {
      var file := firstFive[k];
      violations := violations + [MockViolation(file, standards, random(k, Max(2, file.lineCount)))];
    }
  }

  /** The bug `GenerateMockBugs` reports for one file, at the given line. */
  function MockBug(file: CodeFile, line: int): (b: Bug)
    ensures b.filePath == file.filePath && b.lineNumber == line && b.severity == High
    ensures |b.reproductionSteps| == 3
  {
    Bug(
      fileId := "",
      filePath := file.filePath,
      lineNumber := line,
      title := "Potential Null Reference Exception",
      description := "Object may be null when accessed",
      rootCause := "Missing null check before accessing object property",
      impact := "Application may crash with NullReferenceException at runtime",
      severity := High,
      codeSnippet := "var result = user.Name.ToUpper();",
      reproductionSteps := ["Call the method with a null user object", "Access the Name property", "NullReferenceException is thrown"],
      suggestedFix := "var result = user?.Name?.ToUpper() ?? string.Empty;")
  }

  /** The mock bugs: one high-severity bug per file among the first three, at a line in `[1, max(2, LineCount))`. */
  function MockBugs(files: seq<CodeFile>, random: (nat, int) -> int): (r: seq<Bug>)
    requires ValidRandom(random)
    ensures |r| == |Take(files, 3)|
    ensures forall i :: 0 <= i < |r| ==>
      r[i].filePath == files[i].filePath && 1 <= r[i].lineNumber < Max(2, files[i].lineCount)
      && r[i].lineNumber == MockLine(files, random, i)
      && r[i].severity == High && |r[i].reproductionSteps| == 3
  {
    var n := |Take(files, 3)|;
    seq(n, i requires 0 <= i < n => MockBug(files[i], MockLine(files, random, i)))
  }

  /** `GenerateMockBugs`: the `foreach (var file in files.Take(3))` loop. */
  method GenerateMockBugs(files: seq<CodeFile>, random: (nat, int) -> int) returns (bugs: seq<Bug>)
    requires ValidRandom(random)
    ensures bugs == MockBugs(files, random)
  {
    bugs := [];
    var firstThree := Take(files, 3);
    for k := 0 to |firstThree|
      invariant bugs == MockBugs(files, random)[..k]
    {
      var file := firstThree[k];
      bugs := bugs + [MockBug(file, random(k, Max(2, file.lineCount)))];
    }
  }

  /** Both generators draw from `new Random(42)`, so the i-th mock bug sits on the i-th mock violation's line. */
  lemma MockLinesAgree(files: seq<CodeFile>, standards: seq<Standard>, random: (nat, int) -> int, i: nat)
    requires ValidRandom(random) && i < |files| && i < 3
    ensures MockBugs(files, random)[i].lineNumber == MockViolations(files, standards, random)[i].lineNumber
  {
  }

  /** The demo progress: `base` first, then `base + i * span / n` for each of the `n` files. */
  function DemoEvents(base: int, span: nat, sink: bool, n: nat): seq<int>
  {
    if sink then [base] + Steps(base, span, n, n) else []
  }

  /** The demo progress never decreases and stays in `[base, base + span - 1]`. */
  lemma DemoEventsShape(base: int, span: nat, sink: bool, n: nat)
    requires span > 0
    ensures NonDecreasing(DemoEvents(base, span, sink, n))
    ensures Within(DemoEvents(base, span, sink, n), base, base + span - 1)
  {
    StepsShape(base, span, n);
    if sink {
      NonDecreasingConcat([base], Steps(base, span, n, n), base);
    }
  }

  /** The demo loop over the files: one progress value before it and one per file. */
  method ReportFiles(sink: bool, base: int, span: nat, n: nat) returns (events: seq<int>)
    ensures events == DemoEvents(base, span, sink, n)
  {
    events := Emit([], sink, base);
    for i := 0 to n
      invariant events == (if sink then [base] + Steps(base, span, n, i) else [])
    {
      DemoEventsNext(base, span, sink, n, i);
      events := Emit(events, sink, Step(base, span, i, n));
    }
  }

  /** One more file adds its value to the demo progress. */
  lemma DemoEventsNext(base: int, span: nat, sink: bool, n: nat, i: nat)
    requires i < n
    ensures Emit(if sink then [base] + Steps(base, span, n, i) else [], sink, Step(base, span, i, n))
      == (if sink then [base] + Steps(base, span, n, i + 1) else [])
  {
    if sink {
      assert Steps(base, span, n, i + 1) == Steps(base, span, n, i) + [Step(base, span, i, n)];
    }
  }

  // ---------------------------------------------------------------- model mode

  /** A reply parsed as violations; `None` when the call threw. */
  function ViolationAnswer(reply: Option<string>, decode: string -> Decoded<ViolationDto>): Option<seq<Violation>>
  {
    if reply.None? then None else Some(ParseViolations(reply.value, decode))
  }

  /** What the model makes of each batch of `files.Chunk(10)` when asked for violations. */
  function ViolationAnswers(files: seq<CodeFile>, standards: seq<Standard>, complete: Prompt -> Option<string>,
                            decode: string -> Decoded<ViolationDto>): (r: seq<Option<seq<Violation>>>)
    ensures |r| == |Chunk(files, BatchSize)|
  {
    var bs := Chunk(files, BatchSize);
    seq(|bs|, i requires 0 <= i < |bs| => ViolationAnswer(complete(ViolationsRequest(standards, bs[i])), decode))
  }

  /**
   * `AnalyzeCodeViolationsAsync`: in demo mode, progress 42 and one value per file, then the mock
   * violations; otherwise the batch loop with progress between 42 and 67.
   */
  method AnalyzeCodeViolations(files: seq<CodeFile>, standards: seq<Standard>, provider: Option<string>, sink: bool,
                               complete: Prompt -> Option<string>, decode: string -> Decoded<ViolationDto>,
                               random: (nat, int) -> int)
    returns (result: Result<seq<Violation>>, events: seq<int>)
    requires ValidRandom(random)
    ensures IsDemo(provider) ==> result == Ok(MockViolations(files, standards, random)) && events == DemoEvents(42, 25, sink, |files|)
    ensures !IsDemo(provider) ==> (Run(result, events) ==
      BatchRun(Sizes(Chunk(files, BatchSize)), ViolationAnswers(files, standards, complete, decode), 1, |Chunk(files, BatchSize)|, 42, 25, sink))
  {
    if IsDemo(provider) {
      events := ReportFiles(sink, 42, 25, |files|);
      var violations := GenerateMockViolations(files, standards, random);
      result := Ok(violations);
    } else {
      result, events := RunBatches(files, 42, 25, sink,
        batch => ViolationAnswer(complete(ViolationsRequest(standards, batch)), decode),
        ViolationAnswers(files, standards, complete, decode));
    }
  }

  function BugAnswer(reply: Option<string>, decode: string -> Decoded<BugDto>): Option<seq<Bug>>
  {
    if reply.None? then None else Some(ParseBugs(reply.value, decode))
  }

  function BugAnswers(files: seq<CodeFile>, complete: Prompt -> Option<string>, decode: string -> Decoded<BugDto>)
    : (r: seq<Option<seq<Bug>>>)
    ensures |r| == |Chunk(files, BatchSize)|
  {
    var bs := Chunk(files, BatchSize);
    seq(|bs|, i requires 0 <= i < |bs| => BugAnswer(complete(BugsRequest(bs[i])), decode))
  }

  /**
   * `DetectBugsAsync`: in demo mode, progress 72 and one value per file, then the mock bugs;
   * otherwise the batch loop with progress between 72 and 87.
   */
  method DetectBugs(files: seq<CodeFile>, provider: Option<string>, sink: bool,
                    complete: Prompt -> Option<string>, decode: string -> Decoded<BugDto>,
                    random: (nat, int) -> int)
    returns (result: Result<seq<Bug>>, events: seq<int>)
    requires ValidRandom(random)
    ensures IsDemo(provider) ==> result == Ok(MockBugs(files, random)) && events == DemoEvents(72, 15, sink, |files|)
    ensures !IsDemo(provider) ==> (Run(result, events) ==
      BatchRun(Sizes(Chunk(files, BatchSize)), BugAnswers(files, complete, decode), 1, |Chunk(files, BatchSize)|, 72, 15, sink))
  {
    if IsDemo(provider) {
      events := ReportFiles(sink, 72, 15, |files|);
      var bugs := GenerateMockBugs(files, random);
      result := Ok(bugs);
    } else {
      result, events := RunBatches(files, 72, 15, sink,
        batch => BugAnswer(complete(BugsRequest(batch)), decode),
        BugAnswers(files, complete, decode));
    }
  }

  /**
   * The progress of violation detection never decreases and stays in [42, 67]; when there are
   * files and every batch is answered there is one value per file and one per batch, ending at 67.
   */
  lemma ViolationProgress(files: seq<CodeFile>, standards: seq<Standard>, complete: Prompt -> Option<string>,
                          decode: string -> Decoded<ViolationDto>, sink: bool)
    ensures var run := BatchRun(Sizes(Chunk(files, BatchSize)), ViolationAnswers(files, standards, complete, decode),
                                1, |Chunk(files, BatchSize)|, 42, 25, sink);
      NonDecreasing(run.events) && Within(run.events, 42, 67)
      && (files != [] && sink && AllAnswered(ViolationAnswers(files, standards, complete, decode)) ==>
            |run.events| == |files| + |Chunk(files, BatchSize)| && Last(run.events) == 67)
  {
    if files != [] {
      var bs := Chunk(files, BatchSize);
      var answers := ViolationAnswers(files, standards, complete, decode);
      ChunkSizes(files);
      BatchEndRange(42, 25, 0, |bs|);
      BatchRunEvents(Sizes(bs), answers, 1, |bs|, 42, 25, sink);
      if sink && AllAnswered(answers) {
        BatchRunCompletes(Sizes(bs), answers, 1, |bs|, 42, 25);
      }
    }
  }

  /** The progress of bug detection never decreases and stays in [72, 87], ending at 87 when there are files and all is answered. */
  lemma BugProgress(files: seq<CodeFile>, complete: Prompt -> Option<string>, decode: string -> Decoded<BugDto>, sink: bool)
    ensures var run := BatchRun(Sizes(Chunk(files, BatchSize)), BugAnswers(files, complete, decode),
                                1, |Chunk(files, BatchSize)|, 72, 15, sink);
      NonDecreasing(run.events) && Within(run.events, 72, 87)
      && (files != [] && sink && AllAnswered(BugAnswers(files, complete, decode)) ==>
            |run.events| == |files| + |Chunk(files, BatchSize)| && Last(run.events) == 87)
  {
    if files != [] {
      var bs := Chunk(files, BatchSize);
      var answers := BugAnswers(files, complete, decode);
      ChunkSizes(files);
      BatchEndRange(72, 15, 0, |bs|);
      BatchRunEvents(Sizes(bs), answers, 1, |bs|, 72, 15, sink);
      if sink && AllAnswered(answers) {
        BatchRunCompletes(Sizes(bs), answers, 1, |bs|, 72, 15);
      }
    }
  }

  /**
   * The violations found are the parsed replies to the batches in order, and the operation
   * fails exactly when one of the requests throws.
   */
  lemma ViolationFindings(files: seq<CodeFile>, standards: seq<Standard>, complete: Prompt -> Option<string>,
                          decode: string -> Decoded<ViolationDto>, sink: bool)
    ensures var answers := ViolationAnswers(files, standards, complete, decode);
      var run := BatchRun(Sizes(Chunk(files, BatchSize)), answers, 1, |Chunk(files, BatchSize)|, 42, 25, sink);
      (run.result.Ok? <==> forall i :: 0 <= i < |Chunk(files, BatchSize)| ==> complete(ViolationsRequest(standards, Chunk(files, BatchSize)[i])).Some?)
      && (run.result.Ok? ==> run.result.value == Flatten(Replies(answers)))
  {
    var bs := Chunk(files, BatchSize);
    var answers := ViolationAnswers(files, standards, complete, decode);
    BatchRunResult(Sizes(bs), answers, 1, |bs|, 42, 25, sink);
    assert forall i :: 0 <= i < |bs| ==> (answers[i].Some? <==> complete(ViolationsRequest(standards, bs[i])).Some?);
  }

  lemma BugFindings(files: seq<CodeFile>, complete: Prompt -> Option<string>, decode: string -> Decoded<BugDto>, sink: bool)
    ensures var answers := BugAnswers(files, complete, decode);
      var run := BatchRun(Sizes(Chunk(files, BatchSize)), answers, 1, |Chunk(files, BatchSize)|, 72, 15, sink);
      (run.result.Ok? <==> forall i :: 0 <= i < |Chunk(files, BatchSize)| ==> complete(BugsRequest(Chunk(files, BatchSize)[i])).Some?)
      && (run.result.Ok? ==> run.result.value == Flatten(Replies(answers)))
  {
    var bs := Chunk(files, BatchSize);
    var answers := BugAnswers(files, complete, decode);
    BatchRunResult(Sizes(bs), answers, 1, |bs|, 72, 15, sink);
    assert forall i :: 0 <= i < |bs| ==> (answers[i].Some? <==> complete(BugsRequest(bs[i])).Some?);
  }

  // ---------------------------------------------------------------- file classification

  /** The role a directory name suggests, checked in this order, case-insensitively. */
  function DirectoryRole(directory: string): Option<string>
  {
    if ContainsIgnoreCase(directory, "Controller") then Some("Controller")
    else if ContainsIgnoreCase(directory, "Service") then Some("Service")
    else if ContainsIgnoreCase(directory, "Model") || ContainsIgnoreCase(directory, "Entity")
      || ContainsIgnoreCase(directory, "Entities") then Some("Model")
    else if ContainsIgnoreCase(directory, "Repository") || ContainsIgnoreCase(directory, "Repositories") then Some("Repository")
    else if ContainsIgnoreCase(directory, "Interface") || ContainsIgnoreCase(directory, "Interfaces") then Some("Interface")
    else if ContainsIgnoreCase(directory, "DTO") || ContainsIgnoreCase(directory, "DTOs") then Some("DTO")
    else if ContainsIgnoreCase(directory, "Helper") || ContainsIgnoreCase(directory, "Helpers") then Some("Helper")
    else if ContainsIgnoreCase(directory, "Util") || ContainsIgnoreCase(directory, "Utils") then Some("Utility")
    else if ContainsIgnoreCase(directory, "Config") || ContainsIgnoreCase(directory, "Configuration") then Some("Configuration")
    else if ContainsIgnoreCase(directory, "Middleware") then Some("Middleware")
    else if ContainsIgnoreCase(directory, "Filter") || ContainsIgnoreCase(directory, "Filters") then Some("Filter")
    else None
  }

  /** The labels of the `extension switch`, keyed by lower-cased extension. */
  const ExtensionLabels: map<string, string> := map[
    ".cs" := "C# File", ".vb" := "VB.NET File", ".vbproj" := "VB.NET Project",
    ".aspx" := "ASP.NET Page", ".ascx" := "ASP.NET User Control", ".asmx" := "ASP.NET Web Service",
    ".ashx" := "ASP.NET Handler", ".master" := "ASP.NET Master Page", ".vbhtml" := "VB.NET Razor View",
    ".cshtml" := "C# Razor View", ".resx" := "Resource File", ".ts" := "TypeScript File",
    ".js" := "JavaScript File", ".html" := "HTML Template", ".htm" := "HTML File",
    ".css" := "Stylesheet", ".scss" := "SCSS Stylesheet", ".json" := "JSON Config",
    ".xml" := "XML File", ".config" := "Configuration File", ".md" := "Documentation",
    ".txt" := "Text File", ".sql" := "SQL Script"]

  /**
   * `GetFileType(filePath)` of the service: the role named by the innermost directory if any,
   * else the label of the lower-cased extension, else "Code File".
   */
  function FileKindLabel(filePath: string): string
  {
    KindLabel(DirectoryRole(FileName(DirectoryName(filePath))), Lower(Extension(filePath)))
  }

  /** The label for a directory role, if any, and a lower-cased extension. */
  function KindLabel(role: Option<string>, extension: string): string
  {
    if role.Some? then role.value
    else if extension in ExtensionLabels then ExtensionLabels[extension] else "Code File"
  }

  lemma DirectoryRoleOfLower(directory: string)
    ensures DirectoryRole(Lower(directory)) == DirectoryRole(directory)
  {
    LowerIdempotent(directory);
  }

  /** The label does not depend on letter case anywhere in the path. */
  lemma FileKindLabelIgnoresCase(filePath: string)
    ensures FileKindLabel(Lower(filePath)) == FileKindLabel(filePath)
  {
    DirectoryOfLower(filePath);
    LowerExtensionOfLower(filePath);
    DirectoryRoleOfLower(FileName(DirectoryName(filePath)));
    assert DirectoryRole(FileName(DirectoryName(Lower(filePath))))
      == DirectoryRole(FileName(DirectoryName(filePath)));
  }

  lemma DirectoryOfLower(filePath: string)
    ensures FileName(DirectoryName(Lower(filePath))) == Lower(FileName(DirectoryName(filePath)))
  {
    FileNameOfLower(filePath);
    FileNameOfLower(DirectoryName(filePath));
  }

  lemma LowerExtensionOfLower(filePath: string)
    ensures Lower(Extension(Lower(filePath))) == Lower(Extension(filePath))
  {
    ExtensionOfLower(filePath);
    LowerIdempotent(Extension(filePath));
  }

  /** A role named by the enclosing directory wins over the file's extension. */
  lemma DirectoryRoleWins(parent: string, name: string)
    requires '/' !in name
    requires DirectoryRole(FileName(parent)).Some?
    ensures FileKindLabel(parent + "/" + name) == DirectoryRole(FileName(parent)).value
  {
    FileNameOfJoin(parent, name);
  }

  /** A file outside any role directory is labelled by its extension alone. */
  lemma ExtensionDecides(parent: string, name: string)
    requires '/' !in name
    requires DirectoryRole(FileName(parent)).None?
    ensures FileKindLabel(parent + "/" + name) ==
      (if Lower(Extension(name)) in ExtensionLabels then ExtensionLabels[Lower(Extension(name))] else "Code File")
  {
    FileNameOfJoin(parent, name);
  }

  /** `keyPatterns` of `IsKeyFile`, already lower-case. */
  const KeyPatterns: seq<string> := [
    "program", "startup", "main", "app", "index",
    "controller", "service", "repository", "model",
    "package.json", "pom.xml", "build.gradle", "cargo.toml",
    "requirements.txt", "gemfile", "composer.json",
    ".csproj", ".vbproj", ".fsproj", ".sln"]

  /** `IsKeyFile`: the lower-cased file name contains one of the key patterns. */
  predicate IsKeyFile(filePath: string)
  {
    ContainsAny(Lower(FileName(filePath)), KeyPatterns)
  }

  /** Some pattern of `patterns` occurs in `s`. */
  predicate ContainsAny(s: string, patterns: seq<string>)
  {
    exists i | 0 <= i < |patterns| :: Contains(s, patterns[i])
  }

  /** Whether a file is a key file does not depend on letter case. */
  lemma IsKeyFileIgnoresCase(filePath: string)
    ensures IsKeyFile(Lower(filePath)) == IsKeyFile(filePath)
  {
    LowerNameOfLower(filePath);
  }

  lemma LowerNameOfLower(filePath: string)
    ensures Lower(FileName(Lower(filePath))) == Lower(FileName(filePath))
  {
    FileNameOfLower(filePath);
    LowerIdempotent(FileName(filePath));
  }

  /** Project files (`.csproj`, `.sln`, ...) are key files whatever their case and folder. */
  lemma ProjectFilesAreKey(filePath: string, k: nat)
    requires 16 <= k < 20 && EndsWith(Lower(FileName(filePath)), KeyPatterns[k])
    ensures IsKeyFile(filePath)
  {
    var name := Lower(FileName(filePath));
    ContainsWitness(name, KeyPatterns[k], |name| - |KeyPatterns[k]|);
  }
}
