/**
 * `ReportService`: the report pipeline. It loads a repository, counts its folders and file
 * types, splits Markdown from code, obtains the project summary, takes the standards from the
 * documentation or generates them from the code, runs the violation and bug detectors on the
 * code files, computes the report's statistics, caches the report and reports progress along
 * the way.
 */
module Reports {
  import opened Wrappers
  import opened Text
  import opened Paths
  import opened Collections
  import opened Domain
  import opened Progress
  import opened Batches
  import opened Chat
  import opened ReplyParsing
  import opened AIAnalysis
  import opened Documentation
  import opened ProjectSummaries
  import opened Persistence

  // ---------------------------------------------------------------- folder structure

  /** A folder name counts as itself. */
  function Itself(s: string): string
  {
    s
  }

  /** The folders a file sits in: its directory split on '/' and '\\', empty entries dropped. */
  function FoldersOf(f: CodeFile): seq<string>
  {
    Segments(DirectoryName(f.filePath))
  }

  /** Every (file, folder) occurrence, file by file and, within a file, outermost folder first. */
  function FolderOccurrences(files: seq<CodeFile>): seq<string>
  {
    if files == [] then [] else FolderOccurrences(files[..|files| - 1]) + FoldersOf(files[|files| - 1])
  }

  /** The folder histogram `AnalyzeFolderStructure` returns, specified as a count of occurrences. */
  function FolderCounts(files: seq<CodeFile>): Tally<string>
  {
    CountBy(FolderOccurrences(files), Itself)
  }

  lemma CountByAppend(xs: seq<string>, ys: seq<string>, k: nat)
    requires k < |ys|
    ensures CountBy(xs + ys[..k + 1], Itself) == CountBy(xs + ys[..k] + [ys[k]], Itself)
  {
    assert xs + ys[..k + 1] == xs + ys[..k] + [ys[k]];
  }

  /**
   * `AnalyzeFolderStructure`: for each file and each folder of its directory, create the entry
   * at 0 if it is missing and increment it.
   */
  method AnalyzeFolderStructure(files: seq<CodeFile>) returns (folderCounts: Tally<string>)
    ensures folderCounts == FolderCounts(files)
  {
    folderCounts := Tally([], map[]);
    ghost var occ: seq<string> := [];
    for i := 0 to |files|
      invariant occ == FolderOccurrences(files[..i])
      invariant folderCounts == CountBy(occ, Itself)
    {
      FolderOccurrencesNext(files, i);
      folderCounts := CountFolders(folderCounts, FoldersOf(files[i]), occ);
      occ := occ + FoldersOf(files[i]);
    }
    assert files[..|files|] == files;
  }

  /** One more file adds its folders to the occurrences. */
  lemma FolderOccurrencesNext(files: seq<CodeFile>, i: nat)
    requires i < |files|
    ensures FolderOccurrences(files[..i + 1]) == FolderOccurrences(files[..i]) + FoldersOf(files[i])
  {
    assert files[..i + 1] == files[..i] + [files[i]];
    FolderOccurrencesSnoc(files[..i], files[i]);
  }

  /** The inner loop of `AnalyzeFolderStructure`: count one file's folders on top of `counts`. */
  method CountFolders(counts: Tally<string>, folders: seq<string>, ghost before: seq<string>)
    returns (r: Tally<string>)
    requires counts == CountBy(before, Itself)
    ensures r == CountBy(before + folders, Itself)
  {
    r := counts;
    assert before + folders[..0] == before;
    for j := 0 to |folders|
      invariant r == CountBy(before + folders[..j], Itself)
    {
      var folder := folders[j];
      CountByAppend(before, folders, j);
      CountBySnoc(before + folders[..j], folder, Itself);
      var keys, cs := r.keys, r.counts;
      if folder !in cs {
        keys, cs := keys + [folder], cs[folder := 0];
      }
      r := Tally(keys, cs[folder := cs[folder] + 1]);
    }
    assert folders[..|folders|] == folders;
  }

  /** The occurrences of `files + [f]` are those of `files` followed by the folders of `f`. */
  lemma FolderOccurrencesSnoc(files: seq<CodeFile>, f: CodeFile)
    ensures FolderOccurrences(files + [f]) == FolderOccurrences(files) + FoldersOf(f)
  {
    assert (files + [f])[..|files|] == files;
  }

  /** Every occurrence is a non-empty folder name without a separator. */
  lemma {:induction false} FolderOccurrencesShape(files: seq<CodeFile>)
    ensures WellFormedSegments(FolderOccurrences(files))
  {
    if files != [] {
      var init := files[..|files| - 1];
      FolderOccurrencesShape(init);
      SegmentsShape(DirectoryName(files[|files| - 1].filePath));
      WellFormedSegmentsAppend(FolderOccurrences(init), FoldersOf(files[|files| - 1]));
    }
  }

  /**
   * The count of a folder name is the number of (file, folder) occurrences with that name; the
   * names are distinct, in first-appearance order, non-empty and free of separators, and the
   * counts add up to the number of occurrences.
   */
  lemma FolderCountsCorrect(files: seq<CodeFile>)
    ensures TallyOf(FolderOccurrences(files), Itself, FolderCounts(files))
    ensures forall k | k in FolderCounts(files).counts :: k != [] && NoSeparator(k)
  {
    CountByCorrect(FolderOccurrences(files), Itself);
    FolderOccurrencesShape(files);
    var occ := FolderOccurrences(files);
    forall k | k in FolderCounts(files).counts ensures k != [] && NoSeparator(k) {
      var i :| 0 <= i < |occ| && Itself(occ[i]) == k;
    }
  }

  // ---------------------------------------------------------------- file categories

  predicate IsMarkdownType(f: CodeFile)
  {
    f.fileType == Markdown
  }

  predicate IsCodeType(f: CodeFile)
  {
    f.fileType != Markdown
  }

  /** `repository.Files.Where(f => f.FileType == FileType.Markdown)`. */
  function MarkdownFiles(files: seq<CodeFile>): seq<CodeFile>
  {
    Filter(files, IsMarkdownType)
  }

  /** `repository.Files.Where(f => f.FileType != FileType.Markdown)`. */
  function CodeFiles(files: seq<CodeFile>): seq<CodeFile>
  {
    Filter(files, IsCodeType)
  }

  /** Every file lands in exactly one of the two lists, which together hold all files. */
  lemma PartitionFiles(files: seq<CodeFile>)
    ensures multiset(MarkdownFiles(files)) + multiset(CodeFiles(files)) == multiset(files)
    ensures |MarkdownFiles(files)| + |CodeFiles(files)| == |files|
    ensures forall f :: f in MarkdownFiles(files) <==> f in files && f.fileType == Markdown
    ensures forall f :: f in CodeFiles(files) <==> f in files && f.fileType != Markdown
  {
    FilterIn(files, IsMarkdownType);
    FilterIn(files, IsCodeType);
    FilterComplement(files, IsMarkdownType, IsCodeType);
    var m, c := MarkdownFiles(files), CodeFiles(files);
    assert |multiset(m) + multiset(c)| == |multiset(m)| + |multiset(c)|;
    assert |multiset(files)| == |files| && |multiset(m)| == |m| && |multiset(c)| == |c|;
  }

  function FileTypeLabel(f: CodeFile): string
  {
    FileTypeName(f.fileType)
  }

  /** `repository.Files.GroupBy(f => f.FileType.ToString()).ToDictionary(g => g.Key, g => g.Count())`. */
  function FileTypeDistribution(files: seq<CodeFile>): Tally<string>
  {
    CountBy(files, FileTypeLabel)
  }

  /** The distribution's counts add up to the number of files, each count that of its type's files. */
  lemma FileTypeDistributionCorrect(files: seq<CodeFile>)
    ensures TallyOf(files, FileTypeLabel, FileTypeDistribution(files))
    ensures SumCounts(FileTypeDistribution(files).keys, FileTypeDistribution(files).counts) == |files|
  {
    CountByCorrect(files, FileTypeLabel);
  }

  /** Standards are extracted from the documentation iff the repository has some and there is Markdown. */
  predicate UsesExistingDocs(repository: Repository)
  {
    repository.hasExistingStandards && MarkdownFiles(repository.files) != []
  }

  // ---------------------------------------------------------------- statistics

  function ViolationPath(v: Violation): string { v.filePath }
  function BugPath(b: Bug): string { b.filePath }
  function RefactoringPath(r: Refactoring): string { r.filePath }
  function LocationPath(l: DuplicationLocation): string { l.filePath }

  /** `xs.Select(path).Distinct().Count()`. */
  function DistinctPaths<T>(xs: seq<T>, path: T -> string): nat
  {
    |DistinctValues(Map(xs, path))|
  }

  /** The different paths of the items. */
  ghost function PathSet<T>(xs: seq<T>, path: T -> string): set<string>
  {
    set i | 0 <= i < |xs| :: path(xs[i])
  }

  /** The number of distinct paths is the size of the set of paths, and at most the number of items. */
  lemma DistinctPathsCount<T>(xs: seq<T>, path: T -> string)
    ensures DistinctPaths(xs, path) == |PathSet(xs, path)|
    ensures DistinctPaths(xs, path) <= |xs|
  {
    var ps := Map(xs, path);
    DistinctValuesCorrect(ps);
    DistinctCount(ps);
    assert (set p | p in ps) == PathSet(xs, path) by {
      forall p | p in ps ensures p in PathSet(xs, path) {
        var i :| 0 <= i < |ps| && ps[i] == p;
      }
    }
  }

  /** `duplications.SelectMany(d => d.Locations.Select(l => l.FilePath))`. */
  function DuplicationPaths(ds: seq<CodeDuplication>): seq<string>
  {
    if ds == [] then [] else DuplicationPaths(ds[..|ds| - 1]) + Map(ds[|ds| - 1].locations, LocationPath)
  }

  /** A path is a duplicated file's exactly when some location of some duplication is in that file. */
  lemma {:induction false} DuplicationPathsIn(ds: seq<CodeDuplication>)
    ensures forall p :: p in DuplicationPaths(ds) <==>
      exists i, j :: 0 <= i < |ds| && 0 <= j < |ds[i].locations| && ds[i].locations[j].filePath == p
  {
    if ds != [] {
      var init := ds[..|ds| - 1];
      DuplicationPathsIn(init);
      var last := Map(ds[|ds| - 1].locations, LocationPath);
      forall p ensures p in DuplicationPaths(ds) <==>
        exists i, j :: 0 <= i < |ds| && 0 <= j < |ds[i].locations| && ds[i].locations[j].filePath == p
      {
        if p in DuplicationPaths(init) {
          var i, j :| 0 <= i < |init| && 0 <= j < |init[i].locations| && init[i].locations[j].filePath == p;
          assert ds[i] == init[i];
        }
        if p in last {
          var j :| 0 <= j < |last| && last[j] == p;
          assert ds[|ds| - 1].locations[j].filePath == p;
        }
        if exists i, j :: 0 <= i < |ds| && 0 <= j < |ds[i].locations| && ds[i].locations[j].filePath == p {
          var i, j :| 0 <= i < |ds| && 0 <= j < |ds[i].locations| && ds[i].locations[j].filePath == p;
          if i < |init| {
            assert init[i] == ds[i];
          } else {
            assert last[j] == p;
          }
        }
      }
    }
  }

  /** `duplications.Sum(d => d.LineCount * (d.Locations.Count - 1))`. */
  function DuplicatedLines(ds: seq<CodeDuplication>): int
  {
    if ds == [] then 0
    else DuplicatedLines(ds[..|ds| - 1]) + ds[|ds| - 1].lineCount * (|ds[|ds| - 1].locations| - 1)
  }

  /** The sum over a concatenation is the sum of the sums. */
  lemma {:induction false} DuplicatedLinesAppend(a: seq<CodeDuplication>, b: seq<CodeDuplication>)
    ensures DuplicatedLines(a + b) == DuplicatedLines(a) + DuplicatedLines(b)
    decreases |b|
  {
    if b == [] {
      assert a + b == a;
    } else {
      var init := b[..|b| - 1];
      DuplicatedLinesAppend(a, init);
      assert (a + b)[..|a + b| - 1] == a + init;
      assert (a + b)[|a + b| - 1] == b[|b| - 1];
    }
  }

  /**
   * No extra copy, no duplicated lines: the sum is 0 when every duplication has exactly one
   * location, and it is never negative when line counts are non-negative and every duplication
   * has at least one location.
   */
  lemma {:induction false} DuplicatedLinesBounds(ds: seq<CodeDuplication>)
    ensures (forall i :: 0 <= i < |ds| ==> |ds[i].locations| == 1) ==> DuplicatedLines(ds) == 0
    ensures (forall i :: 0 <= i < |ds| ==> ds[i].lineCount >= 0 && |ds[i].locations| >= 1) ==> DuplicatedLines(ds) >= 0
  {
    if ds != [] {
      var init := ds[..|ds| - 1];
      DuplicatedLinesBounds(init);
      var d := ds[|ds| - 1];
      assert forall i :: 0 <= i < |init| ==> init[i] == ds[i];
      if d.lineCount >= 0 && |d.locations| >= 1 {
        MulMono(0, |d.locations| - 1, d.lineCount);
        assert d.lineCount * (|d.locations| - 1) == (|d.locations| - 1) * d.lineCount;
      }
    }
  }

  function ViolationSeverityLabel(v: Violation): string { SeverityName(v.severity) }
  function BugSeverityLabel(b: Bug): string { SeverityName(b.severity) }
  function RefactoringPriorityLabel(r: Refactoring): string { SeverityName(r.priority) }
  function DuplicationImpactLabel(d: CodeDuplication): string { SeverityName(d.impact) }

  // ---------------------------------------------------------------- texts

  /**
   * `FormatExecutionTime` over whole seconds: the seconds below a minute, minutes and seconds
   * below an hour, otherwise hours and minutes, where the hours are `TimeSpan.Hours`, the hour
   * component below 24.
   */
  function FormatExecutionTime(seconds: nat): string
  {
    if seconds < 60 then NatToString(seconds) + "s"
    else if seconds < 3600 then NatToString((seconds / 60) % 60) + "m " + NatToString(seconds % 60) + "s"
    else NatToString((seconds / 3600) % 24) + "h " + NatToString((seconds / 60) % 60) + "m"
  }

  /**
   * The branches switch at 60 s and at 60 min: the text names minutes from a minute on, hours
   * from an hour on, and ends in seconds exactly below an hour.
   */
  lemma FormatExecutionTimeUnits(seconds: nat)
    ensures 'm' in FormatExecutionTime(seconds) <==> seconds >= 60
    ensures 'h' in FormatExecutionTime(seconds) <==> seconds >= 3600
    ensures var r := FormatExecutionTime(seconds); r[|r| - 1] == (if seconds < 3600 then 's' else 'm')
  {
    var r := FormatExecutionTime(seconds);
    if seconds < 60 {
      var n := NatToString(seconds);
      assert r == n + "s" + "" + "";
      LettersOf(n, "s", "", "");
    } else if seconds < 3600 {
      var n, k := NatToString((seconds / 60) % 60), NatToString(seconds % 60);
      assert r == n + "m " + k + "s";
      LettersOf(n, "m ", k, "s");
    } else {
      var n, k := NatToString((seconds / 3600) % 24), NatToString((seconds / 60) % 60);
      assert r == n + "h " + k + "m";
      LettersOf(n, "h ", k, "m");
    }
  }

  /** In two digit runs joined by the texts `u` and `e`, the non-digits are those of `u` and `e`. */
  lemma LettersOf(n: string, u: string, k: string, e: string)
    requires forall i :: 0 <= i < |n| ==> IsDigit(n[i])
    requires forall i :: 0 <= i < |k| ==> IsDigit(k[i])
    ensures forall c :: !IsDigit(c) ==> (c in n + u + k + e <==> c in u || c in e)
  {
    forall c | !IsDigit(c) ensures c in n + u + k + e <==> c in u || c in e {
      assert n + u + k + e == n + (u + (k + e));
      assert c in n + (u + (k + e)) <==> c in n || c in u || c in k || c in e;
    }
  }

  /** The minutes-and-seconds text `m`m `s`s never reads like a seconds-only text. */
  lemma UnitsDiffer(x: nat, y: nat)
    requires x < 60 && 60 <= y < 3600
    ensures FormatExecutionTime(x) != FormatExecutionTime(y)
  {
    var t, t' := FormatExecutionTime(x), FormatExecutionTime(y);
    var u := "m " + (NatToString(y % 60) + "s");
    assert t == NatToString(x) + "s";
    assert t' == NatToString((y / 60) % 60) + u;
    if t == t' {
      DigitRun(NatToString(x), NatToString((y / 60) % 60), "s", u);
    }
  }

  /** Below an hour no two durations share a text: the text determines the whole seconds. */
  lemma FormatExecutionTimeInjective(a: nat, b: nat)
    requires a < 3600 && b < 3600
    requires FormatExecutionTime(a) == FormatExecutionTime(b)
    ensures a == b
  {
    if a < 60 && b < 60 {
      DigitRun(NatToString(a), NatToString(b), "s", "s");
      NatToStringInjective(a, b);
    } else if a < 60 {
      UnitsDiffer(a, b);
    } else if b < 60 {
      UnitsDiffer(b, a);
    } else {
      MinutesInjective(a, b);
    }
  }

  lemma MinutesText(a: nat)
    requires 60 <= a < 3600
    ensures FormatExecutionTime(a) == NatToString((a / 60) % 60) + ("m " + (NatToString(a % 60) + "s"))
  {
  }

  lemma MinutesInjective(a: nat, b: nat)
    requires 60 <= a < 3600 && 60 <= b < 3600
    requires FormatExecutionTime(a) == FormatExecutionTime(b)
    ensures a == b
  {
    var ma, mb, sa, sb := (a / 60) % 60, (b / 60) % 60, a % 60, b % 60;
    var u, v := NatToString(sa) + "s", NatToString(sb) + "s";
    MinutesText(a);
    MinutesText(b);
    PeelNumber(ma, mb, "m ", u, v);
    DigitRun(NatToString(sa), NatToString(sb), "s", "s");
    NatToStringInjective(sa, sb);
    MinutesAndSeconds(a);
    MinutesAndSeconds(b);
  }

  /** Below an hour the minute and second components make up the whole duration. */
  lemma MinutesAndSeconds(a: nat)
    requires a < 3600
    ensures a == ((a / 60) % 60) * 60 + a % 60
  {
    DivBelow(a, 60, 60);
  }

  /** From an hour on only the hour component is shown: a whole day more prints the same. */
  lemma FormatExecutionTimeDropsDays(seconds: nat)
    requires seconds >= 3600
    ensures FormatExecutionTime(seconds + 86400) == FormatExecutionTime(seconds)
  {
    var h, m := seconds / 3600, seconds / 60;
    DivShift(seconds, 3600, 24);
    DivShift(h, 24, 1);
    DivShift(seconds, 60, 1440);
    DivShift(m, 60, 24);
    assert ((seconds + 86400) / 3600) % 24 == h % 24;
    assert ((seconds + 86400) / 60) % 60 == m % 60;
  }

  /** A number followed by a separator that starts with a non-digit can be read back. */
  lemma PeelNumber(n: nat, n': nat, sep: string, x: string, x': string)
    requires sep != [] && !IsDigit(sep[0])
    requires NatToString(n) + (sep + x) == NatToString(n') + (sep + x')
    ensures n == n' && x == x'
  {
    DigitRun(NatToString(n), NatToString(n'), sep + x, sep + x');
    NatToStringInjective(n, n');
    AfterPrefix(sep, x, x');
  }

  function StandardsSource(hasExistingStandards: bool): string
  {
    if hasExistingStandards then "existing documentation" else "AI-generated from codebase analysis"
  }

  // The fixed parts of the summary, between the numbers it reports.
  const SummaryOpening: string := "Analysis completed successfully. \nFound "
  const AfterStandardsCount: string := " coding standards from "
  const AfterSource: string := ".\nDetected "
  const AfterViolations: string := " coding standard violations.\nIdentified "
  const AfterBugs: string := " potential bugs and issues.\nDiscovered "
  const AfterRefactorings: string := " refactoring opportunities.\nFound "
  const SummaryClosing: string :=
    " " + "code duplication instances.\nReview the detailed findings below for specific file locations, severity levels, and recommended fixes."

  /** `GenerateSummary`: the closing text of the report, its lines separated by a line feed. */
  function GenerateSummary(violationsCount: nat, bugsCount: nat, refactoringsCount: nat, duplicationsCount: nat,
                           standardsCount: nat, hasExistingStandards: bool): string
  {
    SummaryOpening + (NatToString(standardsCount) + (AfterStandardsCount
    + (StandardsSource(hasExistingStandards) + (AfterSource + (NatToString(violationsCount)
    + (AfterViolations + (NatToString(bugsCount) + (AfterBugs + (NatToString(refactoringsCount)
    + (AfterRefactorings + (NatToString(duplicationsCount) + SummaryClosing)))))))))))
  }

  /** Every fixed part that follows a number starts with a non-digit. */
  lemma SummarySeparators()
    ensures AfterStandardsCount != [] && !IsDigit(AfterStandardsCount[0])
    ensures AfterViolations != [] && !IsDigit(AfterViolations[0])
    ensures AfterBugs != [] && !IsDigit(AfterBugs[0])
    ensures AfterRefactorings != [] && !IsDigit(AfterRefactorings[0])
    ensures SummaryClosing != [] && !IsDigit(SummaryClosing[0])
  {
    assert AfterStandardsCount[0] == AfterViolations[0] == AfterBugs[0] == AfterRefactorings[0] == ' ';
    assert SummaryClosing[0] == ' ';
  }

  /** The source phrase tells the two origins apart, whatever follows it. */
  lemma SourcePhraseDecides(h: bool, k: bool, x: string, y: string)
    requires StandardsSource(h) + x == StandardsSource(k) + y
    ensures h == k && x == y
  {
    assert StandardsSource(h)[0] == (if h then 'e' else 'A');
    assert StandardsSource(k)[0] == (if k then 'e' else 'A');
    assert (StandardsSource(h) + x)[0] == StandardsSource(h)[0];
    assert (StandardsSource(k) + y)[0] == StandardsSource(k)[0];
    AfterPrefix(StandardsSource(h), x, y);
  }

  /** The summary determines every count it reports and the origin of the standards. */
  lemma GenerateSummaryInjective(v: nat, b: nat, r: nat, d: nat, s: nat, h: bool,
                                 v': nat, b': nat, r': nat, d': nat, s': nat, h': bool)
    requires GenerateSummary(v, b, r, d, s, h) == GenerateSummary(v', b', r', d', s', h')
    ensures v == v' && b == b' && r == r' && d == d' && s == s' && h == h'
  {
    SummarySeparators();
    var t5, t5' := NatToString(d) + SummaryClosing, NatToString(d') + SummaryClosing;
    var t4, t4' := NatToString(r) + (AfterRefactorings + t5), NatToString(r') + (AfterRefactorings + t5');
    var t3, t3' := NatToString(b) + (AfterBugs + t4), NatToString(b') + (AfterBugs + t4');
    var t2, t2' := NatToString(v) + (AfterViolations + t3), NatToString(v') + (AfterViolations + t3');
    var t1, t1' := StandardsSource(h) + (AfterSource + t2), StandardsSource(h') + (AfterSource + t2');
    var t0, t0' := NatToString(s) + (AfterStandardsCount + t1), NatToString(s') + (AfterStandardsCount + t1');
    AfterPrefix(SummaryOpening, t0, t0');
    PeelNumber(s, s', AfterStandardsCount, t1, t1');
    SourcePhraseDecides(h, h', AfterSource + t2, AfterSource + t2');
    AfterPrefix(AfterSource, t2, t2');
    PeelNumber(v, v', AfterViolations, t3, t3');
    PeelNumber(b, b', AfterBugs, t4, t4');
    PeelNumber(r, r', AfterRefactorings, t5, t5');
    assert SummaryClosing + "" == SummaryClosing;
    assert NatToString(d) + (SummaryClosing + "") == NatToString(d') + (SummaryClosing + "");
    PeelNumber(d, d', SummaryClosing, "", "");
  }

  // ---------------------------------------------------------------- the report

  /**
   * The report `GenerateReportAsync` builds from the stage results; `reportId` and `now` stand
   * for the new GUID and `DateTime.UtcNow`, `elapsedSeconds` for the stopwatch reading.
   */
  function MakeReport(repository: Repository, standards: seq<Standard>, violations: seq<Violation>, bugs: seq<Bug>,
                      refactorings: seq<Refactoring>, duplications: seq<CodeDuplication>, summary: ProjectSummary,
                      reportId: string, now: int, elapsedSeconds: nat): AnalysisReport
  {
    AnalysisReport(
      id := reportId,
      repositoryId := repository.id,
      repositoryName := repository.name,
      generatedAt := now,
      totalFiles := |repository.files|,
      filesWithViolations := DistinctPaths(violations, ViolationPath),
      filesWithBugs := DistinctPaths(bugs, BugPath),
      filesNeedingRefactoring := DistinctPaths(refactorings, RefactoringPath),
      filesWithDuplications := |DistinctValues(DuplicationPaths(duplications))|,
      totalViolations := |violations|,
      totalBugs := |bugs|,
      totalRefactorings := |refactorings|,
      totalDuplications := |duplications|,
      totalDuplicatedLines := DuplicatedLines(duplications),
      executionTime := FormatExecutionTime(elapsedSeconds),
      violationsBySeverity := CountBy(violations, ViolationSeverityLabel),
      bugsBySeverity := CountBy(bugs, BugSeverityLabel),
      refactoringsByPriority := CountBy(refactorings, RefactoringPriorityLabel),
      duplicationsByImpact := CountBy(duplications, DuplicationImpactLabel),
      violations := violations,
      bugs := bugs,
      refactorings := refactorings,
      duplications := duplications,
      standards := standards,
      summary := GenerateSummary(|violations|, |bugs|, |refactorings|, |duplications|, |standards|,
                                 repository.hasExistingStandards),
      projectSummary := Some(summary))
  }

  /** The set of files some duplication has a location in. */
  ghost function DuplicatedFiles(ds: seq<CodeDuplication>): set<string>
  {
    set i, j | 0 <= i < |ds| && 0 <= j < |ds[i].locations| :: ds[i].locations[j].filePath
  }

  /**
   * The file counts of a report are the numbers of different paths among the findings, never
   * more than the findings, and the totals are the list lengths.
   */
  lemma ReportFileCounts(repository: Repository, standards: seq<Standard>, violations: seq<Violation>, bugs: seq<Bug>,
                         refactorings: seq<Refactoring>, duplications: seq<CodeDuplication>, summary: ProjectSummary,
                         reportId: string, now: int, elapsedSeconds: nat)
    ensures var r := MakeReport(repository, standards, violations, bugs, refactorings, duplications, summary,
                                reportId, now, elapsedSeconds);
      && r.filesWithViolations == |PathSet(violations, ViolationPath)| <= r.totalViolations == |violations|
      && r.filesWithBugs == |PathSet(bugs, BugPath)| <= r.totalBugs == |bugs|
      && r.filesNeedingRefactoring == |PathSet(refactorings, RefactoringPath)| <= r.totalRefactorings == |refactorings|
      && r.filesWithDuplications == |DuplicatedFiles(duplications)|
      && r.totalDuplications == |duplications| && r.totalFiles == |repository.files|
  {
    DistinctPathsCount(violations, ViolationPath);
    DistinctPathsCount(bugs, BugPath);
    DistinctPathsCount(refactorings, RefactoringPath);
    DuplicatedFilesCount(duplications);
  }

  /**
   * Each histogram of a report counts its findings by label: exactly the labels that occur, in
   * first-appearance order, each with the number of its findings, adding up to the list length.
   */
  lemma ReportHistograms(repository: Repository, standards: seq<Standard>, violations: seq<Violation>, bugs: seq<Bug>,
                         refactorings: seq<Refactoring>, duplications: seq<CodeDuplication>, summary: ProjectSummary,
                         reportId: string, now: int, elapsedSeconds: nat)
    ensures var r := MakeReport(repository, standards, violations, bugs, refactorings, duplications, summary,
                                reportId, now, elapsedSeconds);
      && TallyOf(violations, ViolationSeverityLabel, r.violationsBySeverity)
      && TallyOf(bugs, BugSeverityLabel, r.bugsBySeverity)
      && TallyOf(refactorings, RefactoringPriorityLabel, r.refactoringsByPriority)
      && TallyOf(duplications, DuplicationImpactLabel, r.duplicationsByImpact)
  {
    CountByCorrect(violations, ViolationSeverityLabel);
    CountByCorrect(bugs, BugSeverityLabel);
    CountByCorrect(refactorings, RefactoringPriorityLabel);
    CountByCorrect(duplications, DuplicationImpactLabel);
  }

  lemma DuplicatedFilesCount(ds: seq<CodeDuplication>)
    ensures |DistinctValues(DuplicationPaths(ds))| == |DuplicatedFiles(ds)|
  {
    DistinctCount(DuplicationPaths(ds));
    DuplicationPathsIn(ds);
    assert (set p | p in DuplicationPaths(ds)) == DuplicatedFiles(ds);
  }

  // ---------------------------------------------------------------- the stages

  /**
   * The collaborators of `GenerateReportAsync`: the provider setting, the model, the JSON
   * decoders, the seeded generator of the demo mode, the refactoring and duplication detectors
   * (whose heuristics are not part of this model) and `Environment.CurrentDirectory`.
   */
  datatype Services = Services(
    provider: Option<string>,
    complete: Prompt -> Option<string>,
    decodeViolations: string -> Decoded<ViolationDto>,
    decodeBugs: string -> Decoded<BugDto>,
    decodeStandards: string -> Decoded<StandardDto>,
    random: (nat, int) -> int,
    refactor: seq<CodeFile> -> seq<Refactoring>,
    duplicate: seq<CodeFile> -> seq<CodeDuplication>,
    currentDirectory: string)

  /** The values a sequence of `SendProgress` calls reports: all of them, or none without a hub. */
  function Sent(sink: bool, ps: seq<int>): seq<int>
  {
    if sink then ps else []
  }

  /**
   * The standards stage: extraction from the Markdown files when the repository has
   * documentation, generation from a sample of the code files otherwise.
   */
  function StandardsRun(repository: Repository, s: Services, sink: bool): Run<Standard>
  {
    if UsesExistingDocs(repository) then
      var markdown := MarkdownFiles(repository.files);
      if IsDemo(s.provider) then Run(Ok(DemoStandards), DemoEvents(26, 12, sink, |markdown|))
      else Then([], Emit([], sink, 26), MarkdownFrom(markdown, 0, sink, s.complete, s.decodeStandards))
    else
      var reply := s.complete(CodebaseRequest(CodeSample(CodeFiles(repository.files))));
      if IsDemo(s.provider) then Run(Ok(DemoStandards), Sent(sink, [26, 30, 35]))
      else if reply.None? then Run(Err(ModelCallFailed), Sent(sink, [26, 30, 35]))
      else Run(Ok(ParseStandards(reply.value, s.decodeStandards, "AI-Generated", false)), Sent(sink, [26, 30, 35, 40]))
  }

  /** The violation stage over the code files. */
  function ViolationRun(code: seq<CodeFile>, standards: seq<Standard>, s: Services, sink: bool): Run<Violation>
    requires ValidRandom(s.random)
  {
    if IsDemo(s.provider) then Run(Ok(MockViolations(code, standards, s.random)), DemoEvents(42, 25, sink, |code|))
    else BatchRun(Sizes(Chunk(code, BatchSize)), ViolationAnswers(code, standards, s.complete, s.decodeViolations),
                  1, |Chunk(code, BatchSize)|, 42, 25, sink)
  }

  /** The bug stage over the code files. */
  function BugRun(code: seq<CodeFile>, s: Services, sink: bool): Run<Bug>
    requires ValidRandom(s.random)
  {
    if IsDemo(s.provider) then Run(Ok(MockBugs(code, s.random)), DemoEvents(72, 15, sink, |code|))
    else BatchRun(Sizes(Chunk(code, BatchSize)), BugAnswers(code, s.complete, s.decodeBugs),
                  1, |Chunk(code, BatchSize)|, 72, 15, sink)
  }

  /** The standards stage reports non-decreasing values in [26, 40]. */
  lemma StandardsProgress(repository: Repository, s: Services, sink: bool)
    ensures NonDecreasing(StandardsRun(repository, s, sink).events)
    ensures Within(StandardsRun(repository, s, sink).events, 26, 40)
  {
    var run := StandardsRun(repository, s, sink);
    if UsesExistingDocs(repository) {
      var markdown := MarkdownFiles(repository.files);
      MarkdownProgress(markdown, s.provider, sink, s.complete, s.decodeStandards);
      assert run.events == if IsDemo(s.provider) then DemoEvents(26, 12, sink, |markdown|)
        else Then([], Emit([], sink, 26), MarkdownFrom(markdown, 0, sink, s.complete, s.decodeStandards)).events;
    } else {
      CodebaseProgress(sink);
      assert run.events == Sent(sink, [26, 30, 35]) || run.events == Sent(sink, [26, 30, 35, 40]);
    }
  }

  lemma CodebaseProgress(sink: bool)
    ensures NonDecreasing(Sent(sink, [26, 30, 35])) && Within(Sent(sink, [26, 30, 35]), 26, 40)
    ensures NonDecreasing(Sent(sink, [26, 30, 35, 40])) && Within(Sent(sink, [26, 30, 35, 40]), 26, 40)
  {
  }

  /** The violation stage reports non-decreasing values in [42, 67]. */
  lemma ViolationStageProgress(code: seq<CodeFile>, standards: seq<Standard>, s: Services, sink: bool)
    requires ValidRandom(s.random)
    ensures NonDecreasing(ViolationRun(code, standards, s, sink).events)
    ensures Within(ViolationRun(code, standards, s, sink).events, 42, 67)
  {
    DemoEventsShape(42, 25, sink, |code|);
    ViolationProgress(code, standards, s.complete, s.decodeViolations, sink);
  }

  /** The bug stage reports non-decreasing values in [72, 87]. */
  lemma BugStageProgress(code: seq<CodeFile>, s: Services, sink: bool)
    requires ValidRandom(s.random)
    ensures NonDecreasing(BugRun(code, s, sink).events)
    ensures Within(BugRun(code, s, sink).events, 72, 87)
  {
    DemoEventsShape(72, 15, sink, |code|);
    BugProgress(code, s.complete, s.decodeBugs, sink);
  }

  /** What `GenerateReportAsync` returns and the progress it reports. */
  datatype Outcome = Outcome(result: Result<AnalysisReport>, events: seq<int>)

  /** The values sent before the standards stage, with the 7 of the project-summary stage. */
  function Opening(sink: bool): seq<int>
  {
    Sent(sink, [5, 10, 12, 15, 18, 20]) + Sent(sink, [7]) + Sent(sink, [22, 25])
  }

  /**
   * The values sent from the violation stage on: 42, the violations' values, 70 and 72, the
   * bugs' values, then 90 to 97 around the opaque detectors, and 96 and 100 around the final
   * report. A stage that fails ends the run.
   */
  function FindingsEvents(sink: bool, violationEvents: seq<int>, violationsOk: bool,
                          bugEvents: seq<int>, bugsOk: bool): seq<int>
  {
    var e2 := Sent(sink, [42]) + violationEvents;
    if !violationsOk then e2
    else
      var e3 := e2 + Sent(sink, [70, 72]) + bugEvents;
      if !bugsOk then e3 else e3 + Sent(sink, [90, 91, 94, 95, 97]) + Sent(sink, [96, 100])
  }

  /** The run from the violation stage on; the first stage that fails decides the error. */
  function FindingsOutcome(repository: Repository, standards: seq<Standard>, s: Services, sink: bool,
                           summary: ProjectSummary, reportId: string, now: int, elapsedSeconds: nat): Outcome
    requires ValidRandom(s.random)
  {
    var code := CodeFiles(repository.files);
    var vr := ViolationRun(code, standards, s, sink);
    var br := BugRun(code, s, sink);
    var events := FindingsEvents(sink, vr.events, vr.result.Ok?, br.events, br.result.Ok?);
    if vr.result.Err? then Outcome(Err(vr.result.error), events)
    else if br.result.Err? then Outcome(Err(br.result.error), events)
    else
      Outcome(Ok(MakeReport(repository, standards, vr.result.value, br.result.value,
                            s.refactor(code), s.duplicate(code), summary, reportId, now, elapsedSeconds)),
              events)
  }

  /**
   * `GenerateReportAsync` once the repository is loaded; `summary` is what the project-summary
   * stage returned. Detectors see only the code files.
   */
  function ReportOutcome(repository: Repository, s: Services, sink: bool, summary: ProjectSummary,
                         reportId: string, now: int, elapsedSeconds: nat): Outcome
    requires ValidRandom(s.random)
  {
    var st := StandardsRun(repository, s, sink);
    if st.result.Err? then Outcome(Err(st.result.error), Opening(sink) + st.events)
    else
      var f := FindingsOutcome(repository, st.result.value, s, sink, summary, reportId, now, elapsedSeconds);
      Outcome(f.result, Opening(sink) + st.events + f.events)
  }

  lemma EndsWithAppend(a: seq<int>, b: seq<int>, tail: seq<int>)
    requires EndsWith(b, tail)
    ensures EndsWith(a + b, tail)
  {
    assert (a + b)[|a + b| - |tail|..] == b[|b| - |tail|..];
  }

  /** Consecutive values rise or stay, except at the two places where the service steps back. */
  predicate StepUp(a: int, b: int)
  {
    a <= b || (a == 20 && b == 7) || (a == 97 && b == 96)
  }

  predicate RisesExceptDrops(s: seq<int>)
  {
    forall k :: 0 <= k < |s| - 1 ==> StepUp(s[k], s[k + 1])
  }

  lemma RisesConcat(a: seq<int>, b: seq<int>)
    requires RisesExceptDrops(a) && RisesExceptDrops(b)
    requires a != [] && b != [] ==> StepUp(a[|a| - 1], b[0])
    ensures RisesExceptDrops(a + b)
  {
    forall k | 0 <= k < |a + b| - 1 ensures StepUp((a + b)[k], (a + b)[k + 1]) {
      if k < |a| - 1 {
        assert (a + b)[k] == a[k] && (a + b)[k + 1] == a[k + 1];
      } else if k == |a| - 1 {
        assert (a + b)[k] == a[k] && (a + b)[k + 1] == b[0];
      } else {
        assert (a + b)[k] == b[k - |a|] && (a + b)[k + 1] == b[k - |a| + 1];
      }
    }
  }

  lemma NonDecreasingRises(s: seq<int>)
    requires NonDecreasing(s)
    ensures RisesExceptDrops(s)
  {
  }

  /**
   * From the violation stage on the values lie in [42, 100] and rise except where 97 is followed
   * by 96; a completed run with a hub ends with 97, 96, 100.
   */
  lemma FindingsEventsShape(sink: bool, violationEvents: seq<int>, violationsOk: bool,
                            bugEvents: seq<int>, bugsOk: bool)
    requires NonDecreasing(violationEvents) && Within(violationEvents, 42, 67)
    requires NonDecreasing(bugEvents) && Within(bugEvents, 72, 87)
    ensures var e := FindingsEvents(sink, violationEvents, violationsOk, bugEvents, bugsOk);
      RisesExceptDrops(e) && Within(e, 42, 100)
      && (sink && violationsOk && bugsOk ==> EndsWith(e, [97, 96, 100]))
  {
    var e2 := Sent(sink, [42]) + violationEvents;
    JoinEvents(Sent(sink, [42]), violationEvents, 42, 42, 67);
    if violationsOk {
      var e3 := e2 + Sent(sink, [70, 72]) + bugEvents;
      JoinEvents(e2, Sent(sink, [70, 72]), 42, 67, 72);
      JoinEvents(e2 + Sent(sink, [70, 72]), bugEvents, 42, 72, 87);
      if bugsOk {
        var m := e3 + Sent(sink, [90, 91, 94, 95, 97]);
        JoinEvents(e3, Sent(sink, [90, 91, 94, 95, 97]), 42, 87, 97);
        NonDecreasingRises(m);
        if sink {
          assert m[|m| - 1] == 97;
        }
        ClosingRises(m, sink);
      } else {
        NonDecreasingRises(e3);
        WithinUp(e3, 42, 87, 100);
      }
    } else {
      NonDecreasingRises(e2);
      WithinUp(e2, 42, 67, 100);
    }
  }

  lemma FindingsShape(repository: Repository, standards: seq<Standard>, s: Services, sink: bool,
                      summary: ProjectSummary, reportId: string, now: int, elapsedSeconds: nat)
    requires ValidRandom(s.random)
    ensures var f := FindingsOutcome(repository, standards, s, sink, summary, reportId, now, elapsedSeconds);
      RisesExceptDrops(f.events) && Within(f.events, 42, 100)
      && (sink && f.result.Ok? ==> EndsWith(f.events, [97, 96, 100]))
  {
    var code := CodeFiles(repository.files);
    var vr := ViolationRun(code, standards, s, sink);
    var br := BugRun(code, s, sink);
    ViolationStageProgress(code, standards, s, sink);
    BugStageProgress(code, s, sink);
    FindingsEventsShape(sink, vr.events, vr.result.Ok?, br.events, br.result.Ok?);
    FindingsParts(repository, standards, s, sink, summary, reportId, now, elapsedSeconds);
  }

  /** The run from the violation stage on succeeds exactly when both detector stages do. */
  lemma FindingsParts(repository: Repository, standards: seq<Standard>, s: Services, sink: bool,
                      summary: ProjectSummary, reportId: string, now: int, elapsedSeconds: nat)
    requires ValidRandom(s.random)
    ensures var f := FindingsOutcome(repository, standards, s, sink, summary, reportId, now, elapsedSeconds);
      var code := CodeFiles(repository.files);
      var vr := ViolationRun(code, standards, s, sink);
      var br := BugRun(code, s, sink);
      && f.events == FindingsEvents(sink, vr.events, vr.result.Ok?, br.events, br.result.Ok?)
      && (f.result.Ok? <==> vr.result.Ok? && br.result.Ok?)
  {
  }

  /** Appending the closing 96, 100 after a run that ends in 97. */
  lemma ClosingRises(m: seq<int>, sink: bool)
    requires RisesExceptDrops(m) && Within(m, 42, 97)
    requires sink ==> m != [] && m[|m| - 1] == 97
    ensures RisesExceptDrops(m + Sent(sink, [96, 100])) && Within(m + Sent(sink, [96, 100]), 42, 100)
    ensures sink ==> EndsWith(m + Sent(sink, [96, 100]), [97, 96, 100])
  {
    RisesConcat(m, Sent(sink, [96, 100]));
    var e := m + Sent(sink, [96, 100]);
    if sink {
      assert e[|e| - 3] == m[|m| - 1];
    } else {
      assert e == m;
    }
  }

  /** Before the violation stage the values lie in [5, 40], rising except where 20 is followed by 7. */
  lemma OpeningShape(sink: bool, standardsEvents: seq<int>)
    requires NonDecreasing(standardsEvents) && Within(standardsEvents, 26, 40)
    ensures var e := Opening(sink) + standardsEvents;
      RisesExceptDrops(e) && Within(e, 5, 40)
      && (sink ==> |e| >= 7 && e[..7] == [5, 10, 12, 15, 18, 20, 7])
  {
    NonDecreasingRises(standardsEvents);
    var o := Opening(sink);
    assert o == if sink then [5, 10, 12, 15, 18, 20, 7, 22, 25] else [];
    assert RisesExceptDrops(o) && Within(o, 5, 25);
    RisesConcat(Opening(sink), standardsEvents);
    var e := Opening(sink) + standardsEvents;
    WithinUp(Opening(sink), 5, 25, 40);
    WithinWeaken(standardsEvents, 5, 26, 40);
    WithinJoin(Opening(sink), standardsEvents, 5, 40);
    if sink {
      assert e[..7] == Opening(sink)[..7];
    }
  }

  /** The opening and standards values followed by the rest of the run. */
  lemma JoinShape(head: seq<int>, rest: seq<int>, sink: bool)
    requires RisesExceptDrops(head) && Within(head, 5, 40) && (sink ==> |head| >= 7 && head[..7] == [5, 10, 12, 15, 18, 20, 7])
    requires RisesExceptDrops(rest) && Within(rest, 42, 100)
    ensures var e := head + rest; RisesExceptDrops(e) && Within(e, 0, 100)
    ensures sink ==> var e := head + rest; |e| >= 7 && e[..7] == [5, 10, 12, 15, 18, 20, 7] && !NonDecreasing(e)
    ensures |rest| >= 3 ==> var e := head + rest; e[|e| - 3..] == rest[|rest| - 3..]
  {
    RisesConcat(head, rest);
    WithinWeaken(head, 0, 5, 40);
    WithinUp(head, 0, 40, 100);
    WithinWeaken(rest, 0, 42, 100);
    WithinJoin(head, rest, 0, 100);
    var e := head + rest;
    if sink {
      assert e[..7] == head[..7];
      assert e[5] == 20 && e[6] == 7;
    }
    if |rest| >= 3 {
      assert e[|e| - 3..] == rest[|rest| - 3..];
    }
  }

  /**
   * The progress of a report run: every value lies in [0, 100], and the values rise except at
   * two places, where the 20 before the project summary is followed by that stage's 7 and the
   * 97 after duplication detection by the 96 of the final report.
   */
  lemma ReportProgress(repository: Repository, s: Services, sink: bool, summary: ProjectSummary,
                       reportId: string, now: int, elapsedSeconds: nat)
    requires ValidRandom(s.random)
    ensures var o := ReportOutcome(repository, s, sink, summary, reportId, now, elapsedSeconds);
      Within(o.events, 0, 100) && RisesExceptDrops(o.events)
  {
    var st := StandardsRun(repository, s, sink);
    StandardsProgress(repository, s, sink);
    OpeningShape(sink, st.events);
    var head := Opening(sink) + st.events;
    ReportParts(repository, s, sink, summary, reportId, now, elapsedSeconds);
    if st.result.Ok? {
      var f := FindingsOutcome(repository, st.result.value, s, sink, summary, reportId, now, elapsedSeconds);
      FindingsShape(repository, st.result.value, s, sink, summary, reportId, now, elapsedSeconds);
      JoinShape(head, f.events, sink);
    } else {
      JoinShape(head, [], sink);
      assert head + [] == head;
    }
  }

  /**
   * A completed run with a hub starts with 5 to 20 and the summary's 7, so it is not monotone.
   */
  lemma CompletedReportOpening(repository: Repository, s: Services, sink: bool, summary: ProjectSummary,
                               reportId: string, now: int, elapsedSeconds: nat)
    requires ValidRandom(s.random)
    ensures var o := ReportOutcome(repository, s, sink, summary, reportId, now, elapsedSeconds);
      sink && o.result.Ok? ==>
        |o.events| >= 7 && o.events[..7] == [5, 10, 12, 15, 18, 20, 7] && !NonDecreasing(o.events)
  {
    var st := StandardsRun(repository, s, sink);
    ReportParts(repository, s, sink, summary, reportId, now, elapsedSeconds);
    if sink && st.result.Ok? {
      StandardsProgress(repository, s, sink);
      OpeningShape(sink, st.events);
      var f := FindingsOutcome(repository, st.result.value, s, sink, summary, reportId, now, elapsedSeconds);
      FindingsShape(repository, st.result.value, s, sink, summary, reportId, now, elapsedSeconds);
      JoinShape(Opening(sink) + st.events, f.events, sink);
    }
  }

  /** A completed run with a hub ends with 97, 96, 100: the 96 of the final report steps back. */
  lemma CompletedReportClosing(repository: Repository, s: Services, sink: bool, summary: ProjectSummary,
                               reportId: string, now: int, elapsedSeconds: nat)
    requires ValidRandom(s.random)
    ensures var o := ReportOutcome(repository, s, sink, summary, reportId, now, elapsedSeconds);
      sink && o.result.Ok? ==> EndsWith(o.events, [97, 96, 100])
  {
    var st := StandardsRun(repository, s, sink);
    ReportParts(repository, s, sink, summary, reportId, now, elapsedSeconds);
    if sink && st.result.Ok? {
      var f := FindingsOutcome(repository, st.result.value, s, sink, summary, reportId, now, elapsedSeconds);
      FindingsShape(repository, st.result.value, s, sink, summary, reportId, now, elapsedSeconds);
      if f.result.Ok? {
        EndsWithAppend(Opening(sink) + st.events, f.events, [97, 96, 100]);
      }
    }
  }

  /** A report run is the standards stage followed, when it succeeds, by the findings run. */
  lemma ReportParts(repository: Repository, s: Services, sink: bool, summary: ProjectSummary,
                    reportId: string, now: int, elapsedSeconds: nat)
    requires ValidRandom(s.random)
    ensures var o := ReportOutcome(repository, s, sink, summary, reportId, now, elapsedSeconds);
      var st := StandardsRun(repository, s, sink);
      if st.result.Err? then o.result.Err? && o.events == Opening(sink) + st.events
      else
        var f := FindingsOutcome(repository, st.result.value, s, sink, summary, reportId, now, elapsedSeconds);
        o.result == f.result && o.events == Opening(sink) + st.events + f.events
  {
  }

  lemma WithinJoin(a: seq<int>, b: seq<int>, lo: int, hi: int)
    requires Within(a, lo, hi) && Within(b, lo, hi)
    ensures Within(a + b, lo, hi)
  {
    forall k | 0 <= k < |a + b| ensures lo <= (a + b)[k] <= hi {
      if k < |a| { assert (a + b)[k] == a[k]; } else { assert (a + b)[k] == b[k - |a|]; }
    }
  }

  lemma WithinUp(s: seq<int>, lo: int, hi: int, hi2: int)
    requires Within(s, lo, hi) && hi <= hi2
    ensures Within(s, lo, hi2)
  {
  }
  // ---------------------------------------------------------------- the service's methods

  lemma SentJoin(sink: bool, a: seq<int>, b: seq<int>)
    ensures Sent(sink, a) + Sent(sink, b) == Sent(sink, a + b)
  {
  }

  lemma OpeningJoin(sink: bool, standardsEvents: seq<int>)
    ensures Sent(sink, [5]) + (Sent(sink, [10, 12, 15, 18, 20]) + Sent(sink, [7]) + Sent(sink, [22]))
      + (Sent(sink, [25]) + standardsEvents) == Opening(sink) + standardsEvents
  {
    if sink {
      assert Sent(sink, [5]) + (Sent(sink, [10, 12, 15, 18, 20]) + Sent(sink, [7]) + Sent(sink, [22]))
        == [5, 10, 12, 15, 18, 20, 7, 22];
      assert Opening(sink) == [5, 10, 12, 15, 18, 20, 7, 22, 25];
    }
  }

  /** `GetRepositoryByIdAsync`: the cached repository, or the error it throws when there is none. */
  method GetRepositoryById(cache: InMemoryCache, repositoryId: string) returns (r: Result<Repository>)
    ensures repositoryId in cache.repositories ==> r == Ok(cache.repositories[repositoryId])
    ensures repositoryId !in cache.repositories ==> r == Err(NotFound("Repository with ID " + repositoryId + " not found"))
  {
    var found := cache.GetRepository(repositoryId);
    if found.None? {
      return Err(NotFound("Repository with ID " + repositoryId + " not found"));
    }
    r := Ok(found.value);
  }

  /**
   * The project summary of step 2.5 for `repository`: `AnalyzeProjectStructureAsync` on its code
   * files, its folder histogram and its file-type histogram.
   */
  predicate StructureSummary(repository: Repository, s: Services, summary: ProjectSummary)
  {
    SummaryOutcome(summary, CodeFiles(repository.files), FolderCounts(repository.files),
                   FileTypeDistribution(repository.files), s.provider, s.currentDirectory, s.complete)
  }

  /** Steps 1 to 2.5: folder structure, file-type distribution and the project summary. */
  method AnalyzeStructure(repository: Repository, s: Services, sink: bool)
    returns (summary: ProjectSummary, events: seq<int>)
    ensures events == Sent(sink, [10, 12, 15, 18, 20]) + Sent(sink, [7]) + Sent(sink, [22])
    ensures summary.folderStructure == FolderCounts(repository.files)
    ensures summary.fileTypeDistribution == FileTypeDistribution(repository.files)
    ensures StructureSummary(repository, s, summary)
  {
    var folderStructure := AnalyzeFolderStructure(repository.files);
    var codeFiles := CodeFiles(repository.files);
    var fileTypeDistribution := FileTypeDistribution(repository.files);
    var ev;
    summary, ev := AnalyzeProjectStructure(codeFiles, folderStructure, fileTypeDistribution, s.provider, sink,
                                           s.currentDirectory, s.complete);
    events := Sent(sink, [10, 12, 15, 18, 20]) + ev + Sent(sink, [22]);
  }

  /** Step 3: 25, then extraction from the documentation or generation from the code. */
  method ChooseStandards(repository: Repository, s: Services, sink: bool)
    returns (standards: Result<seq<Standard>>, events: seq<int>)
    ensures standards == StandardsRun(repository, s, sink).result
    ensures events == Sent(sink, [25]) + StandardsRun(repository, s, sink).events
  {
    var markdownFiles := MarkdownFiles(repository.files);
    var ev;
    if repository.hasExistingStandards && |markdownFiles| > 0 {
      standards, ev := ExtractStandardsFromMarkdown(markdownFiles, s.provider, sink, s.complete, s.decodeStandards);
    } else {
      standards, ev := GenerateStandardsFromCodebase(CodeFiles(repository.files), s.provider, sink,
                                                     s.complete, s.decodeStandards);
    }
    events := Sent(sink, [25]) + ev;
  }

  /** Step 4 as `ViolationRun` describes it. */
  method RunViolations(code: seq<CodeFile>, standards: seq<Standard>, s: Services, sink: bool)
    returns (violations: Result<seq<Violation>>, events: seq<int>)
    requires ValidRandom(s.random)
    ensures Run(violations, events) == ViolationRun(code, standards, s, sink)
  {
    violations, events := AnalyzeCodeViolations(code, standards, s.provider, sink, s.complete, s.decodeViolations, s.random);
  }

  /** Step 5 as `BugRun` describes it. */
  method RunBugs(code: seq<CodeFile>, s: Services, sink: bool)
    returns (bugs: Result<seq<Bug>>, events: seq<int>)
    requires ValidRandom(s.random)
    ensures Run(bugs, events) == BugRun(code, s, sink)
  {
    bugs, events := DetectBugs(code, s.provider, sink, s.complete, s.decodeBugs, s.random);
  }

  /**
   * Steps 4 to 6: the run from 42 on. A completed report is stored in the cache after the
   * values in `stored`, which end with the 96, and before the final 100.
   */
  method AnalyzeFindings(repository: Repository, standards: seq<Standard>, s: Services, sink: bool,
                         summary: ProjectSummary, reportId: string, now: int, elapsedSeconds: nat)
    returns (result: Result<AnalysisReport>, events: seq<int>, ghost stored: seq<int>)
    requires ValidRandom(s.random)
    ensures Outcome(result, events) == FindingsOutcome(repository, standards, s, sink, summary, reportId, now, elapsedSeconds)
    ensures result.Ok? ==> result.value.id == reportId
    ensures result.Ok? ==> events == stored + Sent(sink, [100])
  {
    var code := CodeFiles(repository.files);
    var violations, ve := RunViolations(code, standards, s, sink);
    events := Sent(sink, [42]) + ve;
    if violations.Err? {
      FindingsOutcomeFrom(repository, standards, s, sink, summary, reportId, now, elapsedSeconds, violations, ve, Ok([]), []);
      return Err(violations.error), events, [];
    }
    var bugs, be := RunBugs(code, s, sink);
    FindingsOutcomeFrom(repository, standards, s, sink, summary, reportId, now, elapsedSeconds, violations, ve, bugs, be);
    events := events + Sent(sink, [70, 72]) + be;
    if bugs.Err? {
      return Err(bugs.error), events, [];
    }
    var refactorings := s.refactor(code);
    var duplications := s.duplicate(code);
    var report := MakeReport(repository, standards, violations.value, bugs.value, refactorings, duplications,
                             summary, reportId, now, elapsedSeconds);
    events := events + Sent(sink, [90, 91, 94, 95, 97]);
    stored := events + Sent(sink, [96]);
    ClosingSplit(events, sink);
    events := events + Sent(sink, [96, 100]);
    result := Ok(report);
  }

  /** The run from the violation stage on, put together from the two detector stages. */
  lemma FindingsOutcomeFrom(repository: Repository, standards: seq<Standard>, s: Services, sink: bool,
                            summary: ProjectSummary, reportId: string, now: int, elapsedSeconds: nat,
                            violations: Result<seq<Violation>>, ve: seq<int>, bugs: Result<seq<Bug>>, be: seq<int>)
    requires ValidRandom(s.random)
    requires Run(violations, ve) == ViolationRun(CodeFiles(repository.files), standards, s, sink)
    requires violations.Ok? ==> Run(bugs, be) == BugRun(CodeFiles(repository.files), s, sink)
    ensures var f := FindingsOutcome(repository, standards, s, sink, summary, reportId, now, elapsedSeconds);
      var e2 := Sent(sink, [42]) + ve;
      var e3 := e2 + Sent(sink, [70, 72]) + be;
      && (violations.Err? ==> f == Outcome(Err(violations.error), e2))
      && (violations.Ok? && bugs.Err? ==> f == Outcome(Err(bugs.error), e3))
      && (violations.Ok? && bugs.Ok? ==>
            f == Outcome(Ok(MakeReport(repository, standards, violations.value, bugs.value,
                                       s.refactor(CodeFiles(repository.files)), s.duplicate(CodeFiles(repository.files)),
                                       summary, reportId, now, elapsedSeconds)),
                         e3 + Sent(sink, [90, 91, 94, 95, 97]) + Sent(sink, [96, 100])))
  {
    SentJoin(sink, [96], [100]);
  }

  /** The run put together from the opening stages and, when the standards stage succeeded, the findings. */
  lemma ReportOutcomeFrom(repository: Repository, s: Services, sink: bool, summary: ProjectSummary,
                          reportId: string, now: int, elapsedSeconds: nat,
                          opening: seq<int>, standards: Result<seq<Standard>>, f: Outcome)
    requires ValidRandom(s.random)
    requires standards == StandardsRun(repository, s, sink).result
    requires opening == Opening(sink) + StandardsRun(repository, s, sink).events
    requires standards.Ok? ==> f == FindingsOutcome(repository, standards.value, s, sink, summary, reportId, now, elapsedSeconds)
    ensures ReportOutcome(repository, s, sink, summary, reportId, now, elapsedSeconds)
      == if standards.Err? then Outcome(Err(standards.error), opening) else Outcome(f.result, opening + f.events)
  {
  }

  /**
   * Steps 1 to 3 of `GenerateReportAsync`: the 5 it reports first, the structure stages and the
   * standards stage.
   */
  method OpeningStages(repository: Repository, s: Services, sink: bool)
    returns (summary: ProjectSummary, standards: Result<seq<Standard>>, events: seq<int>)
    ensures standards == StandardsRun(repository, s, sink).result
    ensures events == Opening(sink) + StandardsRun(repository, s, sink).events
    ensures summary.folderStructure == FolderCounts(repository.files)
    ensures summary.fileTypeDistribution == FileTypeDistribution(repository.files)
    ensures StructureSummary(repository, s, summary)
  {
    var ev, sev;
    summary, ev := AnalyzeStructure(repository, s, sink);
    standards, sev := ChooseStandards(repository, s, sink);
    OpeningJoin(sink, StandardsRun(repository, s, sink).events);
    events := Sent(sink, [5]) + ev + sev;
  }

  /**
   * The stages of `GenerateReportAsync` on a loaded repository: the run is `ReportOutcome`, and
   * `standards` is what the standards stage returned.
   */
  method RunStages(repository: Repository, s: Services, sink: bool, reportId: string, now: int, elapsedSeconds: nat)
    returns (standards: Result<seq<Standard>>, result: Result<AnalysisReport>, events: seq<int>,
             summary: ProjectSummary)
    requires ValidRandom(s.random)
    ensures standards == StandardsRun(repository, s, sink).result
    ensures Outcome(result, events) == ReportOutcome(repository, s, sink, summary, reportId, now, elapsedSeconds)
    ensures summary.folderStructure == FolderCounts(repository.files)
    ensures summary.fileTypeDistribution == FileTypeDistribution(repository.files)
    ensures StructureSummary(repository, s, summary)
    ensures result.Ok? ==> standards.Ok? && result.value.id == reportId
  {
    var opening;
    summary, standards, opening := OpeningStages(repository, s, sink);
    if standards.Err? {
      ReportOutcomeFrom(repository, s, sink, summary, reportId, now, elapsedSeconds, opening, standards, Outcome(Err(standards.error), []));
      result, events := Err(standards.error), opening;
      return;
    }
    var fev; ghost var stored;
    result, fev, stored := AnalyzeFindings(repository, standards.value, s, sink, summary, reportId, now, elapsedSeconds);
    ReportOutcomeFrom(repository, s, sink, summary, reportId, now, elapsedSeconds, opening, standards, Outcome(result, fev));
    events := opening + fev;
  }

  /**
   * `GenerateReportAsync` once `GetRepositoryByIdAsync` has found `repository` under
   * `repositoryId`: the run is `ReportOutcome`. The standards it chose are written back onto the
   * cached repository, and a completed report is cached under its id. No stage reads the cache,
   * so both writes are made once the stages have run; `AnalyzeFindings` states where in the
   * progress the source stores the report.
   */
  method ReportForRepository(cache: InMemoryCache, repositoryId: string, repository: Repository, s: Services,
                             sink: bool, reportId: string, now: int, elapsedSeconds: nat)
    returns (result: Result<AnalysisReport>, events: seq<int>, summary: ProjectSummary)
    requires ValidRandom(s.random)
    modifies cache
    ensures Outcome(result, events) == ReportOutcome(repository, s, sink, summary, reportId, now, elapsedSeconds)
    ensures summary.folderStructure == FolderCounts(repository.files)
    ensures summary.fileTypeDistribution == FileTypeDistribution(repository.files)
    ensures StructureSummary(repository, s, summary)
    ensures var st := StandardsRun(repository, s, sink).result;
      cache.repositories == if st.Err? then old(cache.repositories)
        else old(cache.repositories)[repositoryId := repository.(standards := st.value)]
    ensures cache.reports == if result.Ok? then old(cache.reports)[reportId := result.value] else old(cache.reports)
  {
    var standards;
    standards, result, events, summary := RunStages(repository, s, sink, reportId, now, elapsedSeconds);
    if standards.Ok? {
      StoreRun(cache, repositoryId, repository.(standards := standards.value), result);
    }
  }

  /**
   * The two cache writes of a run whose standards stage succeeded: `repository.Standards =
   * standards` on the cached repository, and `AddReport` for a completed report.
   */
  method StoreRun(cache: InMemoryCache, repositoryId: string, updated: Repository, result: Result<AnalysisReport>)
    modifies cache
    ensures cache.repositories == old(cache.repositories)[repositoryId := updated]
    ensures cache.reports == if result.Ok? then old(cache.reports)[result.value.id := result.value] else old(cache.reports)
  {
    cache.repositories := cache.repositories[repositoryId := updated];
    if result.Ok? {
      cache.AddReport(result.value);
    }
  }

  lemma SuffixAfter(a: seq<int>, b: seq<int>, k: nat)
    requires k <= |b|
    ensures (a + b)[|a| + k..] == b[k..]
  {
  }

  /** The 96 and the final 100 sent one after the other. */
  lemma ClosingSplit(a: seq<int>, sink: bool)
    ensures a + Sent(sink, [96, 100]) == a + Sent(sink, [96]) + Sent(sink, [100])
  {
    SentJoin(sink, [96], [100]);
  }

  /**
   * `GenerateReportAsync`: a missing repository fails after the first progress value and leaves
   * the cache alone; otherwise the run is `ReportForRepository` on the cached repository.
   */
  method GenerateReport(cache: InMemoryCache, repositoryId: string, s: Services, sink: bool,
                        reportId: string, now: int, elapsedSeconds: nat)
    returns (result: Result<AnalysisReport>, events: seq<int>, ghost summary: ProjectSummary)
    requires ValidRandom(s.random)
    modifies cache
    ensures repositoryId !in old(cache.repositories) ==>
      && result == Err(NotFound("Repository with ID " + repositoryId + " not found"))
      && events == Sent(sink, [5])
      && cache.repositories == old(cache.repositories) && cache.reports == old(cache.reports)
    ensures repositoryId in old(cache.repositories) ==>
      var repository := old(cache.repositories)[repositoryId];
      && Outcome(result, events) == ReportOutcome(repository, s, sink, summary, reportId, now, elapsedSeconds)
      && summary.folderStructure == FolderCounts(repository.files)
      && summary.fileTypeDistribution == FileTypeDistribution(repository.files)
      && StructureSummary(repository, s, summary)
      && cache.repositories == (var st := StandardsRun(repository, s, sink).result;
           if st.Err? then old(cache.repositories)
           else old(cache.repositories)[repositoryId := repository.(standards := st.value)])
    ensures cache.reports == if result.Ok? then old(cache.reports)[reportId := result.value] else old(cache.reports)
  {
    var found := GetRepositoryById(cache, repositoryId);
    if found.Err? {
      result, events := Err(found.error), Sent(sink, [5]);
      summary :| true;
      return;
    }
    result, events, summary := ReportForRepository(cache, repositoryId, found.value, s, sink,
                                                             reportId, now, elapsedSeconds);
  }

  /** `ExportReportToJsonAsync`: the serialised report, or the error thrown when no report has the id. */
  method ExportReportToJson(cache: InMemoryCache, reportId: string, serialize: AnalysisReport -> string)
    returns (r: Result<string>)
    ensures reportId in cache.reports ==> r == Ok(serialize(cache.reports[reportId]))
    ensures reportId !in cache.reports ==> r == Err(NotFound("Report with ID " + reportId + " not found"))
  {
    var report := cache.GetReport(reportId);
    if report.None? {
      return Err(NotFound("Report with ID " + reportId + " not found"));
    }
    r := Ok(serialize(report.value));
  }
}
