/**
 * The data preparation of the analysis result page: severity decoding, path display, the
 * duplication-type shown, the per-severity counts and the report the page aggregates from the
 * repository's files when no report id is given.
 */
module AnalysisResultPage {
  import opened Wrappers
  import opened Text
  import opened Paths
  import opened Collections
  import opened Domain
  import opened WebModels

  // ---------------------------------------------------------------- severities

  /**
   * `mapSeverity`: a string is kept as it is (it is already a level name), a number is decoded
   * by the API's numeric encoding, and anything else falls to the default Medium.
   */
  function MapSeverity(severity: JsValue): (r: string)
    ensures severity.Str? ==> r == severity.text
    ensures severity.Number? ==> r == SeverityName(SeverityOfNumber(severity.value))
    ensures severity.Undefined? || severity.Null? ==> r == "Medium"
  {
    match severity
    case Str(text) => text
    case Number(v) => SeverityName(SeverityOfNumber(v))
    case _ => SeverityName(Medium)
  }

  /** Both encodings of a level, its number and its name, display as its name. */
  lemma MapSeverityOfLevel(l: SeverityLevel)
    ensures MapSeverity(Number(SeverityValue(l) as real)) == SeverityName(l)
    ensures MapSeverity(Str(SeverityName(l))) == SeverityName(l)
  {
    SeverityOfNumberValue(l);
  }

  /** A number outside 1..4 displays as the default level. */
  lemma MapSeverityDefault(v: real)
    requires v !in {1.0, 2.0, 3.0, 4.0}
    ensures MapSeverity(Number(v)) == "Medium"
  {
  }

  // ---------------------------------------------------------------- paths

  /** `formatFilePath`: "Unknown" for an empty path, else every '\' turned into '/'. */
  function FormatFilePath(filePath: string): (r: string)
    ensures filePath == "" ==> r == "Unknown"
    ensures filePath != "" ==> |r| == |filePath|
    ensures filePath != "" ==>
      forall i :: 0 <= i < |r| ==> r[i] == (if filePath[i] == '\\' then '/' else filePath[i])
    ensures '\\' !in r
  {
    if filePath == "" then "Unknown" else ReplaceChar(filePath, '\\', '/')
  }

  /** Formatting a formatted path changes nothing. */
  lemma FormatFilePathIdempotent(filePath: string)
    ensures FormatFilePath(FormatFilePath(filePath)) == FormatFilePath(filePath)
  {
    var r := FormatFilePath(filePath);
    assert r != "";
    assert forall i :: 0 <= i < |r| ==> r[i] != '\\';
  }

  /**
   * `extractFileName`: "Unknown" for an empty path; otherwise the last segment of the path
   * split on '/' after '\' is normalised to '/', or the path itself when that segment is empty.
   */
  function ExtractFileName(filePath: string): (r: string)
    ensures filePath == "" ==> r == "Unknown"
    ensures filePath != "" && IsSeparator(filePath[|filePath| - 1]) ==> r == filePath
    ensures filePath != "" && !IsSeparator(filePath[|filePath| - 1]) ==>
      r != "" && |r| <= |filePath| && r == filePath[|filePath| - |r|..] && NoSeparator(r)
      && (|r| == |filePath| || IsSeparator(filePath[|filePath| - |r| - 1]))
  {
    if filePath == "" then "Unknown"
    else
      var normalized := ReplaceChar(filePath, '\\', '/');
      var last := normalized[LastIndexOf(normalized, '/') + 1..];
      LastSegment(filePath);
      if last == "" then filePath else last
  }

  /** After normalisation, the text after the last '/' is the text after the last separator. */
  lemma LastSegment(filePath: string)
    requires filePath != ""
    ensures var normalized := ReplaceChar(filePath, '\\', '/');
      var last := normalized[LastIndexOf(normalized, '/') + 1..];
      && last == filePath[|filePath| - |last|..]
      && NoSeparator(last)
      && (last == [] <==> IsSeparator(filePath[|filePath| - 1]))
      && (last != [] && |last| < |filePath| ==> IsSeparator(filePath[|filePath| - |last| - 1]))
  {
    var normalized := ReplaceChar(filePath, '\\', '/');
    LastSegmentOf(filePath, normalized, LastIndexOf(normalized, '/'));
  }

  /** The same with the normalised text and the index of its last '/' given by their properties. */
  lemma LastSegmentOf(p: string, q: string, k: int)
    requires p != [] && |q| == |p|
    requires forall i :: 0 <= i < |p| ==> q[i] == (if p[i] == '\\' then '/' else p[i])
    requires -1 <= k < |q| && (k >= 0 ==> q[k] == '/')
    requires forall i :: k < i < |q| ==> q[i] != '/'
    ensures var last := q[k + 1..];
      && last == p[|p| - |last|..]
      && NoSeparator(last)
      && (last == [] <==> IsSeparator(p[|p| - 1]))
      && (last != [] && |last| < |p| ==> IsSeparator(p[|p| - |last| - 1]))
  {
    AfterLastSlash(p, q, k);
    assert |p| - |q[k + 1..]| == k + 1;
    if IsSeparator(p[|p| - 1]) {
      assert q[|p| - 1] == '/';
    }
  }

  /** Past the last '/' of the normalised text, it agrees with the original and has no separator. */
  lemma AfterLastSlash(p: string, q: string, k: int)
    requires |q| == |p|
    requires forall i :: 0 <= i < |p| ==> q[i] == (if p[i] == '\\' then '/' else p[i])
    requires -1 <= k < |q|
    requires forall i :: k < i < |q| ==> q[i] != '/'
    ensures q[k + 1..] == p[k + 1..]
    ensures NoSeparator(q[k + 1..])
  {
    var t := q[k + 1..];
    forall j | 0 <= j < |t| ensures t[j] == p[k + 1 + j] && !IsSeparator(t[j]) {
      assert t[j] == q[k + 1 + j];
    }
  }

  /** The name after the last separator of a path is what `extractFileName` shows. */
  lemma ExtractFileNameOfJoin(dir: string, sep: char, name: string)
    requires IsSeparator(sep) && name != "" && NoSeparator(name)
    ensures ExtractFileName(dir + [sep] + name) == name
    ensures ExtractFileName(name) == name
  {
    JoinedName(dir, sep, name);
    BareName(name);
  }

  /** The joined half of `ExtractFileNameOfJoin`. */
  lemma JoinedName(dir: string, sep: char, name: string)
    requires IsSeparator(sep) && name != "" && NoSeparator(name)
    ensures ExtractFileName(dir + [sep] + name) == name
  {
    var p := dir + [sep] + name;
    assert p[|p| - 1] == name[|name| - 1];
    assert p[|p| - |name|..] == name;
    assert p[|p| - |name| - 1] == sep;
    SeparatedSuffix(p, ExtractFileName(p), name);
  }

  /** The bare-name half of `ExtractFileNameOfJoin`. */
  lemma BareName(name: string)
    requires name != "" && NoSeparator(name)
    ensures ExtractFileName(name) == name
  {
    assert name[|name| - 1..] == [name[|name| - 1]];
    SeparatedSuffix(name, ExtractFileName(name), name);
  }

  /** Two separator-free suffixes of a path that both start right after a separator are equal. */
  lemma SeparatedSuffix(p: string, r: string, s: string)
    requires |r| <= |p| && r == p[|p| - |r|..] && NoSeparator(r)
    requires |r| == |p| || IsSeparator(p[|p| - |r| - 1])
    requires |s| <= |p| && s == p[|p| - |s|..] && NoSeparator(s)
    requires |s| == |p| || IsSeparator(p[|p| - |s| - 1])
    ensures r == s
  {
  }

  // ---------------------------------------------------------------- duplication type

  /** `replace(/([A-Z])/g, ' $1')`: a space before every ASCII capital. */
  function SpaceBeforeCapitals(s: string): (r: string)
    ensures |r| >= |s|
  {
    if s == [] then [] else (if IsUpper(s[0]) then [' ', s[0]] else [s[0]]) + SpaceBeforeCapitals(s[1..])
  }

  /** `formatDuplicationType`: "Unknown" for a missing or empty type, else the spaced, trimmed name. */
  function FormatDuplicationType(duplicationType: Option<string>): (r: string)
    ensures duplicationType.None? || duplicationType.value == "" ==> r == "Unknown"
    ensures r != [] ==> !JsSpace(r[0]) && !JsSpace(r[|r| - 1])
  {
    if duplicationType.None? || duplicationType.value == "" then "Unknown"
    else
      JsTrim(SpaceBeforeCapitals(duplicationType.value))
  }

  /** The characters of `s` that are not white space. */
  function Visible(s: string): string
  {
    if s == [] then [] else (if JsSpace(s[0]) then [] else [s[0]]) + Visible(s[1..])
  }

  lemma {:induction false} VisibleAppend(a: string, b: string)
    ensures Visible(a + b) == Visible(a) + Visible(b)
  {
    if a != [] {
      assert (a + b)[0] == a[0];
      assert (a + b)[1..] == a[1..] + b;
      VisibleAppend(a[1..], b);
      assert Visible(a + b) == (if JsSpace(a[0]) then [] else [a[0]]) + Visible(a[1..] + b);
    } else {
      assert a + b == b;
    }
  }

  lemma {:induction false} VisibleOfBlank(s: string)
    requires forall k :: 0 <= k < |s| ==> JsSpace(s[k])
    ensures Visible(s) == []
  {
    if s != [] {
      VisibleOfBlank(s[1..]);
    }
  }

  lemma {:induction false} VisibleSpaced(s: string)
    ensures Visible(SpaceBeforeCapitals(s)) == Visible(s)
  {
    if s != [] {
      var head := if IsUpper(s[0]) then [' ', s[0]] else [s[0]];
      VisibleAppend(head, SpaceBeforeCapitals(s[1..]));
      VisibleSpaced(s[1..]);
      VisibleAppend([s[0]], s[1..]);
      assert [s[0]] + s[1..] == s;
      if IsUpper(s[0]) {
        VisibleAppend([' '], [s[0]]);
        assert [' '] + [s[0]] == head;
      }
    }
  }

  /** Trimming only drops white space. */
  lemma VisibleTrimmed(s: string, r: string, i: int)
    requires TrimmedAt(s, r, i, JsSpace)
    ensures Visible(r) == Visible(s)
  {
    var pre, post := s[..i], s[i + |r|..];
    TrimmedParts(s, r, i, i + |r|);
    VisibleOfBlank(pre);
    VisibleOfBlank(post);
    VisibleAppend(pre + r, post);
    VisibleAppend(pre, r);
  }

  /** A trimmed string sits between a blank prefix and a blank suffix of the original. */
  lemma TrimmedParts(s: string, r: string, i: int, j: int)
    requires TrimmedAt(s, r, i, JsSpace) && j == i + |r|
    ensures s == s[..i] + r + s[j..]
    ensures forall k :: 0 <= k < i ==> JsSpace(s[..i][k])
    ensures forall k :: 0 <= k < |s| - j ==> JsSpace(s[j..][k])
  {
    assert s == s[..i] + s[i..j] + s[j..];
  }

  /**
   * The shown only adds and removes white space: apart from white space it reads exactly as the
   * type name it came from.
   */
  lemma FormatDuplicationTypeVisible(t: string)
    requires t != ""
    ensures Visible(FormatDuplicationType(Some(t))) == Visible(t)
  {
    var spaced := SpaceBeforeCapitals(t);
    var r := FormatDuplicationType(Some(t));
    var i :| TrimmedAt(spaced, r, i, JsSpace);
    VisibleTrimmed(spaced, r, i);
    VisibleSpaced(t);
  }

  /** Trimming a name that opens with one space removes just that space. */
  lemma TrimOpeningSpace(x: string)
    requires x != [] && !JsSpace(x[0]) && !JsSpace(x[|x| - 1])
    ensures JsTrim([' '] + x) == x
  {
    var s := [' '] + x;
    assert LeadingSpaces(s, JsSpace) == 1 by {
      assert s[1..] == x;
    }
    assert s[1..] == x;
  }

  /** A capitalised word: an upper-case letter followed by characters that are neither capitals nor white space. */
  predicate Word(w: string)
  {
    w != [] && IsUpper(w[0]) && forall k :: 1 <= k < |w| ==> !IsUpper(w[k]) && !JsSpace(w[k])
  }

  /**
   * A duplication type made of two capitalised words, such as "ExactMatch", is shown as the two
   * words separated by one space.
   */
  lemma TwoWordLabel(a: string, b: string)
    requires Word(a) && Word(b)
    ensures FormatDuplicationType(Some(a + b)) == a + " " + b
  {
    SpacedAppend(a, b);
    SpacedWord(a);
    SpacedWord(b);
    var x := a + " " + b;
    assert ([' '] + a) + ([' '] + b) == [' '] + x;
    assert x[0] == a[0] && x[|x| - 1] == b[|b| - 1];
    TrimOpeningSpace(x);
  }

  /** Spacing a capitalised word puts one space in front of it. */
  lemma SpacedWord(w: string)
    requires Word(w)
    ensures SpaceBeforeCapitals(w) == [' '] + w
  {
    SpacedPlain(w[1..]);
    assert [' ', w[0]] + w[1..] == [' '] + w;
  }

  /** Spacing leaves a text without capitals unchanged. */
  lemma {:induction false} SpacedPlain(s: string)
    requires forall k :: 0 <= k < |s| ==> !IsUpper(s[k])
    ensures SpaceBeforeCapitals(s) == s
  {
    if s != [] {
      SpacedPlain(s[1..]);
      assert [s[0]] + s[1..] == s;
    }
  }

  /** Spacing works character by character, so it distributes over concatenation. */
  lemma {:induction false} SpacedAppend(a: string, b: string)
    ensures SpaceBeforeCapitals(a + b) == SpaceBeforeCapitals(a) + SpaceBeforeCapitals(b)
  {
    if a == [] {
      assert a + b == b;
    } else {
      assert (a + b)[0] == a[0] && (a + b)[1..] == a[1..] + b;
      SpacedAppend(a[1..], b);
    }
  }

  // ---------------------------------------------------------------- counting by severity

  function SeverityOf(f: Finding): JsValue
  {
    f.severity
  }

  /**
   * `getCountBySeverity`: a `Map` from each severity value to the number of items that carry it,
   * keys in first-appearance order.
   */
  method CountBySeverity(items: seq<Finding>) returns (t: Tally<JsValue>)
    ensures t == CountBy(items, SeverityOf)
    ensures TallyOf(items, SeverityOf, t)
  {
    var keys: seq<JsValue> := [];
    var counts: map<JsValue, nat> := map[];
    for i := 0 to |items|
      invariant Tally(keys, counts) == CountBy(items[..i], SeverityOf)
    {
      CountBySnoc(items[..i], items[i], SeverityOf);
      assert items[..i + 1] == items[..i] + [items[i]];
      var severity := items[i].severity;
      if severity in counts {
        counts := counts[severity := counts[severity] + 1];
      } else {
        keys := keys + [severity];
        counts := counts[severity := 1];
      }
    }
    assert items[..|items|] == items;
    t := Tally(keys, counts);
    CountByCorrect(items, SeverityOf);
  }

  /** The page's report: the totals it shows and the two per-severity maps. */
  datatype PageReport = PageReport(
    repositoryId: string,
    totalFiles: nat,
    filesWithViolations: nat,
    filesWithBugs: nat,
    filesNeedingRefactoring: nat,
    filesWithDuplications: nat,
    totalViolations: nat,
    totalBugs: nat,
    totalRefactorings: nat,
    totalDuplications: nat,
    totalDuplicatedLines: nat,
    executionTime: string,
    violationsBySeverity: map<JsValue, int>,
    bugsBySeverity: map<JsValue, int>)

  datatype FindingKind = Violations | Bugs

  /** `getSeverityCount`: the count stored for a level in the chosen map, 0 when there is none. */
  function SeverityCount(report: Option<PageReport>, severity: SeverityLevel, kind: FindingKind): (r: int)
    ensures var key := Str(SeverityName(severity));
      var m := if report.None? then map[] else if kind == Violations then report.value.violationsBySeverity else report.value.bugsBySeverity;
      (key !in m ==> r == 0) && (key in m ==> r == m[key])
  {
    if report.None? then 0
    else
      var m := if kind == Violations then report.value.violationsBySeverity else report.value.bugsBySeverity;
      var key := Str(SeverityName(severity));
      if key in m then m[key] else 0
  }

  /** Over counted items, the count shown for a level is the number of items with that level's name. */
  lemma SeverityCountOfItems(items: seq<Finding>, report: PageReport, severity: SeverityLevel)
    requires report.violationsBySeverity == CountBy(items, SeverityOf).counts
    ensures SeverityCount(Some(report), severity, Violations) == |Select(items, SeverityOf, Str(SeverityName(severity)))|
  {
    var key := Str(SeverityName(severity));
    CountByCorrect(items, SeverityOf);
    if key !in CountBy(items, SeverityOf).counts {
      SelectAbsent(items, SeverityOf, key);
    }
  }

  /**
   * `parseSeverityMap`: the entries of the API's object whose key names a level, keyed by that
   * level; a missing object gives an empty map.
   */
  method ParseSeverityMap(obj: Option<map<string, int>>) returns (m: map<JsValue, int>)
    ensures obj.None? ==> m == map[]
    ensures obj.Some? ==> forall k :: k in m <==> k.Str? && k.text in obj.value && LevelNamed(k.text).Some?
    ensures obj.Some? ==> forall k | k in m :: m[k] == obj.value[k.text]
  {
    m := map[];
    if obj.Some? {
      var entries := obj.value;
      var remaining := entries.Keys;
      while remaining != {}
        invariant remaining <= entries.Keys
        invariant forall k :: k in m <==> k.Str? && k.text in entries.Keys - remaining && LevelNamed(k.text).Some?
        invariant forall k | k in m :: m[k] == entries[k.text]
        decreases |remaining|
      {
        var key :| key in remaining;
        var level := LevelNamed(key);
        if level.Some? {
          m := m[Str(SeverityName(level.value)) := entries[key]];
        }
        remaining := remaining - {key};
      }
    }
  }

  // ---------------------------------------------------------------- the aggregated report

  /** A violation or bug together with the name of its file, as the page collects them. */
  datatype Tagged = Tagged(fileName: string, severity: JsValue)

  function TagAll(fileName: string, xs: seq<Finding>): (r: seq<Tagged>)
    ensures |r| == |xs|
    ensures forall i :: 0 <= i < |xs| ==> r[i] == Tagged(fileName, xs[i].severity)
  {
    seq(|xs|, i requires 0 <= i < |xs| => Tagged(fileName, xs[i].severity))
  }

  /** The violations of all files, file by file, each tagged with its file's name. */
  function AllViolations(files: seq<WebModels.CodeFile>): seq<Tagged>
  {
    if files == [] then []
    else AllViolations(files[..|files| - 1]) + TagAll(files[|files| - 1].fileName, files[|files| - 1].violations)
  }

  function AllBugs(files: seq<WebModels.CodeFile>): seq<Tagged>
  {
    if files == [] then []
    else AllBugs(files[..|files| - 1]) + TagAll(files[|files| - 1].fileName, files[|files| - 1].bugs)
  }

  function Untagged(xs: seq<Tagged>): (r: seq<Finding>)
    ensures |r| == |xs|
    ensures forall i :: 0 <= i < |xs| ==> r[i] == Finding(xs[i].severity)
  {
    seq(|xs|, i requires 0 <= i < |xs| => Finding(xs[i].severity))
  }

  /** The names of the files the tagged items belong to. */
  function FileNames(xs: seq<Tagged>): set<string>
  {
    set t | t in xs :: t.fileName
  }

  /**
   * The fallback report, built from the repository's files when no report id is given (an absent
   * repository contributes no files and no items).
   */
  function FallbackReport(repositoryId: string, files: Option<seq<WebModels.CodeFile>>): PageReport
  {
    var fs := if files.None? then [] else files.value;
    var violations := AllViolations(fs);
    var bugs := AllBugs(fs);
    PageReport(repositoryId, |fs|, |FileNames(violations)|, |FileNames(bugs)|, 0, 0,
      |violations|, |bugs|, 0, 0, 0, "0s",
      CountBy(Untagged(violations), SeverityOf).counts, CountBy(Untagged(bugs), SeverityOf).counts)
  }

  /**
   * The fallback branch of the page's loading: collect every file's violations and bugs, tagged
   * with its file name, then count them.
   */
  method AggregateFromFiles(repositoryId: string, files: Option<seq<WebModels.CodeFile>>) returns (report: PageReport)
    ensures report == FallbackReport(repositoryId, files)
  {
    var violations: seq<Tagged> := [];
    var bugs: seq<Tagged> := [];
    var fs := if files.None? then [] else files.value;
    for i := 0 to |fs|
      invariant violations == AllViolations(fs[..i]) && bugs == AllBugs(fs[..i])
    {
      assert fs[..i + 1][..i] == fs[..i];
      violations := violations + TagAll(fs[i].fileName, fs[i].violations);
      bugs := bugs + TagAll(fs[i].fileName, fs[i].bugs);
    }
    assert fs[..|fs|] == fs;
    var violationTally := CountBySeverity(Untagged(violations));
    var bugTally := CountBySeverity(Untagged(bugs));
    report := PageReport(repositoryId, |fs|, |FileNames(violations)|, |FileNames(bugs)|, 0, 0,
      |violations|, |bugs|, 0, 0, 0, "0s", violationTally.counts, bugTally.counts);
  }

  /** The files named by the collected violations are exactly the files that have violations. */
  lemma {:induction false} AllViolationsFiles(files: seq<WebModels.CodeFile>)
    ensures FileNames(AllViolations(files)) == set f | f in files && f.violations != [] :: f.fileName
    ensures |AllViolations(files)| == TotalViolations(files)
  {
    if files != [] {
      var init, last := files[..|files| - 1], files[|files| - 1];
      AllViolationsFiles(init);
      assert files == init + [last];
      var tags := TagAll(last.fileName, last.violations);
      assert FileNames(tags) == if last.violations == [] then {} else {last.fileName} by {
        if last.violations != [] {
          assert tags[0] in tags;
        }
      }
      assert FileNames(AllViolations(init) + tags) == FileNames(AllViolations(init)) + FileNames(tags);
    }
  }

  lemma {:induction false} AllBugsFiles(files: seq<WebModels.CodeFile>)
    ensures FileNames(AllBugs(files)) == set f | f in files && f.bugs != [] :: f.fileName
    ensures |AllBugs(files)| == TotalBugs(files)
  {
    if files != [] {
      var init, last := files[..|files| - 1], files[|files| - 1];
      AllBugsFiles(init);
      assert files == init + [last];
      var tags := TagAll(last.fileName, last.bugs);
      assert FileNames(tags) == if last.bugs == [] then {} else {last.fileName} by {
        if last.bugs != [] {
          assert tags[0] in tags;
        }
      }
      assert FileNames(AllBugs(init) + tags) == FileNames(AllBugs(init)) + FileNames(tags);
    }
  }

  function TotalViolations(files: seq<WebModels.CodeFile>): nat
  {
    if files == [] then 0 else TotalViolations(files[..|files| - 1]) + |files[|files| - 1].violations|
  }

  function TotalBugs(files: seq<WebModels.CodeFile>): nat
  {
    if files == [] then 0 else TotalBugs(files[..|files| - 1]) + |files[|files| - 1].bugs|
  }

  /**
   * What the fallback report states: the number of distinct names of files with violations (with
   * bugs), the totals of all files' lists, and per-severity counts that add up to those totals.
   */
  lemma FallbackReportCounts(repositoryId: string, files: seq<WebModels.CodeFile>)
    ensures var r := FallbackReport(repositoryId, Some(files));
      r.totalFiles == |files|
      && r.filesWithViolations == |set f | f in files && f.violations != [] :: f.fileName|
      && r.filesWithBugs == |set f | f in files && f.bugs != [] :: f.fileName|
      && r.totalViolations == TotalViolations(files)
      && r.totalBugs == TotalBugs(files)
  {
    AllViolationsFiles(files);
    AllBugsFiles(files);
  }

  /** The per-severity counts of the fallback report add up to its totals. */
  lemma FallbackReportTallies(repositoryId: string, files: Option<seq<WebModels.CodeFile>>)
    ensures var r := FallbackReport(repositoryId, files);
      var fs := if files.None? then [] else files.value;
      var vt := CountBy(Untagged(AllViolations(fs)), SeverityOf);
      var bt := CountBy(Untagged(AllBugs(fs)), SeverityOf);
      r.violationsBySeverity == vt.counts && SumCounts(vt.keys, vt.counts) == r.totalViolations
      && r.bugsBySeverity == bt.counts && SumCounts(bt.keys, bt.counts) == r.totalBugs
  {
    var fs := if files.None? then [] else files.value;
    CountByCorrect(Untagged(AllViolations(fs)), SeverityOf);
    CountByCorrect(Untagged(AllBugs(fs)), SeverityOf);
  }

  // ---------------------------------------------------------------- report items

  /** A violation, bug or refactoring of the API report as the page's tables show it. */
  datatype ItemView = ItemView(fullPath: string, fileName: string, severity: string)

  /** The `map` over the report's lists: path shown in full and by name (`filePath || ''`), severity decoded. */
  function ViewItem(filePath: Option<string>, severity: JsValue): (r: ItemView)
    ensures '\\' !in r.fullPath
    ensures filePath.None? || filePath.value == "" ==> r.fullPath == "Unknown" && r.fileName == "Unknown"
    ensures filePath.Some? && filePath.value != "" ==> |r.fullPath| == |filePath.value|
  {
    var p := if filePath.None? then "" else filePath.value;
    ItemView(FormatFilePath(p), ExtractFileName(p), MapSeverity(severity))
  }

  /** A missing path and an empty one are shown alike, whatever the severity. */
  lemma ViewItemOfMissingPath(severity: JsValue)
    ensures ViewItem(Some(""), severity) == ViewItem(None, severity)
    ensures ViewItem(None, severity).severity == ViewItem(None, Undefined).severity <==> MapSeverity(severity) == "Medium"
  {
  }
}
