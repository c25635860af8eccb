/** The detail dialog for a violation, a bug or a refactoring: icon, colour and line range. */
module CodeDetailDialog {
  import opened Wrappers
  import opened Text

  /** `data.type`: one of the three kinds, or any other string that reaches the `default` branches. */
  datatype DetailType = ViolationDetail | BugDetail | RefactoringDetail | OtherDetail(name: string)

  /** The fields of the dialog's data that its helpers read; a JSON number is an integer here. */
  datatype DetailData = DetailData(kind: DetailType, lineNumber: Option<int>, endLineNumber: Option<int>)

  /** `getTypeIcon`. */
  function TypeIcon(data: DetailData): (r: string)
    ensures r == "warning" <==> data.kind == ViolationDetail
    ensures r == "bug_report" <==> data.kind == BugDetail
    ensures r == "build_circle" <==> data.kind == RefactoringDetail
    ensures r == "info" <==> data.kind.OtherDetail?
  {
    match data.kind
    case ViolationDetail => "warning"
    case BugDetail => "bug_report"
    case RefactoringDetail => "build_circle"
    case OtherDetail(_) => "info"
  }

  /** `getTypeColor`. */
  function TypeColor(data: DetailData): (r: string)
    ensures r == "warn" <==> data.kind == ViolationDetail
    ensures r == "danger" <==> data.kind == BugDetail
    ensures r == "accent" <==> data.kind == RefactoringDetail
    ensures r == "primary" <==> data.kind.OtherDetail?
  {
    match data.kind
    case ViolationDetail => "warn"
    case BugDetail => "danger"
    case RefactoringDetail => "accent"
    case OtherDetail(_) => "primary"
  }

  /** ECMAScript truthiness of an optional number: present and not 0. */
  predicate Truthy(n: Option<int>)
  {
    n.Some? && n.value != 0
  }

  /** The end line a range display shows, if any: a truthy end that differs from the start. */
  function ShownEnd(line: int, end: Option<int>): Option<int>
  {
    if Truthy(end) && end.value != line then end else None
  }

  /**
   * `getLineRangeDisplay`: nothing without a (non-zero) line, "Lines a-b" for a truthy end line
   * that differs from the start, "Line a" otherwise.
   */
  function LineRangeDisplay(line: Option<int>, end: Option<int>): (r: string)
    ensures r == "" <==> !Truthy(line)
    ensures Truthy(line) && ShownEnd(line.value, end).Some? ==>
      r == "Lines " + IntToString(line.value) + "-" + IntToString(end.value)
    ensures Truthy(line) && ShownEnd(line.value, end).None? ==> r == "Line " + IntToString(line.value)
  {
    if !Truthy(line) then ""
    else if Truthy(end) && end.value != line.value then
      "Lines " + IntToString(line.value) + "-" + IntToString(end.value)
    else "Line " + IntToString(line.value)
  }

  /** Two digit runs, each followed by '-' and a rest, that make up the same text agree. */
  lemma DashSplit(x: string, y: string, u: string, v: string)
    requires forall i :: 0 <= i < |x| ==> IsDigit(x[i])
    requires forall i :: 0 <= i < |y| ==> IsDigit(y[i])
    requires x + "-" + u == y + "-" + v
    ensures x == y && u == v
  {
    assert x + "-" + u == x + ("-" + u);
    assert y + "-" + v == y + ("-" + v);
    DigitRun(x, y, "-" + u, "-" + v);
    AfterPrefix("-", u, v);
  }

  lemma RangeTextInjective(a: int, b: int, c: int, d: int)
    requires a > 0 && c > 0
    requires "Lines " + IntToString(a) + "-" + IntToString(b) == "Lines " + IntToString(c) + "-" + IntToString(d)
    ensures a == c && b == d
  {
    var sa, sc := IntToString(a), IntToString(c);
    var sb, sd := IntToString(b), IntToString(d);
    assert "Lines " + sa + "-" + sb == "Lines " + (sa + "-" + sb);
    assert "Lines " + sc + "-" + sd == "Lines " + (sc + "-" + sd);
    AfterPrefix("Lines ", sa + "-" + sb, sc + "-" + sd);
    DashSplit(sa, sc, sb, sd);
    IntToStringInjective(a, c);
    IntToStringInjective(b, d);
  }

  lemma SingleTextInjective(a: int, c: int)
    requires a > 0 && c > 0
    requires "Line " + IntToString(a) == "Line " + IntToString(c)
    ensures a == c
  {
    AfterPrefix("Line ", IntToString(a), IntToString(c));
    NatToStringInjective(a, c);
  }

  /** A range and a single line never display alike: after "Line" one has 's', the other a digit. */
  lemma RangeIsNotSingle(a: int, b: int, c: int)
    requires c > 0
    ensures "Lines " + IntToString(a) + "-" + IntToString(b) != "Line " + IntToString(c)
  {
    var x := "Lines " + IntToString(a) + "-" + IntToString(b);
    var y := "Line " + IntToString(c);
    assert x[4] == 's';
    assert y[5] == NatToString(c)[0];
    assert IsDigit(NatToString(c)[0]);
    assert x[5] == ' ';
  }

  /**
   * The display can be read back: for positive start lines, equal texts come from the same start
   * line and the same shown end line.
   */
  lemma LineRangeDisplayInjective(a: int, e: Option<int>, c: int, f: Option<int>)
    requires a > 0 && c > 0
    requires LineRangeDisplay(Some(a), e) == LineRangeDisplay(Some(c), f)
    ensures a == c && ShownEnd(a, e) == ShownEnd(c, f)
  {
    var se, sf := ShownEnd(a, e), ShownEnd(c, f);
    if se.Some? && sf.Some? {
      RangeTextInjective(a, e.value, c, f.value);
    } else if se.None? && sf.None? {
      SingleTextInjective(a, c);
    } else if se.Some? {
      RangeIsNotSingle(a, e.value, c);
    } else {
      RangeIsNotSingle(c, f.value, a);
    }
  }
}
