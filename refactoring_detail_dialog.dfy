/** The detail dialog for a refactoring suggestion. */
module RefactoringDetailDialog {
  import opened Wrappers
  import opened Text
  import opened Domain
  import opened WebModels
  import CodeDetailDialog

  /** `parsePriority`: the level whose name matches ignoring case; anything else is Low. */
  function ParsePriority(priority: Option<string>): (r: SeverityLevel)
    ensures r == Critical <==> priority.Some? && Lower(priority.value) == "critical"
    ensures r == High <==> priority.Some? && Lower(priority.value) == "high"
    ensures r == Medium <==> priority.Some? && Lower(priority.value) == "medium"
    ensures r == Low <==> priority.None? || Lower(priority.value) !in {"critical", "high", "medium"}
  {
    if priority.None? then Low
    else
      var p := Lower(priority.value);
      if p == "critical" then Critical
      else if p == "high" then High
      else if p == "medium" then Medium
      else if p == "low" then Low
      else Low
  }

  /** Each level's own name parses back to it. */
  lemma ParsePriorityOfName(l: SeverityLevel)
    ensures ParsePriority(Some(SeverityName(l))) == l
  {
    match l
    case Low => assert Lower("Low") == "low";
    case Medium => assert Lower("Medium") == "medium";
    case High => assert Lower("High") == "high";
    case Critical => assert Lower("Critical") == "critical";
  }

  /** Upper- and lower-case spellings parse alike. */
  lemma ParsePriorityIgnoresCase(p: string)
    ensures ParsePriority(Some(Lower(p))) == ParsePriority(Some(p))
  {
    LowerIdempotent(p);
  }

  /** The dialog: its data and the level derived from the priority once, when it opens. */
  class Dialog {
    const data: WebModels.Refactoring
    const severityLevel: SeverityLevel

    constructor (data: WebModels.Refactoring)
      ensures this.data == data
      ensures severityLevel == ParsePriority(data.priority)
    {
      this.data := data;
      severityLevel := ParsePriority(data.priority);
    }

    /** `getLineRangeDisplay`, written out again in this component. */
    function LineRangeDisplay(): (r: string)
      ensures r == "" <==> data.lineNumber == 0
    {
      if data.lineNumber == 0 then ""
      else if data.endLineNumber.Some? && data.endLineNumber.value != 0 && data.endLineNumber.value != data.lineNumber then
        "Lines " + IntToString(data.lineNumber) + "-" + IntToString(data.endLineNumber.value)
      else "Line " + IntToString(data.lineNumber)
    }

    /** The refactoring dialog shows a line range exactly as the code detail dialog does. */
    lemma LineRangeAgrees()
      ensures LineRangeDisplay() == CodeDetailDialog.LineRangeDisplay(Some(data.lineNumber), data.endLineNumber)
    {
    }
  }
}
