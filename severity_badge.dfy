/** The severity badge: the label and the style class shown for a severity value. */
module SeverityBadge {
  import opened Text
  import opened Domain
  import opened WebModels
  import AnalysisResultPage

  /** ECMAScript `String(x)` for the values a severity input can hold that are not numbers. */
  function JsString(x: JsValue): (r: string)
    requires !x.Number?
    ensures x.Str? ==> r == x.text
  {
    match x
    case Str(text) => text
    case Undefined => "undefined"
    case Null => "null"
  }

  /**
   * `getSeverityString` (also what `displaySeverity` returns): a number is decoded by the API's
   * numeric encoding, any other value is shown as `String(severity)`.
   */
  function SeverityString(severity: JsValue): (r: string)
    ensures severity.Number? ==> r == SeverityName(SeverityOfNumber(severity.value))
    ensures severity.Str? ==> r == severity.text
  {
    if severity.Number? then SeverityName(SeverityOfNumber(severity.value)) else JsString(severity)
  }

  /** `getSeverityClass`: "severity-" followed by the lower-cased label. */
  function SeverityClass(severity: JsValue): (r: string)
    ensures |r| >= 9 && r[..9] == "severity-"
    ensures r[9..] == Lower(SeverityString(severity))
  {
    "severity-" + Lower(SeverityString(severity))
  }

  /**
   * The badge and the result page show a number or a string the same way; they part only on a
   * missing value, which the page shows as the default level and the badge as `String` renders it.
   */
  lemma BadgeAgreesWithPage(severity: JsValue)
    ensures severity.Number? || severity.Str? ==> SeverityString(severity) == AnalysisResultPage.MapSeverity(severity)
    ensures severity.Undefined? ==> SeverityString(severity) == "undefined" && AnalysisResultPage.MapSeverity(severity) == "Medium"
  {
  }

  /** A level's number and its name get the same badge. */
  lemma SeverityClassOfLevel(l: SeverityLevel)
    ensures SeverityClass(Number(SeverityValue(l) as real)) == SeverityClass(Str(SeverityName(l)))
    ensures SeverityString(Number(SeverityValue(l) as real)) == SeverityName(l)
  {
    SeverityOfNumberValue(l);
  }

  /** A number outside 1..4 gets the badge of the default level. */
  lemma SeverityClassDefault(v: real)
    requires v !in {1.0, 2.0, 3.0, 4.0}
    ensures SeverityClass(Number(v)) == "severity-" + Lower("Medium")
  {
  }

  /** Differently cased names of one level get the same class. */
  lemma SeverityClassIgnoresCase(a: string, b: string)
    requires Lower(a) == Lower(b)
    ensures SeverityClass(Str(a)) == SeverityClass(Str(b))
  {
  }
}
