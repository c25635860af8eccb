/**
 * The values the Angular front end works on: the `SeverityLevel` enumeration of the web models,
 * untyped values that arrive from the API, and the records the pages and dialogs read.
 * ECMAScript numbers are modelled as `real` (NaN and the infinities are not part of the model).
 */
module WebModels {
  import opened Wrappers
  import opened Domain

  /** A value of type `any` as the front end tests it with `typeof`. */
  datatype JsValue = Number(value: real) | Str(text: string) | Undefined | Null

  /**
   * The numeric encoding the API uses for severities, as both `switch` statements over a
   * number decode it: 1..4 are the four levels and every other number is Medium.
   */
  function SeverityOfNumber(v: real): (r: SeverityLevel)
    ensures v == SeverityValue(r) as real || (r == Medium && v !in {1.0, 2.0, 3.0, 4.0})
  {
    if v == 1.0 then Low
    else if v == 2.0 then Medium
    else if v == 3.0 then High
    else if v == 4.0 then Critical
    else Medium
  }

  /** Decoding the number of a level gives that level back. */
  lemma SeverityOfNumberValue(l: SeverityLevel)
    ensures SeverityOfNumber(SeverityValue(l) as real) == l
  {
  }

  /**
   * `SeverityLevel[key]` on the string enumeration: the member whose name is `key`, if any.
   * The enumeration's values are its member names ("Low" .. "Critical").
   */
  function LevelNamed(key: string): (r: Option<SeverityLevel>)
    ensures r.Some? ==> SeverityName(r.value) == key
    ensures r.None? ==> forall l :: SeverityName(l) != key
  {
    if key == "Low" then Some(Low)
    else if key == "Medium" then Some(Medium)
    else if key == "High" then Some(High)
    else if key == "Critical" then Some(Critical)
    else None
  }

  /** The front-end `Standard` record, with the fields the standards page reads. */
  datatype Standard = Standard(id: string, name: string, category: string, isFromExistingDocs: bool)

  /** The front-end `Refactoring` record, with the fields the refactoring dialog reads. */
  datatype Refactoring = Refactoring(id: string, title: string, lineNumber: int, endLineNumber: Option<int>, priority: Option<string>)

  /** A violation or a bug of a file, reduced to the severity the result page counts. */
  datatype Finding = Finding(severity: JsValue)

  /** The front-end `CodeFile` record, with the fields the result page reads. */
  datatype CodeFile = CodeFile(fileName: string, violations: seq<Finding>, bugs: seq<Finding>)
}
