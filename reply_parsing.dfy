/**
 * Turning a chat model's reply into findings: the reply is stripped of a Markdown code fence,
 * handed to the JSON deserializer, and each element is mapped onto a `Violation` or `Bug`,
 * with defaults for missing fields. Any failure yields an empty list.
 */
module ReplyParsing {
  import opened Wrappers
  import opened Text
  import opened Domain

  // ---------------------------------------------------------------- code fences

  /** `ExtractJsonFromResponse`: trim, drop an opening "```json" or "```" and a closing "```", trim again. */
  function ExtractJson(response: string): (r: string)
    ensures |r| <= |response|
    ensures r == [] || (!DotNetSpace(r[0]) && !DotNetSpace(r[|r| - 1]))
  {
    var cleaned := Trim(response);
    var body := WithoutClosingFence(WithoutOpeningFence(cleaned));
    assert |body| <= |response|;
    Trim(body)
  }

  /** The trimmed reply without one opening "```json", or else one opening "```". */
  function WithoutOpeningFence(cleaned: string): (r: string)
    ensures |r| <= |cleaned|
  {
    if StartsWith(cleaned, "```json") then cleaned[7..]
    else if StartsWith(cleaned, "```") then cleaned[3..]
    else cleaned
  }

  /** The text without one closing "```". */
  function WithoutClosingFence(unfenced: string): (r: string)
    ensures |r| <= |unfenced|
  {
    if EndsWith(unfenced, "```") then unfenced[..|unfenced| - 3] else unfenced
  }

  lemma TrimOfTrimmed(s: string)
    requires s == [] || (!DotNetSpace(s[0]) && !DotNetSpace(s[|s| - 1]))
    ensures Trim(s) == s
  {
  }

  /** A reply without fences is only trimmed. */
  lemma ExtractJsonUnfenced(response: string)
    requires !StartsWith(Trim(response), "```") && !EndsWith(Trim(response), "```")
    ensures ExtractJson(response) == Trim(response)
  {
    var cleaned := Trim(response);
    assert WithoutOpeningFence(cleaned) == cleaned;
    assert WithoutClosingFence(cleaned) == cleaned;
    TrimIdempotent(response, DotNetSpace);
  }

  /** A body wrapped in a "```json" fence comes back trimmed. */
  lemma ExtractJsonFenced(body: string)
    ensures ExtractJson("```json" + body + "```") == Trim(body)
  {
    var s := "```json" + body + "```";
    TrimOfTrimmed(s);
    assert s[..7] == "```json";
    assert s[7..] == body + "```";
    var unfenced := body + "```";
    assert unfenced[|unfenced| - 3..] == "```";
    assert unfenced[..|unfenced| - 3] == body;
  }

  /** A body wrapped in a bare "```" fence comes back trimmed, unless it starts with "json". */
  lemma ExtractJsonPlainFenced(body: string)
    requires !StartsWith(body, "json")
    ensures ExtractJson("```" + body + "```") == Trim(body)
  {
    var s := "```" + body + "```";
    TrimOfTrimmed(s);
    if 0 < |body| < 4 {
      assert s[3 + |body|..] == "```";
      assert s[6] == '`';
    } else if |body| >= 4 {
      assert s[3..7] == body[..4];
    }
    assert !StartsWith(s, "```json");
    assert s[..3] == "```";
    assert s[3..] == body + "```";
    var unfenced := body + "```";
    assert unfenced[|unfenced| - 3..] == "```";
    assert unfenced[..|unfenced| - 3] == body;
  }

  // ---------------------------------------------------------------- enumerations

  /** `ParseSeverity`: case-insensitive "critical", "high", "medium"; anything else, or null, is Low. */
  function ParseSeverity(severity: Option<string>): SeverityLevel
  {
    if severity.None? then Low
    else
      var s := Lower(severity.value);
      if s == "critical" then Critical
      else if s == "high" then High
      else if s == "medium" then Medium
      else Low
  }

  /** `ParseViolationType`: the eight lower-cased member names; anything else, or null, is BestPractice. */
  function ParseViolationType(kind: Option<string>): ViolationType
  {
    if kind.None? then BestPractice
    else
      var s := Lower(kind.value);
      if s == "namingconvention" then NamingConvention
      else if s == "architecture" then Architecture
      else if s == "security" then Security
      else if s == "performance" then Performance
      else if s == "codesmell" then CodeSmell
      else if s == "documentation" then Documentation
      else if s == "testing" then Testing
      else if s == "errorhandling" then ErrorHandling
      else BestPractice
  }

  /** Parsing a severity's own name gives it back. */
  lemma ParseSeverityName(s: SeverityLevel)
    ensures ParseSeverity(Some(SeverityName(s))) == s
  {
    match s
    case Low => assert Lower("Low") == "low";
    case Medium => assert Lower("Medium") == "medium";
    case High => assert Lower("High") == "high";
    case Critical => assert Lower("Critical") == "critical";
  }

  /** Parsing a violation type's own name gives it back. */
  lemma ParseViolationTypeName(t: ViolationType)
    ensures ParseViolationType(Some(ViolationTypeName(t))) == t
  {
    if t.NamingConvention? || t.Architecture? || t.Security? {
      ParseFirstTypeNames(t);
    } else if t.Performance? || t.CodeSmell? || t.Documentation? {
      ParseMiddleTypeNames(t);
    } else {
      ParseLastTypeNames(t);
    }
  }

  lemma ParseFirstTypeNames(t: ViolationType)
    requires t.NamingConvention? || t.Architecture? || t.Security?
    ensures ParseViolationType(Some(ViolationTypeName(t))) == t
  {
    match t
    case NamingConvention => assert Lower("NamingConvention") == "namingconvention";
    case Architecture => assert Lower("Architecture") == "architecture";
    case Security => assert Lower("Security") == "security";
  }

  lemma ParseMiddleTypeNames(t: ViolationType)
    requires t.Performance? || t.CodeSmell? || t.Documentation?
    ensures ParseViolationType(Some(ViolationTypeName(t))) == t
  {
    match t
    case Performance => assert Lower("Performance") == "performance";
    case CodeSmell => assert Lower("CodeSmell") == "codesmell";
    case Documentation => assert Lower("Documentation") == "documentation";
  }

  lemma ParseLastTypeNames(t: ViolationType)
    requires t.Testing? || t.ErrorHandling? || t.BestPractice?
    ensures ParseViolationType(Some(ViolationTypeName(t))) == t
  {
    match t
    case Testing => assert Lower("Testing") == "testing";
    case ErrorHandling => assert Lower("ErrorHandling") == "errorhandling";
    case BestPractice => assert Lower("BestPractice") == "bestpractice";
  }

  /** A missing severity, or one that is none of the three names, is Low. */
  lemma ParseSeverityFallback(severity: Option<string>)
    ensures ParseSeverity(severity) == Low <==>
      severity.None? || Lower(severity.value) !in ["critical", "high", "medium"]
  {
  }

  /** A missing type, or one that is none of the eight names, is BestPractice. */
  lemma ParseViolationTypeFallback(kind: Option<string>)
    ensures ParseViolationType(kind) == BestPractice <==>
      kind.None? || Lower(kind.value) !in ["namingconvention", "architecture", "security", "performance",
                                           "codesmell", "documentation", "testing", "errorhandling"]
  {
  }

  /** Both parsers ignore letter case. */
  lemma ParseIgnoresCase(s: string)
    ensures ParseSeverity(Some(Lower(s))) == ParseSeverity(Some(s))
    ensures ParseViolationType(Some(Lower(s))) == ParseViolationType(Some(s))
  {
    LowerIdempotent(s);
  }

  // ---------------------------------------------------------------- JSON lists

  /**
   * What `JsonSerializer.Deserialize<List<D>>` yields: an exception for malformed text, `null`
   * for the JSON literal null, or a list whose elements may themselves be null.
   */
  datatype Decoded<D> = Malformed | Null | Items(elems: seq<Option<D>>)

  predicate NoNullItem<D>(xs: seq<Option<D>>)
  {
    forall i :: 0 <= i < |xs| ==> xs[i].Some?
  }

  /**
   * `dtos?.Select(convert).ToList() ?? new List()` inside `try { } catch { return new List(); }`:
   * a malformed reply, a null list and a null element (whose conversion throws) all give [].
   */
  function ParseList<D, F>(response: string, decode: string -> Decoded<D>, convert: D -> F): (r: seq<F>)
    ensures decode(ExtractJson(response)).Items? && NoNullItem(decode(ExtractJson(response)).elems) ==>
      var xs := decode(ExtractJson(response)).elems;
      |r| == |xs| && forall i :: 0 <= i < |xs| ==> r[i] == convert(xs[i].value)
    ensures !(decode(ExtractJson(response)).Items? && NoNullItem(decode(ExtractJson(response)).elems)) ==> r == []
  {
    match decode(ExtractJson(response))
    case Items(xs) =>
      if NoNullItem(xs) then seq(|xs|, i requires 0 <= i < |xs| => convert(xs[i].value)) else []
    case _ => []
  }

  /** `value ?? fallback`. */
  function OrElse<T>(o: Option<T>, fallback: T): (r: T)
    ensures o.Some? ==> r == o.value
    ensures o.None? ==> r == fallback
  {
    if o.Some? then o.value else fallback
  }

  // ---------------------------------------------------------------- violations

  /** `ViolationDto`: every property may be absent except the line number, which defaults to 0. */
  datatype ViolationDto = ViolationDto(
    filePath: Option<string>,
    lineNumber: int,
    ruleName: Option<string>,
    description: Option<string>,
    kind: Option<string>,
    severity: Option<string>,
    codeSnippet: Option<string>,
    suggestedFix: Option<string>)

  /** The `new Violation { ... }` of `ParseViolationsFromResponse`; `FileId` and `EndLineNumber` keep their defaults. */
  function ToViolation(dto: ViolationDto): Violation
  {
    Violation(
      fileId := "",
      filePath := OrElse(dto.filePath, ""),
      lineNumber := dto.lineNumber,
      endLineNumber := 0,
      ruleName := OrElse(dto.ruleName, "Unknown Rule"),
      description := OrElse(dto.description, ""),
      kind := ParseViolationType(dto.kind),
      severity := ParseSeverity(dto.severity),
      codeSnippet := OrElse(dto.codeSnippet, ""),
      suggestedFix := OrElse(dto.suggestedFix, ""))
  }

  /** The DTO a model would send for a violation: every field present, enumerations by name. */
  function FromViolation(v: Violation): ViolationDto
  {
    ViolationDto(Some(v.filePath), v.lineNumber, Some(v.ruleName), Some(v.description),
      Some(ViolationTypeName(v.kind)), Some(SeverityName(v.severity)), Some(v.codeSnippet), Some(v.suggestedFix))
  }

  function ParseViolations(response: string, decode: string -> Decoded<ViolationDto>): seq<Violation>
  {
    ParseList(response, decode, ToViolation)
  }

  /** An empty JSON object becomes a low-severity best-practice violation named "Unknown Rule". */
  lemma EmptyViolationDto()
    ensures ToViolation(ViolationDto(None, 0, None, None, None, None, None, None))
      == Violation("", "", 0, 0, "Unknown Rule", "", BestPractice, Low, "", "")
  {
  }

  /** Every violation the parser can produce has no file id and no end line. */
  lemma ParsedViolationsDefaults(response: string, decode: string -> Decoded<ViolationDto>)
    ensures forall i :: 0 <= i < |ParseViolations(response, decode)| ==>
      ParseViolations(response, decode)[i].fileId == "" && ParseViolations(response, decode)[i].endLineNumber == 0
  {
  }

  /**
   * A reply that decodes to the DTOs of some violations gives those violations back, as long
   * as they carry the defaults the parser fills in (no file id, no end line).
   */
  lemma ViolationsRoundTrip(response: string, decode: string -> Decoded<ViolationDto>, vs: seq<Violation>)
    requires forall i :: 0 <= i < |vs| ==> vs[i].fileId == "" && vs[i].endLineNumber == 0
    requires decode(ExtractJson(response)) == Items(seq(|vs|, i requires 0 <= i < |vs| => Some(FromViolation(vs[i]))))
    ensures ParseViolations(response, decode) == vs
  {
    forall i | 0 <= i < |vs| ensures ToViolation(FromViolation(vs[i])) == vs[i] {
      ParseSeverityName(vs[i].severity);
      ParseViolationTypeName(vs[i].kind);
    }
  }

  // ---------------------------------------------------------------- bugs

  datatype BugDto = BugDto(
    filePath: Option<string>,
    lineNumber: int,
    title: Option<string>,
    description: Option<string>,
    rootCause: Option<string>,
    impact: Option<string>,
    severity: Option<string>,
    codeSnippet: Option<string>,
    reproductionSteps: Option<seq<string>>,
    suggestedFix: Option<string>)

  /** The `new Bug { ... }` of `ParseBugsFromResponse`; `FileId` keeps its default. */
  function ToBug(dto: BugDto): Bug
  {
    Bug(
      fileId := "",
      filePath := OrElse(dto.filePath, ""),
      lineNumber := dto.lineNumber,
      title := OrElse(dto.title, "Untitled Bug"),
      description := OrElse(dto.description, ""),
      rootCause := OrElse(dto.rootCause, ""),
      impact := OrElse(dto.impact, ""),
      severity := ParseSeverity(dto.severity),
      codeSnippet := OrElse(dto.codeSnippet, ""),
      reproductionSteps := OrElse(dto.reproductionSteps, []),
      suggestedFix := OrElse(dto.suggestedFix, ""))
  }

  function FromBug(b: Bug): BugDto
  {
    BugDto(Some(b.filePath), b.lineNumber, Some(b.title), Some(b.description), Some(b.rootCause),
      Some(b.impact), Some(SeverityName(b.severity)), Some(b.codeSnippet), Some(b.reproductionSteps), Some(b.suggestedFix))
  }

  function ParseBugs(response: string, decode: string -> Decoded<BugDto>): seq<Bug>
  {
    ParseList(response, decode, ToBug)
  }

  /** An empty JSON object becomes a low-severity "Untitled Bug" without reproduction steps. */
  lemma EmptyBugDto()
    ensures ToBug(BugDto(None, 0, None, None, None, None, None, None, None, None))
      == Bug("", "", 0, "Untitled Bug", "", "", "", Low, "", [], "")
  {
  }

  lemma BugsRoundTrip(response: string, decode: string -> Decoded<BugDto>, bs: seq<Bug>)
    requires forall i :: 0 <= i < |bs| ==> bs[i].fileId == ""
    requires decode(ExtractJson(response)) == Items(seq(|bs|, i requires 0 <= i < |bs| => Some(FromBug(bs[i]))))
    ensures ParseBugs(response, decode) == bs
  {
    forall i | 0 <= i < |bs| ensures ToBug(FromBug(bs[i])) == bs[i] {
      ParseSeverityName(bs[i].severity);
    }
  }

  // ---------------------------------------------------------------- standards

  datatype StandardDto = StandardDto(
    name: Option<string>,
    description: Option<string>,
    category: Option<string>,
    examples: Option<seq<string>>)

  /** The `new Standard { ... }` of `ParseStandardsFromResponse`; tech stack, priority and tags stay empty. */
  function ToStandard(dto: StandardDto, sourceFile: string, isFromDocs: bool): Standard
  {
    Standard(
      name := OrElse(dto.name, "Unnamed Standard"),
      description := OrElse(dto.description, ""),
      category := OrElse(dto.category, "General"),
      techStack := "",
      priority := "",
      isFromExistingDocs := isFromDocs,
      sourceFile := sourceFile,
      examples := OrElse(dto.examples, []),
      tags := [])
  }

  function ParseStandards(response: string, decode: string -> Decoded<StandardDto>, sourceFile: string, isFromDocs: bool): seq<Standard>
  {
    ParseList(response, decode, dto => ToStandard(dto, sourceFile, isFromDocs))
  }

  /** Every parsed standard is attributed to the given source and origin. */
  lemma ParsedStandardsOrigin(response: string, decode: string -> Decoded<StandardDto>, sourceFile: string, isFromDocs: bool)
    ensures forall i :: 0 <= i < |ParseStandards(response, decode, sourceFile, isFromDocs)| ==>
      var st := ParseStandards(response, decode, sourceFile, isFromDocs)[i];
      st.sourceFile == sourceFile && st.isFromExistingDocs == isFromDocs && st.techStack == "" && st.tags == []
  {
  }

  lemma EmptyStandardDto(sourceFile: string, isFromDocs: bool)
    ensures ToStandard(StandardDto(None, None, None, None), sourceFile, isFromDocs)
      == Standard("Unnamed Standard", "", "General", "", "", isFromDocs, sourceFile, [], [])
  {
  }
}
