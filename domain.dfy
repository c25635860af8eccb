/**
 * The entities and enumerations of the analysis backend. Generated identifiers (GUIDs), time
 * stamps other than the report's, and floating-point fields are not part of these values.
 */
module Domain {
  import opened Wrappers
  import opened Collections

  /** `SeverityLevel`: Low = 1, Medium = 2, High = 3, Critical = 4. */
  datatype SeverityLevel = Low | Medium | High | Critical

  function SeverityValue(s: SeverityLevel): int
  {
    match s
    case Low => 1
    case Medium => 2
    case High => 3
    case Critical => 4
  }

  /** `SeverityLevel.ToString()`. */
  function SeverityName(s: SeverityLevel): string
  {
    match s
    case Low => "Low"
    case Medium => "Medium"
    case High => "High"
    case Critical => "Critical"
  }

  datatype ViolationType =
    | NamingConvention | Architecture | Security | Performance | CodeSmell
    | Documentation | Testing | ErrorHandling | BestPractice

  /** `ViolationType.ToString()`: the member's own name. */
  function ViolationTypeName(t: ViolationType): string
  {
    match t
    case NamingConvention => "NamingConvention"
    case Architecture => "Architecture"
    case Security => "Security"
    case Performance => "Performance"
    case CodeSmell => "CodeSmell"
    case Documentation => "Documentation"
    case Testing => "Testing"
    case ErrorHandling => "ErrorHandling"
    case BestPractice => "BestPractice"
  }

  datatype DuplicationType = ExactMatch | StructuralMatch | LogicalMatch | FunctionalMatch | PartialMatch

  datatype FileType =
    | Unknown
    | CSharp | VisualBasic | FSharp
    | TypeScript | JavaScript | HTML | CSS
    | Java | Kotlin | Scala | Groovy
    | Python | PHP | Ruby | Go | Rust
    | C | CPlusPlus | ObjectiveC | Swift
    | SQL
    | JSON | XML | YAML | Markdown
    | Configuration
    | ASPX | ASCX | ASMX | ASPNET
    | JSX | TSX
    | Vue | Svelte
    | Dart
    | Shell | PowerShell
    | Perl | R | Lua | Elixir | Haskell

  /** `FileType.ToString()`: the member's own name. */
  function FileTypeName(t: FileType): string
  {
    match t
    case Unknown => "Unknown"
    case CSharp => "CSharp"
    case VisualBasic => "VisualBasic"
    case FSharp => "FSharp"
    case TypeScript => "TypeScript"
    case JavaScript => "JavaScript"
    case HTML => "HTML"
    case CSS => "CSS"
    case Java => "Java"
    case Kotlin => "Kotlin"
    case Scala => "Scala"
    case Groovy => "Groovy"
    case Python => "Python"
    case PHP => "PHP"
    case Ruby => "Ruby"
    case Go => "Go"
    case Rust => "Rust"
    case C => "C"
    case CPlusPlus => "CPlusPlus"
    case ObjectiveC => "ObjectiveC"
    case Swift => "Swift"
    case SQL => "SQL"
    case JSON => "JSON"
    case XML => "XML"
    case YAML => "YAML"
    case Markdown => "Markdown"
    case Configuration => "Configuration"
    case ASPX => "ASPX"
    case ASCX => "ASCX"
    case ASMX => "ASMX"
    case ASPNET => "ASPNET"
    case JSX => "JSX"
    case TSX => "TSX"
    case Vue => "Vue"
    case Svelte => "Svelte"
    case Dart => "Dart"
    case Shell => "Shell"
    case PowerShell => "PowerShell"
    case Perl => "Perl"
    case R => "R"
    case Lua => "Lua"
    case Elixir => "Elixir"
    case Haskell => "Haskell"
  }

  datatype CodeFile = CodeFile(
    filePath: string,
    fileName: string,
    fileType: FileType,
    content: string,
    lineCount: int,
    sizeInBytes: int)

  datatype Violation = Violation(
    fileId: string,
    filePath: string,
    lineNumber: int,
    endLineNumber: int,
    ruleName: string,
    description: string,
    kind: ViolationType,
    severity: SeverityLevel,
    codeSnippet: string,
    suggestedFix: string)

  datatype Bug = Bug(
    fileId: string,
    filePath: string,
    lineNumber: int,
    title: string,
    description: string,
    rootCause: string,
    impact: string,
    severity: SeverityLevel,
    codeSnippet: string,
    reproductionSteps: seq<string>,
    suggestedFix: string)

  datatype Refactoring = Refactoring(
    filePath: string,
    lineNumber: int,
    endLineNumber: int,
    refactoringType: string,
    title: string,
    description: string,
    currentCode: string,
    suggestedCode: string,
    reason: string,
    benefits: string,
    priority: SeverityLevel,
    improvementAreas: seq<string>)

  datatype DuplicationLocation = DuplicationLocation(
    filePath: string,
    startLine: int,
    endLine: int,
    methodName: string,
    className: string)

  datatype CodeDuplication = CodeDuplication(
    duplicatedCode: string,
    locations: seq<DuplicationLocation>,
    kind: DuplicationType,
    lineCount: int,
    description: string,
    suggestion: string,
    impact: SeverityLevel,
    refactoringOptions: seq<string>,
    estimatedEffort: string)

  datatype Standard = Standard(
    name: string,
    description: string,
    category: string,
    techStack: string,
    priority: string,
    isFromExistingDocs: bool,
    sourceFile: string,
    examples: seq<string>,
    tags: seq<string>)

  datatype Repository = Repository(
    id: string,
    name: string,
    uploadPath: string,
    sizeInBytes: int,
    files: seq<CodeFile>,
    hasExistingStandards: bool,
    standards: seq<Standard>)

  datatype ProjectSummary = ProjectSummary(
    projectName: string,
    description: string,
    technologyStack: string,
    architecture: string,
    businessLogic: string,
    coreFunctionality: string,
    keyFeatures: seq<string>,
    folderStructure: Tally<string>,
    fileTypeDistribution: Tally<string>,
    mainComponents: seq<string>,
    primaryLanguage: string,
    dependencies: seq<string>)

  /** The histograms are `Dictionary<string, int>` values, kept with their insertion order. */
  datatype AnalysisReport = AnalysisReport(
    id: string,
    repositoryId: string,
    repositoryName: string,
    generatedAt: int,
    totalFiles: int,
    filesWithViolations: int,
    filesWithBugs: int,
    filesNeedingRefactoring: int,
    filesWithDuplications: int,
    totalViolations: int,
    totalBugs: int,
    totalRefactorings: int,
    totalDuplications: int,
    totalDuplicatedLines: int,
    executionTime: string,
    violationsBySeverity: Tally<string>,
    bugsBySeverity: Tally<string>,
    refactoringsByPriority: Tally<string>,
    duplicationsByImpact: Tally<string>,
    violations: seq<Violation>,
    bugs: seq<Bug>,
    refactorings: seq<Refactoring>,
    duplications: seq<CodeDuplication>,
    standards: seq<Standard>,
    summary: string,
    projectSummary: Option<ProjectSummary>)
}
