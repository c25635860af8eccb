/**
 * The rule-based standards generator: it detects which technology stacks a project has, reads
 * its folder names for architectural hints, scans its sources for coding patterns, and turns
 * those findings into a list of coding standards per detected stack.
 */
module StandardsGenerator {
  import opened Text
  import opened Collections
  import opened Paths
  import opened Domain

  // ---------------------------------------------------------------- technology stacks

  /** The stack names `DetectTechStacks` puts into its set. */
  datatype TechStack = Api | Ui | Database | General

  function TechStackName(s: TechStack): string
  {
    match s
    case Api => "API"
    case Ui => "UI"
    case Database => "Database"
    case General => "General"
  }

  predicate HasFileType(files: seq<CodeFile>, t: FileType)
  {
    exists i :: 0 <= i < |files| && files[i].fileType == t
  }

  /** A lowercased file name that mentions a controller, a service or a repository. */
  predicate NamesServerRole(name: string)
  {
    var n := Lower(name);
    Contains(n, "controller") || Contains(n, "service") || Contains(n, "repository")
  }

  /** A lowercased path that mentions a repository, data or persistence. */
  predicate NamesDataAccess(path: string)
  {
    var p := Lower(path);
    Contains(p, "repository") || Contains(p, "data") || Contains(p, "persistence")
  }

  /** A C# file exists and some file name names a controller, service or repository. */
  predicate ApiDetected(files: seq<CodeFile>)
  {
    HasFileType(files, CSharp) && exists i :: 0 <= i < |files| && NamesServerRole(files[i].fileName)
  }

  predicate UiDetected(files: seq<CodeFile>)
  {
    HasFileType(files, TypeScript) || HasFileType(files, HTML)
  }

  predicate DatabaseDetected(files: seq<CodeFile>)
  {
    exists i :: 0 <= i < |files| && NamesDataAccess(files[i].filePath)
  }

  /**
   * The set after the three conditional additions and the unconditional one. The set is only
   * ever added to, so enumerating it yields the stacks in the order they were first added.
   */
  function StackList(api: bool, ui: bool, db: bool): (r: seq<TechStack>)
    ensures (Api in r <==> api) && (Ui in r <==> ui) && (Database in r <==> db) && General in r
    ensures r[|r| - 1] == General
    ensures api ==> r[0] == Api
    ensures Distinct(r)
  {
    (if api then [Api] else []) + (if ui then [Ui] else []) + (if db then [Database] else []) + [General]
  }

  /** `DetectTechStacks`, with the stacks in insertion order. */
  function DetectTechStacks(files: seq<CodeFile>): (r: seq<TechStack>)
    ensures General in r && r[|r| - 1] == General
    ensures Api in r <==> HasFileType(files, CSharp) && exists i :: 0 <= i < |files| && NamesServerRole(files[i].fileName)
    ensures Ui in r <==> HasFileType(files, TypeScript) || HasFileType(files, HTML)
    ensures Database in r <==> exists i :: 0 <= i < |files| && NamesDataAccess(files[i].filePath)
    ensures Distinct(r) && |r| <= 4
  {
    StackList(ApiDetected(files), UiDetected(files), DatabaseDetected(files))
  }

  // ---------------------------------------------------------------- project structure

  /** `ProjectAnalysis`; `HasModelsFolder` and `HasInfrastructureFolder` are never assigned. */
  datatype ProjectAnalysis = ProjectAnalysis(
    usesCleanArchitecture: bool,
    usesFeatureBasedOrganization: bool,
    hasControllerFolder: bool,
    hasServiceFolder: bool,
    hasRepositoryFolder: bool,
    hasModelsFolder: bool,
    hasComponentsFolder: bool,
    hasSharedFolder: bool,
    hasCoreFolder: bool,
    hasFeaturesFolder: bool,
    hasInfrastructureFolder: bool,
    hasModelFolder: bool,
    hasInterfaceFolder: bool,
    hasServicesFolder: bool,
    componentCount: nat,
    serviceCount: nat,
    controllerCount: nat)

  /**
   * Some file's directory name contains `p`, ignoring case; `p` is written in lower case, so
   * this is the source's `OrdinalIgnoreCase` test. The source first removes duplicate
   * directory names, which does not change whether any of them matches.
   */
  predicate SomeDirectory(files: seq<CodeFile>, p: string)
  {
    exists i :: 0 <= i < |files| && Contains(Lower(DirectoryName(files[i].filePath)), p)
  }

  /** The file name ends in ".component.ts", ignoring case. */
  predicate IsComponentFile(f: CodeFile)
  {
    EndsWith(Lower(f.fileName), ".component.ts")
  }

  predicate IsServiceFile(f: CodeFile)
  {
    EndsWith(Lower(f.fileName), ".service.ts") || Contains(Lower(f.fileName), "service.cs")
  }

  predicate IsControllerFile(f: CodeFile)
  {
    EndsWith(Lower(f.fileName), "controller.cs")
  }

  /** `AnalyzeProjectStructure`: folder hints and file counts. */
  function AnalyzeProjectStructure(files: seq<CodeFile>): (r: ProjectAnalysis)
    ensures !r.hasModelsFolder && !r.hasInfrastructureFolder
    ensures r.componentCount <= |files| && r.serviceCount <= |files| && r.controllerCount <= |files|
  {
    ProjectAnalysis(
      usesCleanArchitecture := SomeDirectory(files, "domain") && SomeDirectory(files, "application") && SomeDirectory(files, "infrastructure"),
      usesFeatureBasedOrganization := SomeDirectory(files, "features"),
      hasControllerFolder := SomeDirectory(files, "controller"),
      hasServiceFolder := SomeDirectory(files, "service"),
      hasRepositoryFolder := SomeDirectory(files, "repository") || SomeDirectory(files, "persistence"),
      hasModelsFolder := false,
      hasComponentsFolder := SomeDirectory(files, "component"),
      hasSharedFolder := SomeDirectory(files, "shared") || SomeDirectory(files, "common"),
      hasCoreFolder := SomeDirectory(files, "core"),
      hasFeaturesFolder := SomeDirectory(files, "feature"),
      hasInfrastructureFolder := false,
      hasModelFolder := SomeDirectory(files, "model") || SomeDirectory(files, "entities") || SomeDirectory(files, "domain"),
      hasInterfaceFolder := SomeDirectory(files, "interface"),
      hasServicesFolder := SomeDirectory(files, "service"),
      componentCount := CountWhere(files, IsComponentFile),
      serviceCount := CountWhere(files, IsServiceFile),
      controllerCount := CountWhere(files, IsControllerFile))
  }

  /**
   * Clean Architecture is detected exactly when the directory names mention "Domain",
   * "Application" and "Infrastructure", ignoring case, each in some directory (not necessarily
   * the same one).
   */
  lemma CleanArchitectureDetection(files: seq<CodeFile>)
    ensures AnalyzeProjectStructure(files).usesCleanArchitecture <==>
      ((exists i :: 0 <= i < |files| && ContainsIgnoreCase(DirectoryName(files[i].filePath), "Domain"))
       && (exists i :: 0 <= i < |files| && ContainsIgnoreCase(DirectoryName(files[i].filePath), "Application"))
       && (exists i :: 0 <= i < |files| && ContainsIgnoreCase(DirectoryName(files[i].filePath), "Infrastructure")))
  {
    assert Lower("Domain") == "domain";
    assert Lower("Application") == "application";
    assert Lower("Infrastructure") == "infrastructure";
  }

  /**
   * The folder flags overlap: a Clean Architecture project has a model folder (its Domain
   * layer), a feature-organised one has a feature folder, and the two "service" checks agree
   * because both ignore case.
   */
  lemma ProjectAnalysisOverlaps(files: seq<CodeFile>)
    ensures AnalyzeProjectStructure(files).usesCleanArchitecture ==> AnalyzeProjectStructure(files).hasModelFolder
    ensures AnalyzeProjectStructure(files).usesFeatureBasedOrganization ==> AnalyzeProjectStructure(files).hasFeaturesFolder
    ensures AnalyzeProjectStructure(files).hasServicesFolder == AnalyzeProjectStructure(files).hasServiceFolder
  {
    if SomeDirectory(files, "features") {
      FeaturesFolderIsFeatureFolder(files);
    }
  }

  lemma FeaturesFolderIsFeatureFolder(files: seq<CodeFile>)
    requires SomeDirectory(files, "features")
    ensures SomeDirectory(files, "feature")
  {
    var i :| 0 <= i < |files| && Contains(Lower(DirectoryName(files[i].filePath)), "features");
    assert "features"[..|"feature"|] == "feature";
    ContainsPrefix(Lower(DirectoryName(files[i].filePath)), "features", "feature");
  }

  // ---------------------------------------------------------------- code patterns

  /** `\w` over ASCII: letters, digits and the underscore. */
  predicate IsWordChar(c: char)
  {
    'a' <= c <= 'z' || 'A' <= c <= 'Z' || '0' <= c <= '9' || c == '_'
  }

  predicate AllSpaces(s: string, i: int, j: int)
    requires 0 <= i <= j <= |s|
  {
    forall k :: i <= k < j ==> DotNetSpace(s[k])
  }

  predicate AllWordChars(s: string, i: int, j: int)
    requires 0 <= i <= j <= |s|
  {
    forall k :: i <= k < j ==> IsWordChar(s[k])
  }

  predicate NoCloseParen(s: string, i: int, j: int)
    requires 0 <= i <= j <= |s|
  {
    forall k :: i <= k < j ==> s[k] != ')'
  }

  /**
   * `public\s+\w+\([^)]*I\w+[^)]*\)` matches with "public" at `a`, the type name from `b`, the
   * opening parenthesis at `c`, the interface's `I` at `d` and the closing parenthesis at `e`.
   */
  predicate InjectionMatchAt(s: string, a: int, b: int, c: int, d: int, e: int)
  {
    0 <= a && a + 6 < b < c < d && d + 1 < e < |s|
    && s[a..a + 6] == "public" && AllSpaces(s, a + 6, b) && AllWordChars(s, b, c)
    && s[c] == '(' && NoCloseParen(s, c + 1, d)
    && s[d] == 'I' && IsWordChar(s[d + 1]) && NoCloseParen(s, d + 1, e) && s[e] == ')'
  }

  /** From `j`: the `I` of an interface type, a name character, and later a closing parenthesis, with none before it. */
  predicate ParamsWithInterface(s: string, j: nat)
    decreases |s| - j
  {
    j < |s| && s[j] != ')'
    && ((s[j] == 'I' && j + 1 < |s| && IsWordChar(s[j + 1]) && CloseParenFrom(s, j + 2)) || ParamsWithInterface(s, j + 1))
  }

  /** A closing parenthesis at `k` or later. */
  predicate CloseParenFrom(s: string, k: nat)
    decreases |s| - k
  {
    k < |s| && (s[k] == ')' || CloseParenFrom(s, k + 1))
  }

  /** From `j`: the rest of the type name, the opening parenthesis and parameters taking an interface. */
  predicate NameThenParams(s: string, j: nat)
    decreases |s| - j
  {
    j < |s| && ((IsWordChar(s[j]) && NameThenParams(s, j + 1)) || (s[j] == '(' && ParamsWithInterface(s, j + 1)))
  }

  /** From `j`: more white space, or the first character of the type name and what must follow it. */
  predicate SpacesThenName(s: string, j: nat)
    decreases |s| - j
  {
    j < |s| && ((DotNetSpace(s[j]) && SpacesThenName(s, j + 1)) || (IsWordChar(s[j]) && NameThenParams(s, j + 1)))
  }

  /** A match of the injection pattern starts at `i` or later. */
  predicate InjectionFrom(s: string, i: nat)
    decreases |s| - i
  {
    i + 6 < |s|
    && ((StartsAt(s, "public", i) && DotNetSpace(s[i + 6]) && SpacesThenName(s, i + 7)) || InjectionFrom(s, i + 1))
  }

  /**
   * `Regex.IsMatch(content, @"public\s+\w+\([^)]*I\w+[^)]*\)")`: a constructor taking an interface,
   * searched left to right.
   */
  predicate InjectsInterface(s: string)
  {
    InjectionFrom(s, 0)
  }

  /** `interface\s+I\w+` matches with "interface" at `a` and the name's `I` at `b`. */
  predicate InterfaceMatchAt(s: string, a: int, b: int)
  {
    0 <= a && a + 9 < b && b + 1 < |s| && s[a..a + 9] == "interface" && AllSpaces(s, a + 9, b)
    && s[b] == 'I' && IsWordChar(s[b + 1])
  }

  /** From `j`: more white space, or an `I` followed by a name character. */
  predicate SpacesThenInterfaceName(s: string, j: nat)
    decreases |s| - j
  {
    j + 1 < |s| && ((DotNetSpace(s[j]) && SpacesThenInterfaceName(s, j + 1)) || (s[j] == 'I' && IsWordChar(s[j + 1])))
  }

  /** A match of the interface pattern starts at `i` or later. */
  predicate InterfaceFrom(s: string, i: nat)
    decreases |s| - i
  {
    i + 9 < |s|
    && ((StartsAt(s, "interface", i) && DotNetSpace(s[i + 9]) && SpacesThenInterfaceName(s, i + 10)) || InterfaceFrom(s, i + 1))
  }

  /** `Regex.IsMatch(content, @"interface\s+I\w+")`, searched left to right. */
  predicate DeclaresInterface(s: string)
  {
    InterfaceFrom(s, 0)
  }

  // The scanning predicates find exactly the matches described by the position predicates.

  lemma {:induction false} CloseParenFromSound(s: string, k: nat)
    requires CloseParenFrom(s, k)
    ensures exists e :: k <= e < |s| && NoCloseParen(s, k, e) && s[e] == ')'
    decreases |s| - k
  {
    if s[k] != ')' {
      CloseParenFromSound(s, k + 1);
      var e :| k + 1 <= e < |s| && NoCloseParen(s, k + 1, e) && s[e] == ')';
      assert NoCloseParen(s, k, e);
    } else {
      assert NoCloseParen(s, k, k);
    }
  }

  lemma {:induction false} CloseParenFromComplete(s: string, k: nat, e: int)
    requires k <= e < |s| && s[e] == ')'
    ensures CloseParenFrom(s, k)
    decreases e - k
  {
    if k < e {
      CloseParenFromComplete(s, k + 1, e);
    }
  }

  /** The parameter list from `j`: an interface type before the first closing parenthesis. */
  predicate ParamsMatchAt(s: string, j: int, d: int, e: int)
  {
    0 <= j <= d && d + 1 < e < |s| && NoCloseParen(s, j, d)
    && s[d] == 'I' && IsWordChar(s[d + 1]) && NoCloseParen(s, d + 1, e) && s[e] == ')'
  }

  lemma {:induction false} ParamsSound(s: string, j: nat)
    requires ParamsWithInterface(s, j)
    ensures exists d, e :: ParamsMatchAt(s, j, d, e)
    decreases |s| - j
  {
    if s[j] == 'I' && j + 1 < |s| && IsWordChar(s[j + 1]) && CloseParenFrom(s, j + 2) {
      CloseParenFromSound(s, j + 2);
      var e :| j + 2 <= e < |s| && NoCloseParen(s, j + 2, e) && s[e] == ')';
      assert ParamsMatchAt(s, j, j, e);
    } else {
      ParamsSound(s, j + 1);
      var d, e :| ParamsMatchAt(s, j + 1, d, e);
      assert ParamsMatchAt(s, j, d, e);
    }
  }

  lemma {:induction false} ParamsComplete(s: string, j: nat, d: int, e: int)
    requires ParamsMatchAt(s, j, d, e)
    ensures ParamsWithInterface(s, j)
    decreases d - j
  {
    if j < d {
      ParamsComplete(s, j + 1, d, e);
    } else {
      CloseParenFromComplete(s, j + 2, e);
    }
  }

  /** The rest of a type name from `j`, then '(' at `c` and the parameter list. */
  predicate NameMatchAt(s: string, j: int, c: int, d: int, e: int)
  {
    0 <= j <= c < |s| && AllWordChars(s, j, c) && s[c] == '(' && ParamsMatchAt(s, c + 1, d, e)
  }

  lemma {:induction false} NameSound(s: string, j: nat)
    requires NameThenParams(s, j)
    ensures exists c, d, e :: NameMatchAt(s, j, c, d, e)
    decreases |s| - j
  {
    if s[j] == '(' && ParamsWithInterface(s, j + 1) {
      ParamsSound(s, j + 1);
      var d, e :| ParamsMatchAt(s, j + 1, d, e);
      assert NameMatchAt(s, j, j, d, e);
    } else {
      NameSound(s, j + 1);
      var c, d, e :| NameMatchAt(s, j + 1, c, d, e);
      assert NameMatchAt(s, j, c, d, e);
    }
  }

  lemma {:induction false} NameComplete(s: string, j: nat, c: int, d: int, e: int)
    requires NameMatchAt(s, j, c, d, e)
    ensures NameThenParams(s, j)
    decreases c - j
  {
    if j < c {
      NameComplete(s, j + 1, c, d, e);
    } else {
      ParamsComplete(s, c + 1, d, e);
    }
  }

  /** More white space from `j`, the type name from `b`, and the rest of the pattern. */
  predicate SpacedNameMatchAt(s: string, j: int, b: int, c: int, d: int, e: int)
  {
    0 <= j <= b < c && ParamsMatchAt(s, c + 1, d, e)
    && AllSpaces(s, j, b) && AllWordChars(s, b, c) && s[c] == '('
  }

  lemma {:induction false} SpacesSound(s: string, j: nat)
    requires SpacesThenName(s, j)
    ensures exists b, c, d, e :: SpacedNameMatchAt(s, j, b, c, d, e)
    decreases |s| - j
  {
    if IsWordChar(s[j]) && NameThenParams(s, j + 1) {
      NameSound(s, j + 1);
      var c, d, e :| NameMatchAt(s, j + 1, c, d, e);
      assert SpacedNameMatchAt(s, j, j, c, d, e);
    } else {
      SpacesSound(s, j + 1);
      var b, c, d, e :| SpacedNameMatchAt(s, j + 1, b, c, d, e);
      assert SpacedNameMatchAt(s, j, b, c, d, e);
    }
  }

  lemma {:induction false} SpacesComplete(s: string, j: nat, b: int, c: int, d: int, e: int)
    requires SpacedNameMatchAt(s, j, b, c, d, e)
    ensures SpacesThenName(s, j)
    decreases b - j
  {
    if j < b {
      SpacesComplete(s, j + 1, b, c, d, e);
    } else {
      NameComplete(s, b + 1, c, d, e);
    }
  }

  lemma {:induction false} InjectionFromSound(s: string, i: nat)
    requires InjectionFrom(s, i)
    ensures exists a, b, c, d, e :: i <= a && InjectionMatchAt(s, a, b, c, d, e)
    decreases |s| - i
  {
    if StartsAt(s, "public", i) && DotNetSpace(s[i + 6]) && SpacesThenName(s, i + 7) {
      StartsAtMatch(s, "public", i);
      SpacesSound(s, i + 7);
      var b, c, d, e :| SpacedNameMatchAt(s, i + 7, b, c, d, e);
      assert InjectionMatchAt(s, i, b, c, d, e);
    } else {
      InjectionFromSound(s, i + 1);
    }
  }

  lemma {:induction false} InjectionFromComplete(s: string, i: nat, a: int, b: int, c: int, d: int, e: int)
    requires i <= a && InjectionMatchAt(s, a, b, c, d, e)
    ensures InjectionFrom(s, i)
    decreases a - i
  {
    if i < a {
      InjectionFromComplete(s, i + 1, a, b, c, d, e);
    } else {
      StartsAtMatch(s, "public", a);
      assert SpacedNameMatchAt(s, a + 7, b, c, d, e);
      SpacesComplete(s, a + 7, b, c, d, e);
    }
  }

  /** The injection scan is the regular expression's `IsMatch`: some match exists. */
  lemma InjectsInterfaceMatches(s: string)
    ensures InjectsInterface(s) <==> exists a, b, c, d, e :: InjectionMatchAt(s, a, b, c, d, e)
  {
    if InjectsInterface(s) {
      InjectionFromSound(s, 0);
    }
    if exists a, b, c, d, e :: InjectionMatchAt(s, a, b, c, d, e) {
      var a, b, c, d, e :| InjectionMatchAt(s, a, b, c, d, e);
      InjectionFromComplete(s, 0, a, b, c, d, e);
    }
  }

  lemma {:induction false} InterfaceNameSound(s: string, j: nat)
    requires SpacesThenInterfaceName(s, j)
    ensures exists b :: j <= b && b + 1 < |s| && AllSpaces(s, j, b) && s[b] == 'I' && IsWordChar(s[b + 1])
    decreases |s| - j
  {
    if s[j] == 'I' && IsWordChar(s[j + 1]) {
      assert AllSpaces(s, j, j);
    } else {
      InterfaceNameSound(s, j + 1);
      var b :| j + 1 <= b && b + 1 < |s| && AllSpaces(s, j + 1, b) && s[b] == 'I' && IsWordChar(s[b + 1]);
      assert AllSpaces(s, j, b);
    }
  }

  lemma {:induction false} InterfaceNameComplete(s: string, j: nat, b: int)
    requires j <= b && b + 1 < |s| && AllSpaces(s, j, b) && s[b] == 'I' && IsWordChar(s[b + 1])
    ensures SpacesThenInterfaceName(s, j)
    decreases b - j
  {
    if j < b {
      InterfaceNameComplete(s, j + 1, b);
    }
  }

  lemma {:induction false} InterfaceFromSound(s: string, i: nat)
    requires InterfaceFrom(s, i)
    ensures exists a, b :: i <= a && InterfaceMatchAt(s, a, b)
    decreases |s| - i
  {
    if StartsAt(s, "interface", i) && DotNetSpace(s[i + 9]) && SpacesThenInterfaceName(s, i + 10) {
      StartsAtMatch(s, "interface", i);
      InterfaceNameSound(s, i + 10);
      var b :| i + 10 <= b && b + 1 < |s| && AllSpaces(s, i + 10, b) && s[b] == 'I' && IsWordChar(s[b + 1]);
      assert InterfaceMatchAt(s, i, b);
    } else {
      InterfaceFromSound(s, i + 1);
    }
  }

  lemma {:induction false} InterfaceFromComplete(s: string, i: nat, a: int, b: int)
    requires i <= a && InterfaceMatchAt(s, a, b)
    ensures InterfaceFrom(s, i)
    decreases a - i
  {
    if i < a {
      InterfaceFromComplete(s, i + 1, a, b);
    } else {
      StartsAtMatch(s, "interface", a);
      InterfaceNameComplete(s, a + 10, b);
    }
  }

  /** The interface scan is the regular expression's `IsMatch`: some match exists. */
  lemma DeclaresInterfaceMatches(s: string)
    ensures DeclaresInterface(s) <==> exists a, b :: InterfaceMatchAt(s, a, b)
  {
    if DeclaresInterface(s) {
      InterfaceFromSound(s, 0);
    }
    if exists a, b :: InterfaceMatchAt(s, a, b) {
      var a, b :| InterfaceMatchAt(s, a, b);
      InterfaceFromComplete(s, 0, a, b);
    }
  }

  /** The flags of `CodePatterns`. */
  datatype Pattern =
    | AsyncAwait | DependencyInjection | TryCatch | ErrorHandling | Logging | Interfaces | Dto
    | Validation | EntityFramework | Observables | CatchError | ReactiveForms | AngularServices
    | AngularComponents | AsyncPipe | AngularMaterial | HttpClient | AngularDirectives | EventBinding

  datatype CodePatterns = CodePatterns(
    usesAsyncAwait: bool,
    usesDependencyInjection: bool,
    usesTryCatch: bool,
    usesLogging: bool,
    usesEntityFramework: bool,
    usesObservables: bool,
    usesCatchError: bool,
    usesReactiveForms: bool,
    usesAngularMaterial: bool,
    usesEventBinding: bool,
    usesHttpClient: bool,
    usesAngularDirectives: bool,
    hasErrorHandling: bool,
    usesInterfaces: bool,
    usesDto: bool,
    usesValidation: bool,
    usesAngularServices: bool,
    usesAngularComponents: bool,
    usesAsyncPipe: bool)

  const NoPatterns := CodePatterns(false, false, false, false, false, false, false, false, false, false,
                                   false, false, false, false, false, false, false, false, false)

  /** The field of `c` that records pattern `p`. */
  function Flag(c: CodePatterns, p: Pattern): bool
  {
    match p
    case AsyncAwait => c.usesAsyncAwait
    case DependencyInjection => c.usesDependencyInjection
    case TryCatch => c.usesTryCatch
    case ErrorHandling => c.hasErrorHandling
    case Logging => c.usesLogging
    case Interfaces => c.usesInterfaces
    case Dto => c.usesDto
    case Validation => c.usesValidation
    case EntityFramework => c.usesEntityFramework
    case Observables => c.usesObservables
    case CatchError => c.usesCatchError
    case ReactiveForms => c.usesReactiveForms
    case AngularServices => c.usesAngularServices
    case AngularComponents => c.usesAngularComponents
    case AsyncPipe => c.usesAsyncPipe
    case AngularMaterial => c.usesAngularMaterial
    case HttpClient => c.usesHttpClient
    case AngularDirectives => c.usesAngularDirectives
    case EventBinding => c.usesEventBinding
  }

  /** A C# file with this content shows pattern `p`. */
  predicate ShowsCSharp(s: string, p: Pattern)
  {
    match p
    case AsyncAwait => Contains(s, "async ") || Contains(s, "await ") || Contains(s, "Task<")
    case DependencyInjection => InjectsInterface(s)
    case TryCatch => Contains(s, "try") && Contains(s, "catch")
    case ErrorHandling => Contains(s, "try") || Contains(s, "catch") || Contains(s, "throw")
    case Logging => Contains(s, "ILogger") || Contains(s, "_logger")
    case Interfaces => DeclaresInterface(s)
    case Dto => Contains(s, "DTO") || Contains(s, "Dto")
    case Validation => Contains(s, "[Required]") || Contains(s, "[ValidateAntiForgeryToken]")
    case EntityFramework => Contains(s, "DbContext") || Contains(s, "DbSet")
    case _ => false
  }

  /** A TypeScript file with this content shows pattern `p`. */
  predicate ShowsTypeScript(s: string, p: Pattern)
  {
    match p
    case ErrorHandling => Contains(s, "catchError") || Contains(s, "try") || Contains(s, "catch")
    case Observables => Contains(s, "Observable") || Contains(s, "subscribe")
    case CatchError => Contains(s, "catchError")
    case ReactiveForms => Contains(s, "FormBuilder") || Contains(s, "FormGroup")
    case AngularServices => Contains(s, "@Injectable")
    case AngularComponents => Contains(s, "@Component")
    case AsyncPipe => Contains(s, "| async")
    case AngularMaterial => Contains(s, "@angular/material")
    case HttpClient => Contains(s, "HttpClient")
    case _ => false
  }

  /** An HTML file with this content shows pattern `p`. */
  predicate ShowsHtml(s: string, p: Pattern)
  {
    match p
    case AngularDirectives => Contains(s, "*ngIf") || Contains(s, "*ngFor")
    case EventBinding => Contains(s, "(click)") || Contains(s, "(change)")
    case _ => false
  }

  /** The file on its own shows pattern `p`: the checks for its type; other types show none. */
  predicate Shows(f: CodeFile, p: Pattern)
  {
    if f.fileType == CSharp then ShowsCSharp(f.content, p)
    else if f.fileType == TypeScript then ShowsTypeScript(f.content, p)
    else if f.fileType == HTML then ShowsHtml(f.content, p)
    else false
  }

  /** The C# checks of one file's content, or-ed into the flags. */
  function ScanCSharp(patterns: CodePatterns, content: string): CodePatterns
  {
    patterns.(
      usesAsyncAwait := patterns.usesAsyncAwait || Contains(content, "async ") || Contains(content, "await ") || Contains(content, "Task<"),
      usesDependencyInjection := patterns.usesDependencyInjection || InjectsInterface(content),
      usesTryCatch := patterns.usesTryCatch || (Contains(content, "try") && Contains(content, "catch")),
      hasErrorHandling := patterns.hasErrorHandling || Contains(content, "try") || Contains(content, "catch") || Contains(content, "throw"),
      usesLogging := patterns.usesLogging || Contains(content, "ILogger") || Contains(content, "_logger"),
      usesInterfaces := patterns.usesInterfaces || DeclaresInterface(content),
      usesDto := patterns.usesDto || Contains(content, "DTO") || Contains(content, "Dto"),
      usesValidation := patterns.usesValidation || Contains(content, "[Required]") || Contains(content, "[ValidateAntiForgeryToken]"),
      usesEntityFramework := patterns.usesEntityFramework || Contains(content, "DbContext") || Contains(content, "DbSet"))
  }

  /** The TypeScript checks of one file's content, or-ed into the flags. */
  function ScanTypeScript(patterns: CodePatterns, content: string): CodePatterns
  {
    patterns.(
      usesObservables := patterns.usesObservables || Contains(content, "Observable") || Contains(content, "subscribe"),
      usesCatchError := patterns.usesCatchError || Contains(content, "catchError"),
      hasErrorHandling := patterns.hasErrorHandling || Contains(content, "catchError") || Contains(content, "try") || Contains(content, "catch"),
      usesReactiveForms := patterns.usesReactiveForms || Contains(content, "FormBuilder") || Contains(content, "FormGroup"),
      usesAngularServices := patterns.usesAngularServices || Contains(content, "@Injectable"),
      usesAngularComponents := patterns.usesAngularComponents || Contains(content, "@Component"),
      usesAsyncPipe := patterns.usesAsyncPipe || Contains(content, "| async"),
      usesAngularMaterial := patterns.usesAngularMaterial || Contains(content, "@angular/material"),
      usesHttpClient := patterns.usesHttpClient || Contains(content, "HttpClient"))
  }

  /** The HTML checks of one file's content, or-ed into the flags. */
  function ScanHtml(patterns: CodePatterns, content: string): CodePatterns
  {
    patterns.(
      usesAngularDirectives := patterns.usesAngularDirectives || Contains(content, "*ngIf") || Contains(content, "*ngFor"),
      usesEventBinding := patterns.usesEventBinding || Contains(content, "(click)") || Contains(content, "(change)"))
  }

  /** The flags after one more file: the checks for the file's type. */
  function Scan(c: CodePatterns, f: CodeFile): CodePatterns
  {
    if f.fileType == CSharp then ScanCSharp(c, f.content)
    else if f.fileType == TypeScript then ScanTypeScript(c, f.content)
    else if f.fileType == HTML then ScanHtml(c, f.content)
    else c
  }

  /** The C# checks set exactly the flags of the patterns the content shows. */
  lemma FlagScanCSharp(c: CodePatterns, s: string, p: Pattern)
    ensures Flag(ScanCSharp(c, s), p) == (Flag(c, p) || ShowsCSharp(s, p))
  {
    match p
    case AsyncAwait =>
    case DependencyInjection =>
    case TryCatch =>
    case ErrorHandling =>
    case Logging =>
    case Interfaces =>
    case Dto =>
    case Validation =>
    case EntityFramework =>
    case Observables =>
    case CatchError =>
    case ReactiveForms =>
    case AngularServices =>
    case AngularComponents =>
    case AsyncPipe =>
    case AngularMaterial =>
    case HttpClient =>
    case AngularDirectives =>
    case EventBinding =>
  }

  /** The TypeScript checks set exactly the flags of the patterns the content shows. */
  lemma FlagScanTypeScript(c: CodePatterns, s: string, p: Pattern)
    ensures Flag(ScanTypeScript(c, s), p) == (Flag(c, p) || ShowsTypeScript(s, p))
  {
    match p
    case AsyncAwait =>
    case DependencyInjection =>
    case TryCatch =>
    case ErrorHandling =>
    case Logging =>
    case Interfaces =>
    case Dto =>
    case Validation =>
    case EntityFramework =>
    case Observables =>
    case CatchError =>
    case ReactiveForms =>
    case AngularServices =>
    case AngularComponents =>
    case AsyncPipe =>
    case AngularMaterial =>
    case HttpClient =>
    case AngularDirectives =>
    case EventBinding =>
  }

  /** The HTML checks set exactly the flags of the patterns the content shows. */
  lemma FlagScanHtml(c: CodePatterns, s: string, p: Pattern)
    ensures Flag(ScanHtml(c, s), p) == (Flag(c, p) || ShowsHtml(s, p))
  {
    match p
    case AsyncAwait =>
    case DependencyInjection =>
    case TryCatch =>
    case ErrorHandling =>
    case Logging =>
    case Interfaces =>
    case Dto =>
    case Validation =>
    case EntityFramework =>
    case Observables =>
    case CatchError =>
    case ReactiveForms =>
    case AngularServices =>
    case AngularComponents =>
    case AsyncPipe =>
    case AngularMaterial =>
    case HttpClient =>
    case AngularDirectives =>
    case EventBinding =>
  }

  /** One more file sets exactly the flags of the patterns it shows and clears none. */
  lemma FlagScan(c: CodePatterns, f: CodeFile, p: Pattern)
    ensures Flag(Scan(c, f), p) == (Flag(c, p) || Shows(f, p))
  {
    if f.fileType == CSharp {
      assert Scan(c, f) == ScanCSharp(c, f.content) && Shows(f, p) == ShowsCSharp(f.content, p);
      FlagScanCSharp(c, f.content, p);
    } else if f.fileType == TypeScript {
      assert Scan(c, f) == ScanTypeScript(c, f.content) && Shows(f, p) == ShowsTypeScript(f.content, p);
      FlagScanTypeScript(c, f.content, p);
    } else if f.fileType == HTML {
      assert Scan(c, f) == ScanHtml(c, f.content) && Shows(f, p) == ShowsHtml(f.content, p);
      FlagScanHtml(c, f.content, p);
    } else {
      assert Scan(c, f) == c && !Shows(f, p);
    }
  }

  /** The flags after scanning `files` in order. */
  function PatternsOf(files: seq<CodeFile>): CodePatterns
  {
    if files == [] then NoPatterns else Scan(PatternsOf(files[..|files| - 1]), files[|files| - 1])
  }

  /** Scanning one more file continues from the flags of the files before it. */
  lemma PatternsOfStep(files: seq<CodeFile>, n: int)
    requires 0 <= n < |files|
    ensures PatternsOf(files[..n + 1]) == Scan(PatternsOf(files[..n]), files[n])
  {
    assert files[..n + 1][..n] == files[..n];
  }

  /** A C# file adds the C# checks. */
  lemma PatternsOfCSharpStep(files: seq<CodeFile>, n: int)
    requires 0 <= n < |files| && files[n].fileType.CSharp?
    ensures PatternsOf(files[..n + 1]) == ScanCSharp(PatternsOf(files[..n]), files[n].content)
  {
    PatternsOfStep(files, n);
  }

  /** A TypeScript file adds the TypeScript checks. */
  lemma PatternsOfTypeScriptStep(files: seq<CodeFile>, n: int)
    requires 0 <= n < |files| && files[n].fileType.TypeScript?
    ensures PatternsOf(files[..n + 1]) == ScanTypeScript(PatternsOf(files[..n]), files[n].content)
  {
    PatternsOfStep(files, n);
  }

  /** An HTML file adds the HTML checks. */
  lemma PatternsOfHtmlStep(files: seq<CodeFile>, n: int)
    requires 0 <= n < |files| && files[n].fileType.HTML?
    ensures PatternsOf(files[..n + 1]) == ScanHtml(PatternsOf(files[..n]), files[n].content)
  {
    PatternsOfStep(files, n);
  }

  /** A file of any other type changes no flag. */
  lemma PatternsOfOtherStep(files: seq<CodeFile>, n: int)
    requires 0 <= n < |files| && !files[n].fileType.CSharp? && !files[n].fileType.TypeScript? && !files[n].fileType.HTML?
    ensures PatternsOf(files[..n + 1]) == PatternsOf(files[..n])
  {
    PatternsOfStep(files, n);
  }

  /** A flag is set exactly when some file of the input shows the pattern. */
  lemma {:induction false} PatternsOfShows(files: seq<CodeFile>, p: Pattern)
    ensures Flag(PatternsOf(files), p) <==> exists i :: 0 <= i < |files| && Shows(files[i], p)
  {
    if files != [] {
      var init, last := files[..|files| - 1], files[|files| - 1];
      PatternsOfShows(init, p);
      FlagOfLast(files, p);
      assert files == init + [last];
      ExistsSnoc(init, last, f => Shows(f, p));
    }
  }

  /** The last file sets the flags it shows on top of those of the files before it. */
  lemma FlagOfLast(files: seq<CodeFile>, p: Pattern)
    requires files != []
    ensures Flag(PatternsOf(files), p) == (Flag(PatternsOf(files[..|files| - 1]), p) || Shows(files[|files| - 1], p))
  {
    FlagScan(PatternsOf(files[..|files| - 1]), files[|files| - 1], p);
  }

  /** Some element of `init + [last]` satisfies `P` exactly when one of `init` does, or `last` does. */
  lemma ExistsSnoc<T>(init: seq<T>, last: T, P: T -> bool)
    ensures (exists i :: 0 <= i < |init + [last]| && P((init + [last])[i])) <==>
            (exists i :: 0 <= i < |init| && P(init[i])) || P(last)
  {
    var xs := init + [last];
    if exists i :: 0 <= i < |init| && P(init[i]) {
      var i :| 0 <= i < |init| && P(init[i]);
      assert xs[i] == init[i];
    }
    if exists i :: 0 <= i < |xs| && P(xs[i]) {
      var i :| 0 <= i < |xs| && P(xs[i]);
      if i < |init| {
        assert init[i] == xs[i];
      } else {
        assert xs[i] == last;
      }
    }
    if P(last) {
      assert xs[|init|] == last;
    }
  }

  /**
   * `AnalyzeCodePatterns`: one pass over the files, or-ing each flag with the checks for the
   * file's type.
   */
  method AnalyzeCodePatterns(files: seq<CodeFile>) returns (patterns: CodePatterns)
    ensures patterns == PatternsOf(files)
    ensures forall p :: Flag(patterns, p) <==> exists i :: 0 <= i < |files| && Shows(files[i], p)
  {
    patterns := NoPatterns;
    for n := 0 to |files|
      invariant patterns == PatternsOf(files[..n])
    {
      var file := files[n];
      var content := file.content;
      if file.fileType.CSharp? {
        patterns := ScanCSharp(patterns, content);
        PatternsOfCSharpStep(files, n);
      } else if file.fileType.TypeScript? {
        patterns := ScanTypeScript(patterns, content);
        PatternsOfTypeScriptStep(files, n);
      } else if file.fileType.HTML? {
        patterns := ScanHtml(patterns, content);
        PatternsOfHtmlStep(files, n);
      } else {
        PatternsOfOtherStep(files, n);
      }
    }
    assert files[..|files|] == files;
    forall p ensures Flag(patterns, p) <==> exists i :: 0 <= i < |files| && Shows(files[i], p) {
      PatternsOfShows(files, p);
    }
  }

  /** The flags are only ever or-ed, so a flag set by some files stays set when more files follow. */
  lemma PatternsOfGrow(files: seq<CodeFile>, more: seq<CodeFile>, p: Pattern)
    ensures Flag(PatternsOf(files), p) ==> Flag(PatternsOf(files + more), p)
  {
    PatternsOfShows(files, p);
    PatternsOfShows(files + more, p);
    if Flag(PatternsOf(files), p) {
      var i :| 0 <= i < |files| && Shows(files[i], p);
      assert (files + more)[i] == files[i];
    }
  }

  // ---------------------------------------------------------------- the standards

  /**
   * The standards the generator can produce, one constructor per `new Standard { … }` of the
   * source; the arguments are the findings the text of a standard depends on.
   */
  datatype ApiGuideline =
    | ProjectLayout(clean: bool) | AsyncAwaitInUse | InjectionInUse | ApiErrorHandling | LoggingInUse | ServiceSeparation

  datatype UiGuideline =
    | FeatureOrganization | ComponentArchitecture(components: nat) | RxJsInUse | UiErrorHandling
    | UiServiceLayer(services: nat) | FormsInUse | MaterialInUse | TemplateEvents

  datatype DatabaseGuideline = RepositoryPattern(hasRepositoryFolder: bool) | EntityFrameworkInUse | ParameterizedQueries

  datatype GeneralGuideline = CleanArchitectureInUse | NamingConventions | AsyncProgramming | CodeDocumentation | DryPrinciple

  datatype Guideline =
    | ApiRule(api: ApiGuideline) | UiRule(ui: UiGuideline)
    | DatabaseRule(db: DatabaseGuideline) | GeneralRule(general: GeneralGuideline)

  /** The stack whose generator produces the standard. */
  function StackOf(g: Guideline): TechStack
  {
    match g
    case ApiRule(_) => Api
    case UiRule(_) => Ui
    case DatabaseRule(_) => Database
    case GeneralRule(_) => General
  }

  function Name(g: Guideline): string
  {
    match g
    case ApiRule(ProjectLayout(clean)) => "Project Structure - " + (if clean then "Clean Architecture" else "Layered Architecture")
    case ApiRule(AsyncAwaitInUse) => "Async/Await Pattern - Already Implemented"
    case ApiRule(InjectionInUse) => "Dependency Injection - Current Pattern"
    case ApiRule(ApiErrorHandling) => "Error Handling - Current Implementation"
    case ApiRule(LoggingInUse) => "Logging Pattern - Current Usage"
    case ApiRule(ServiceSeparation) => "Service Layer Separation - Detected Pattern"
    case UiRule(FeatureOrganization) => "Feature-Based Organization - Current Structure"
    case UiRule(ComponentArchitecture(_)) => "Component-Based Architecture - Detected Pattern"
    case UiRule(RxJsInUse) => "Reactive Programming with RxJS - Current Usage"
    case UiRule(UiErrorHandling) => "Error Handling - Current Implementation"
    case UiRule(UiServiceLayer(_)) => "Service Layer Pattern - Detected Structure"
    case UiRule(FormsInUse) => "Reactive Forms - Current Pattern"
    case UiRule(MaterialInUse) => "Angular Material - Current UI Library"
    case UiRule(TemplateEvents) => "Template Event Handling - Detected Pattern"
    case DatabaseRule(RepositoryPattern(_)) => "Repository Pattern - Detected Structure"
    case DatabaseRule(EntityFrameworkInUse) => "Entity Framework - Current ORM"
    case DatabaseRule(ParameterizedQueries) => "Parameterized Queries"
    case GeneralRule(CleanArchitectureInUse) => "Clean Architecture - Current Implementation"
    case GeneralRule(NamingConventions) => "Naming Conventions - Detected Pattern"
    case GeneralRule(AsyncProgramming) => "Async Programming - Current Pattern"
    case GeneralRule(CodeDocumentation) => "Code Documentation"
    case GeneralRule(DryPrinciple) => "DRY Principle - Reusability Pattern"
  }

  function Category(g: Guideline): string
  {
    match g
    case ApiRule(ProjectLayout(_)) | ApiRule(InjectionInUse) | ApiRule(ServiceSeparation) | UiRule(FeatureOrganization) | UiRule(ComponentArchitecture(_))
      | UiRule(UiServiceLayer(_)) | DatabaseRule(RepositoryPattern(_)) | GeneralRule(CleanArchitectureInUse) => "Architecture"
    case ApiRule(AsyncAwaitInUse) | GeneralRule(AsyncProgramming) => "Performance"
    case ApiRule(ApiErrorHandling) | UiRule(UiErrorHandling) => "Error Handling"
    case ApiRule(LoggingInUse) => "Observability"
    case UiRule(RxJsInUse) => "State Management"
    case UiRule(FormsInUse) => "Forms"
    case UiRule(MaterialInUse) => "UI Components"
    case UiRule(TemplateEvents) => "Templates"
    case DatabaseRule(EntityFrameworkInUse) => "Data Access"
    case DatabaseRule(ParameterizedQueries) => "Security"
    case GeneralRule(NamingConventions) | GeneralRule(DryPrinciple) => "Code Quality"
    case GeneralRule(CodeDocumentation) => "Documentation"
  }

  function Priority(g: Guideline): string
  {
    match g
    case ApiRule(ProjectLayout(_)) | ApiRule(InjectionInUse) | ApiRule(ApiErrorHandling) | UiRule(FeatureOrganization) | UiRule(ComponentArchitecture(_))
      | UiRule(UiErrorHandling) | DatabaseRule(ParameterizedQueries) | GeneralRule(CleanArchitectureInUse) => "Critical"
    case UiRule(MaterialInUse) | UiRule(TemplateEvents) | GeneralRule(CodeDocumentation) => "Medium"
    case ApiRule(AsyncAwaitInUse) | ApiRule(LoggingInUse) | ApiRule(ServiceSeparation) | UiRule(RxJsInUse) | UiRule(UiServiceLayer(_)) | UiRule(FormsInUse)
      | DatabaseRule(RepositoryPattern(_)) | DatabaseRule(EntityFrameworkInUse) | GeneralRule(NamingConventions) | GeneralRule(AsyncProgramming) | GeneralRule(DryPrinciple) => "High"
  }

  function Description(g: Guideline): string
  {
    match g
    case ApiRule(ProjectLayout(clean)) =>
      if clean
      then "Your project follows Clean Architecture with Domain, Application, and Infrastructure layers. Continue maintaining separation of concerns between layers."
      else "Maintain clear separation between Controllers, Services, and Data Access layers."
    case ApiRule(AsyncAwaitInUse) =>
      "Your project uses async/await for I/O operations. Continue this pattern for all database calls and external API requests."
    case ApiRule(InjectionInUse) =>
      "Your project uses constructor-based dependency injection. Continue injecting dependencies through constructors for better testability."
    case ApiRule(ApiErrorHandling) =>
      "Your project implements try-catch blocks for error handling. Continue this pattern and ensure all controllers have proper error handling."
    case ApiRule(LoggingInUse) =>
      "Your project uses ILogger for logging. Continue using structured logging with appropriate log levels."
    case ApiRule(ServiceSeparation) =>
      "Your project separates Controllers from Services. Controllers should delegate business logic to services."
    case UiRule(FeatureOrganization) =>
      "Your project uses feature-based folder organization. Continue organizing code by feature rather than by technical type."
    case UiRule(ComponentArchitecture(count)) =>
      "Your project has " + NatToString(count) + " components. Continue breaking UI into reusable, self-contained components with single responsibility."
    case UiRule(RxJsInUse) =>
      "Your project uses RxJS Observables for async operations. Continue this pattern and always unsubscribe to prevent memory leaks."
    case UiRule(UiErrorHandling) =>
      "Your project uses catchError operator for handling errors in observables. Continue handling errors gracefully with user-friendly messages."
    case UiRule(UiServiceLayer(count)) =>
      "Your project has " + NatToString(count) + " services handling business logic and HTTP calls. Keep components thin by delegating to services."
    case UiRule(FormsInUse) =>
      "Your project uses Reactive Forms. Continue using FormBuilder and validators for complex forms with proper validation."
    case UiRule(MaterialInUse) =>
      "Your project uses Angular Material components. Continue using Material Design components for consistent UI/UX."
    case UiRule(TemplateEvents) =>
      "Your templates use event binding for user interactions. Keep templates clean by moving complex logic to component methods."
    case DatabaseRule(RepositoryPattern(hasFolder)) =>
      if hasFolder
      then "Your project uses Repository pattern for data access. Continue abstracting database operations behind repository interfaces."
      else "Consider implementing Repository pattern to abstract data access logic."
    case DatabaseRule(EntityFrameworkInUse) =>
      "Your project uses Entity Framework. Use async methods and avoid common pitfalls like N+1 queries."
    case DatabaseRule(ParameterizedQueries) =>
      "Always use parameterized queries or ORMs to prevent SQL injection attacks."
    case GeneralRule(CleanArchitectureInUse) =>
      "Your project follows Clean Architecture with Domain, Application, and Infrastructure layers. Continue maintaining this separation for better testability and maintainability."
    case GeneralRule(NamingConventions) =>
      "Follow consistent naming conventions throughout the codebase. Your project uses standard C# and TypeScript conventions."
    case GeneralRule(AsyncProgramming) =>
      "Your project uses async/await consistently. Continue this pattern across all I/O operations for better scalability."
    case GeneralRule(CodeDocumentation) =>
      "Write clear, concise comments for complex logic and public APIs. Your project structure is self-documenting through Clean Architecture."
    case GeneralRule(DryPrinciple) =>
      "Your project separates concerns into Controllers, Services, and Repositories. Continue extracting common functionality to avoid duplication."
  }

  function Tags(g: Guideline): seq<string>
  {
    match g
    case ApiRule(ProjectLayout(_)) => ["Architecture", "Structure", "Layers"]
    case ApiRule(AsyncAwaitInUse) => ["Async", "Performance", "Best Practice"]
    case ApiRule(InjectionInUse) => ["DI", "IoC", "Testing"]
    case ApiRule(ApiErrorHandling) => ["Error", "Exception", "Resilience"]
    case ApiRule(LoggingInUse) => ["Logging", "Monitoring", "Debugging"]
    case ApiRule(ServiceSeparation) => ["Separation", "Services", "Controllers"]
    case UiRule(FeatureOrganization) => ["Organization", "Features", "Structure"]
    case UiRule(ComponentArchitecture(_)) => ["Components", "Reusability", "Architecture"]
    case UiRule(RxJsInUse) => ["RxJS", "Observables", "Async"]
    case UiRule(UiErrorHandling) => ["Error", "UX", "Observables"]
    case UiRule(UiServiceLayer(_)) => ["Services", "Separation", "HTTP"]
    case UiRule(FormsInUse) => ["Forms", "Validation", "Reactive"]
    case UiRule(MaterialInUse) => ["Material", "Components", "Design"]
    case UiRule(TemplateEvents) => ["Templates", "Events", "Binding"]
    case DatabaseRule(RepositoryPattern(_)) => ["Repository", "Data Access", "Abstraction"]
    case DatabaseRule(EntityFrameworkInUse) => ["EF", "ORM", "Performance"]
    case DatabaseRule(ParameterizedQueries) => ["Security", "SQL", "Injection"]
    case GeneralRule(CleanArchitectureInUse) => ["Clean Architecture", "Layers", "Separation"]
    case GeneralRule(NamingConventions) => ["Naming", "Conventions", "Readability"]
    case GeneralRule(AsyncProgramming) => ["Async", "Performance", "Scalability"]
    case GeneralRule(CodeDocumentation) => ["Documentation", "Comments", "Clarity"]
    case GeneralRule(DryPrinciple) => ["DRY", "Reusability", "Maintainability"]
  }

  function Examples(g: Guideline): seq<string>
  {
    match g
    case ApiRule(ProjectLayout(clean)) =>
      if clean
      then ["Domain: Core business entities and interfaces",
            "Application: Business logic and use cases",
            "Infrastructure: External dependencies and data access"]
      else ["Controllers: HTTP endpoints and routing",
            "Services: Business logic implementation",
            "Repositories: Data access layer"]
    case ApiRule(AsyncAwaitInUse) =>
      ["public async Task<ActionResult> GetUsersAsync()",
       "await _repository.GetAllAsync()",
       "Avoid blocking calls like .Result or .Wait()"]
    case ApiRule(InjectionInUse) =>
      ["Register in Program.cs: builder.Services.AddScoped<IService, Service>()",
       "Inject via constructor: public Controller(IService service)",
       "Avoid using 'new' keyword for services"]
    case ApiRule(ApiErrorHandling) =>
      ["Wrap risky operations in try-catch blocks",
       "Log errors with appropriate context",
       "Return consistent error responses",
       "Don't expose internal error details to clients"]
    case ApiRule(LoggingInUse) =>
      ["_logger.LogInformation(\"Processing request for {UserId}\", userId)",
       "_logger.LogError(ex, \"Error occurred\")",
       "Use appropriate log levels (Info, Warning, Error)",
       "Avoid logging sensitive data"]
    case ApiRule(ServiceSeparation) =>
      ["Controllers: Handle HTTP, routing, and validation",
       "Services: Implement business logic",
       "Avoid business logic in controllers",
       "Keep controllers thin"]
    case UiRule(FeatureOrganization) =>
      ["features/dashboard/ - All dashboard-related code",
       "features/reports/ - All reports-related code",
       "Shared components in shared/ folder",
       "Core services in core/services/"]
    case UiRule(ComponentArchitecture(_)) =>
      ["Create focused components (under 300 lines)",
       "Use @Input() and @Output() for communication",
       "Follow naming: feature-name.component.ts",
       "Keep logic separate from presentation"]
    case UiRule(RxJsInUse) =>
      ["Use async pipe in templates to auto-unsubscribe",
       "Implement takeUntil pattern with destroy$ subject",
       "Avoid nested subscriptions",
       "Use operators like map, switchMap, catchError"]
    case UiRule(UiErrorHandling) =>
      ["Use catchError in service methods",
       "Display toast/snackbar messages for errors",
       "Show loading states during operations",
       "Provide meaningful error messages to users"]
    case UiRule(UiServiceLayer(_)) =>
      ["Services handle HTTP requests and business logic",
       "Components handle presentation and user interaction",
       "Inject services via constructor",
       "Make services providedIn: 'root' for singletons"]
    case UiRule(FormsInUse) =>
      ["Use FormBuilder to create forms",
       "Implement custom validators when needed",
       "Show validation errors appropriately",
       "Handle form submission with error handling"]
    case UiRule(MaterialInUse) =>
      ["Use mat-* components for consistency",
       "Follow Material Design guidelines",
       "Customize theme in theme.scss",
       "Use Material icons"]
    case UiRule(TemplateEvents) =>
      ["Use (click)=\"onAction()\" for event binding",
       "Move complex logic to component methods",
       "Use async pipe for observables in templates",
       "Use trackBy with *ngFor for performance"]
    case DatabaseRule(RepositoryPattern(_)) =>
      ["Define IRepository<T> interface",
       "Implement concrete repositories in Infrastructure",
       "Inject repositories into services",
       "Keep database logic out of controllers"]
    case DatabaseRule(EntityFrameworkInUse) =>
      ["Use ToListAsync(), FirstOrDefaultAsync() for async operations",
       "Use Include() for eager loading to avoid N+1",
       "Use AsNoTracking() for read-only queries",
       "Avoid loading entire tables - use pagination"]
    case DatabaseRule(ParameterizedQueries) =>
      ["Use Entity Framework or Dapper with parameters",
       "Never concatenate user input in SQL queries",
       "Use stored procedures with parameters if needed",
       "Validate and sanitize all inputs"]
    case GeneralRule(CleanArchitectureInUse) =>
      ["Domain: Contains entities, enums, and core business rules",
       "Application: Contains interfaces and business logic contracts",
       "Infrastructure: Contains implementations and external dependencies",
       "API: Contains controllers and presentation logic"]
    case GeneralRule(NamingConventions) =>
      ["PascalCase for classes, methods, and properties",
       "camelCase for variables and parameters",
       "Use descriptive names: GetUserById vs Get()",
       "Prefix interfaces with 'I': IRepository"]
    case GeneralRule(AsyncProgramming) =>
      ["Suffix async methods with 'Async'",
       "Use async all the way (don't mix with blocking calls)",
       "Avoid .Result or .Wait() - use await",
       "Return Task<T> for async operations"]
    case GeneralRule(CodeDocumentation) =>
      ["Document WHY, not WHAT (code shows what)",
       "Use XML comments for public APIs",
       "Keep README files up-to-date",
       "Document architectural decisions"]
    case GeneralRule(DryPrinciple) =>
      ["Extract common logic into shared services",
       "Use base classes for shared controller functionality",
       "Create utility classes for repeated operations",
       "Avoid copy-pasting code between features"]
  }

  /** `new Standard { … }` with the fields the generator sets; the source file stays empty. */
  function ToStandard(g: Guideline): Standard
  {
    Standard(Name(g), Description(g), Category(g), TechStackName(StackOf(g)), Priority(g), false, "", Examples(g), Tags(g))
  }

  function Materialize(gs: seq<Guideline>): (r: seq<Standard>)
    ensures |r| == |gs| && forall i :: 0 <= i < |gs| ==> r[i] == ToStandard(gs[i])
  {
    seq(|gs|, i requires 0 <= i < |gs| => ToStandard(gs[i]))
  }

  lemma MaterializeConcat(a: seq<Guideline>, b: seq<Guideline>)
    ensures Materialize(a + b) == Materialize(a) + Materialize(b)
  {
  }

  lemma MaterializeIn(gs: seq<Guideline>, g: Guideline)
    requires g in gs
    ensures ToStandard(g) in Materialize(gs)
  {
    var k :| 0 <= k < |gs| && gs[k] == g;
    assert Materialize(gs)[k] == ToStandard(g);
  }

  /** Every standard of the list comes from the generator of `stack`. */
  predicate OfStack(gs: seq<Guideline>, stack: TechStack)
  {
    forall g :: g in gs ==> StackOf(g) == stack
  }

  /** The standard when the finding holds, nothing otherwise. */
  function If(b: bool, g: Guideline): (r: seq<Guideline>)
    ensures |r| <= 1
    ensures r == [] <==> !b
    ensures forall x :: x in r ==> x == g
  {
    if b then [g] else []
  }

  lemma InIf(b: bool, g: Guideline, x: Guideline)
    ensures x in If(b, g) <==> b && x == g
  {
  }

  /**
   * `GenerateAPIStandards`: the project-structure standard, then one per detected back-end
   * pattern and one for separate controller and service folders. (The source's counts of
   * controller, service and repository files are computed but never used.)
   */
  function ApiStandards(analysis: ProjectAnalysis, patterns: CodePatterns): (r: seq<Guideline>)
    ensures 1 <= |r| <= 6
    ensures r[0] == ApiRule(ProjectLayout(analysis.usesCleanArchitecture))
    ensures OfStack(r, Api)
    ensures |r| == 1 <==> (!patterns.usesAsyncAwait && !patterns.usesDependencyInjection && !patterns.usesTryCatch
                           && !patterns.usesLogging && !(analysis.hasControllerFolder && analysis.hasServiceFolder))
  {
    [ApiRule(ProjectLayout(analysis.usesCleanArchitecture))]
    + If(patterns.usesAsyncAwait, ApiRule(AsyncAwaitInUse))
    + If(patterns.usesDependencyInjection, ApiRule(InjectionInUse))
    + If(patterns.usesTryCatch, ApiRule(ApiErrorHandling))
    + If(patterns.usesLogging, ApiRule(LoggingInUse))
    + If(analysis.hasControllerFolder && analysis.hasServiceFolder, ApiRule(ServiceSeparation))
  }

  /** A TypeScript or HTML file whose name contains ".component.". */
  predicate IsUiComponent(f: CodeFile)
  {
    (f.fileType == TypeScript || f.fileType == HTML) && Contains(f.fileName, ".component.")
  }

  /** A TypeScript or HTML file whose name contains ".service.". */
  predicate IsUiService(f: CodeFile)
  {
    (f.fileType == TypeScript || f.fileType == HTML) && Contains(f.fileName, ".service.")
  }

  /**
   * `GenerateUIStandards`, given the numbers of component and service files: one standard per
   * front-end finding: feature folders, component and service files (whose numbers appear in
   * the text), and six template or library patterns.
   */
  function UiStandardsFor(analysis: ProjectAnalysis, patterns: CodePatterns, components: nat, services: nat): (r: seq<Guideline>)
    ensures |r| <= 8
    ensures OfStack(r, Ui)
  {
    UiLeadingStandards(analysis, patterns, components) + UiTrailingStandards(patterns, services)
  }

  /** The first four findings: feature folders, components, RxJS, `catchError`. */
  function UiLeadingStandards(analysis: ProjectAnalysis, patterns: CodePatterns, components: nat): (r: seq<Guideline>)
    ensures |r| <= 4
    ensures OfStack(r, Ui)
  {
    If(analysis.usesFeatureBasedOrganization, UiRule(FeatureOrganization))
    + If(components != 0, UiRule(ComponentArchitecture(components)))
    + If(patterns.usesObservables, UiRule(RxJsInUse))
    + If(patterns.usesCatchError, UiRule(UiErrorHandling))
  }

  /** The last four findings: services, reactive forms, Angular Material, event binding. */
  function UiTrailingStandards(patterns: CodePatterns, services: nat): (r: seq<Guideline>)
    ensures |r| <= 4
    ensures OfStack(r, Ui)
  {
    If(services != 0, UiRule(UiServiceLayer(services)))
    + If(patterns.usesReactiveForms, UiRule(FormsInUse))
    + If(patterns.usesAngularMaterial, UiRule(MaterialInUse))
    + If(patterns.usesEventBinding, UiRule(TemplateEvents))
  }

  /** No UI standard is produced exactly when none of the eight findings holds. */
  lemma UiStandardsEmpty(analysis: ProjectAnalysis, patterns: CodePatterns, components: nat, services: nat)
    ensures UiStandardsFor(analysis, patterns, components, services) == [] <==>
      (!analysis.usesFeatureBasedOrganization && components == 0 && !patterns.usesObservables
       && !patterns.usesCatchError && services == 0 && !patterns.usesReactiveForms
       && !patterns.usesAngularMaterial && !patterns.usesEventBinding)
  {
  }

  /**
   * The component standard appears exactly when there are component files, and then quotes
   * their number; likewise the service standard.
   */
  lemma UiStandardsQuote(analysis: ProjectAnalysis, patterns: CodePatterns, components: nat, services: nat, n: nat)
    ensures UiRule(ComponentArchitecture(n)) in UiStandardsFor(analysis, patterns, components, services) <==> n == components > 0
    ensures UiRule(UiServiceLayer(n)) in UiStandardsFor(analysis, patterns, components, services) <==> n == services > 0
  {
    UiStandardsHold(analysis, patterns, components, services, UiRule(ComponentArchitecture(n)));
    UiStandardsHold(analysis, patterns, components, services, UiRule(UiServiceLayer(n)));
  }

  /** A guideline is among the UI standards exactly when it is one of the eight under its finding. */
  lemma UiStandardsHold(analysis: ProjectAnalysis, patterns: CodePatterns, components: nat, services: nat, x: Guideline)
    ensures x in UiStandardsFor(analysis, patterns, components, services) <==>
      (analysis.usesFeatureBasedOrganization && x == UiRule(FeatureOrganization))
      || (components != 0 && x == UiRule(ComponentArchitecture(components)))
      || (patterns.usesObservables && x == UiRule(RxJsInUse))
      || (patterns.usesCatchError && x == UiRule(UiErrorHandling))
      || (services != 0 && x == UiRule(UiServiceLayer(services)))
      || (patterns.usesReactiveForms && x == UiRule(FormsInUse))
      || (patterns.usesAngularMaterial && x == UiRule(MaterialInUse))
      || (patterns.usesEventBinding && x == UiRule(TemplateEvents))
  {
    UiLeadingHold(analysis, patterns, components, x);
    UiTrailingHold(patterns, services, x);
  }

  lemma UiLeadingHold(analysis: ProjectAnalysis, patterns: CodePatterns, components: nat, x: Guideline)
    ensures x in UiLeadingStandards(analysis, patterns, components) <==>
      (analysis.usesFeatureBasedOrganization && x == UiRule(FeatureOrganization))
      || (components != 0 && x == UiRule(ComponentArchitecture(components)))
      || (patterns.usesObservables && x == UiRule(RxJsInUse))
      || (patterns.usesCatchError && x == UiRule(UiErrorHandling))
  {
    InIf(analysis.usesFeatureBasedOrganization, UiRule(FeatureOrganization), x);
    InIf(components != 0, UiRule(ComponentArchitecture(components)), x);
    InIf(patterns.usesObservables, UiRule(RxJsInUse), x);
    InIf(patterns.usesCatchError, UiRule(UiErrorHandling), x);
  }

  lemma UiTrailingHold(patterns: CodePatterns, services: nat, x: Guideline)
    ensures x in UiTrailingStandards(patterns, services) <==>
      (services != 0 && x == UiRule(UiServiceLayer(services)))
      || (patterns.usesReactiveForms && x == UiRule(FormsInUse))
      || (patterns.usesAngularMaterial && x == UiRule(MaterialInUse))
      || (patterns.usesEventBinding && x == UiRule(TemplateEvents))
  {
    InIf(services != 0, UiRule(UiServiceLayer(services)), x);
    InIf(patterns.usesReactiveForms, UiRule(FormsInUse), x);
    InIf(patterns.usesAngularMaterial, UiRule(MaterialInUse), x);
    InIf(patterns.usesEventBinding, UiRule(TemplateEvents), x);
  }

  /** `GenerateUIStandards`: it counts the front-end component and service files itself. */
  function UiStandards(analysis: ProjectAnalysis, patterns: CodePatterns, files: seq<CodeFile>): seq<Guideline>
  {
    UiStandardsFor(analysis, patterns, CountWhere(files, IsUiComponent), CountWhere(files, IsUiService))
  }

  /**
   * `GenerateDatabaseStandards`: the repository pattern when Entity Framework or a repository
   * folder is seen, Entity Framework itself when seen, and always parameterized queries last.
   */
  function DatabaseStandards(analysis: ProjectAnalysis, patterns: CodePatterns): (r: seq<Guideline>)
    ensures 1 <= |r| <= 3
    ensures r[|r| - 1] == DatabaseRule(ParameterizedQueries)
    ensures OfStack(r, Database)
    ensures |r| == 1 <==> !patterns.usesEntityFramework && !analysis.hasRepositoryFolder
    ensures |r| == 3 <==> patterns.usesEntityFramework
  {
    If(patterns.usesEntityFramework || analysis.hasRepositoryFolder, DatabaseRule(RepositoryPattern(analysis.hasRepositoryFolder)))
    + If(patterns.usesEntityFramework, DatabaseRule(EntityFrameworkInUse))
    + [DatabaseRule(ParameterizedQueries)]
  }

  /**
   * `GenerateGeneralStandards`: Clean Architecture when detected, naming conventions always,
   * async programming when seen, code documentation always, and DRY for separate controller and
   * service folders.
   */
  function GeneralStandards(analysis: ProjectAnalysis, patterns: CodePatterns): (r: seq<Guideline>)
    ensures 2 <= |r| <= 5
    ensures GeneralRule(NamingConventions) in r && GeneralRule(CodeDocumentation) in r
    ensures OfStack(r, General)
    ensures |r| == 2 <==> (!analysis.usesCleanArchitecture && !patterns.usesAsyncAwait
                           && !(analysis.hasControllerFolder && analysis.hasServiceFolder))
  {
    If(analysis.usesCleanArchitecture, GeneralRule(CleanArchitectureInUse))
    + [GeneralRule(NamingConventions)]
    + If(patterns.usesAsyncAwait, GeneralRule(AsyncProgramming))
    + [GeneralRule(CodeDocumentation)]
    + If(analysis.hasControllerFolder && analysis.hasServiceFolder, GeneralRule(DryPrinciple))
  }

  /** `GenerateStandardsForTechStack`: the generator of one stack. */
  function ForStack(stack: TechStack, analysis: ProjectAnalysis, patterns: CodePatterns, files: seq<CodeFile>): (r: seq<Guideline>)
    ensures OfStack(r, stack)
    ensures |r| <= (match stack case Api => 6 case Ui => 8 case Database => 3 case General => 5)
  {
    match stack
    case Api => ApiStandards(analysis, patterns)
    case Ui => UiStandards(analysis, patterns, files)
    case Database => DatabaseStandards(analysis, patterns)
    case General => GeneralStandards(analysis, patterns)
  }

  /** The standards of the given stacks, in stack order. */
  function ForStacks(stacks: seq<TechStack>, analysis: ProjectAnalysis, patterns: CodePatterns, files: seq<CodeFile>): seq<Guideline>
  {
    if stacks == [] then [] else ForStack(stacks[0], analysis, patterns, files) + ForStacks(stacks[1..], analysis, patterns, files)
  }

  /** The standards `GenerateStandardsByTechStack` produces for `files`, as guidelines. */
  function GuidelinesFor(files: seq<CodeFile>): seq<Guideline>
  {
    ForStacks(DetectTechStacks(files), AnalyzeProjectStructure(files), PatternsOf(files), files)
  }

  function StandardsFor(files: seq<CodeFile>): seq<Standard>
  {
    Materialize(GuidelinesFor(files))
  }

  /**
   * `GenerateStandardsByTechStack`: analyse the structure, scan the patterns, detect the stacks,
   * and append each stack's standards.
   */
  method GenerateStandardsByTechStack(files: seq<CodeFile>) returns (standards: seq<Standard>)
    ensures standards == StandardsFor(files)
  {
    var projectAnalysis := AnalyzeProjectStructure(files);
    var codePatterns := AnalyzeCodePatterns(files);
    var techStacks := DetectTechStacks(files);
    standards := [];
    StacksFromStart(techStacks, projectAnalysis, codePatterns, files);
    for i := 0 to |techStacks|
      invariant standards + Materialize(ForStacks(techStacks[i..], projectAnalysis, codePatterns, files))
        == Materialize(ForStacks(techStacks, projectAnalysis, codePatterns, files))
    {
      var stackStandards := Materialize(ForStack(techStacks[i], projectAnalysis, codePatterns, files));
      StacksAfterOne(standards, techStacks, i, projectAnalysis, codePatterns, files);
      standards := standards + stackStandards;
    }
    StacksAtEnd(standards, techStacks, projectAnalysis, codePatterns, files);
  }

  /** Before the loop nothing is collected and every stack is still to come. */
  lemma StacksFromStart(stacks: seq<TechStack>, analysis: ProjectAnalysis, patterns: CodePatterns, files: seq<CodeFile>)
    ensures [] + Materialize(ForStacks(stacks[0..], analysis, patterns, files)) == Materialize(ForStacks(stacks, analysis, patterns, files))
  {
    assert stacks[0..] == stacks;
    AppendEmpty(Materialize(ForStacks(stacks, analysis, patterns, files)));
  }

  /** Appending the standards of stack `i` keeps the collected part a prefix of the whole. */
  lemma StacksAfterOne(collected: seq<Standard>, stacks: seq<TechStack>, i: int, analysis: ProjectAnalysis,
                       patterns: CodePatterns, files: seq<CodeFile>)
    requires 0 <= i < |stacks|
    requires collected + Materialize(ForStacks(stacks[i..], analysis, patterns, files)) == Materialize(ForStacks(stacks, analysis, patterns, files))
    ensures (collected + Materialize(ForStack(stacks[i], analysis, patterns, files))) + Materialize(ForStacks(stacks[i + 1..], analysis, patterns, files))
      == Materialize(ForStacks(stacks, analysis, patterns, files))
  {
    ForStacksStep(stacks, i, analysis, patterns, files);
    AppendAssoc(collected, Materialize(ForStack(stacks[i], analysis, patterns, files)), Materialize(ForStacks(stacks[i + 1..], analysis, patterns, files)));
  }

  /** After the loop no stack is left, so the collected standards are all of them. */
  lemma StacksAtEnd(collected: seq<Standard>, stacks: seq<TechStack>, analysis: ProjectAnalysis, patterns: CodePatterns, files: seq<CodeFile>)
    requires collected + Materialize(ForStacks(stacks[|stacks|..], analysis, patterns, files)) == Materialize(ForStacks(stacks, analysis, patterns, files))
    ensures collected == Materialize(ForStacks(stacks, analysis, patterns, files))
  {
    assert stacks[|stacks|..] == [];
    AppendEmpty(collected);
  }

  /** The standards of the stacks from `i` on are those of stack `i` followed by those of the rest. */
  lemma ForStacksStep(stacks: seq<TechStack>, i: int, analysis: ProjectAnalysis, patterns: CodePatterns, files: seq<CodeFile>)
    requires 0 <= i < |stacks|
    ensures Materialize(ForStacks(stacks[i..], analysis, patterns, files))
      == Materialize(ForStack(stacks[i], analysis, patterns, files)) + Materialize(ForStacks(stacks[i + 1..], analysis, patterns, files))
  {
    assert stacks[i..][1..] == stacks[i + 1..];
    MaterializeConcat(ForStack(stacks[i], analysis, patterns, files), ForStacks(stacks[i + 1..], analysis, patterns, files));
  }

  // ---------------------------------------------------------------- what the generator promises

  /** Every standard of a stack list comes from the generator of one of the stacks. */
  lemma {:induction false} ForStacksTagged(stacks: seq<TechStack>, analysis: ProjectAnalysis, patterns: CodePatterns,
                                           files: seq<CodeFile>)
    ensures forall g :: g in ForStacks(stacks, analysis, patterns, files) ==> StackOf(g) in stacks
  {
    if stacks != [] {
      ForStacksTagged(stacks[1..], analysis, patterns, files);
      var head := ForStack(stacks[0], analysis, patterns, files);
      forall g | g in ForStacks(stacks, analysis, patterns, files)
        ensures StackOf(g) in stacks
      {
        if g !in head {
          assert StackOf(g) in stacks[1..];
        }
      }
    }
  }

  /** Each stack contributes at most its generator's maximum, and General at least two. */
  lemma {:induction false} ForStacksBound(stacks: seq<TechStack>, analysis: ProjectAnalysis, patterns: CodePatterns,
                                          files: seq<CodeFile>)
    requires Distinct(stacks)
    ensures |ForStacks(stacks, analysis, patterns, files)| <=
      (if Api in stacks then 6 else 0) + (if Ui in stacks then 8 else 0)
      + (if Database in stacks then 3 else 0) + (if General in stacks then 5 else 0)
    ensures General in stacks ==> |ForStacks(stacks, analysis, patterns, files)| >= 2
  {
    if stacks != [] {
      FirstAndRest(stacks);
      ForStacksBound(stacks[1..], analysis, patterns, files);
      match stacks[0]
      case Api =>
      case Ui =>
      case Database =>
      case General =>
        var _ := GeneralStandards(analysis, patterns);
    }
  }

  /** A list of distinct stacks is its first stack, which the rest lacks, and the rest. */
  lemma FirstAndRest(stacks: seq<TechStack>)
    requires Distinct(stacks) && stacks != []
    ensures Distinct(stacks[1..]) && stacks[0] !in stacks[1..]
    ensures forall s :: s in stacks <==> s == stacks[0] || s in stacks[1..]
  {
    assert stacks == [stacks[0]] + stacks[1..];
  }

  /** A standard produced for one of the stacks appears in the output of the whole list. */
  lemma {:induction false} ForStacksContains(stacks: seq<TechStack>, k: int, analysis: ProjectAnalysis,
                                             patterns: CodePatterns, files: seq<CodeFile>, g: Guideline)
    requires 0 <= k < |stacks| && g in ForStack(stacks[k], analysis, patterns, files)
    ensures g in ForStacks(stacks, analysis, patterns, files)
  {
    var head := ForStack(stacks[0], analysis, patterns, files);
    var tail := ForStacks(stacks[1..], analysis, patterns, files);
    assert ForStacks(stacks, analysis, patterns, files) == head + tail;
    if k > 0 {
      ForStacksContains(stacks[1..], k - 1, analysis, patterns, files, g);
      assert g in tail;
    } else {
      assert g in head;
    }
  }

  /**
   * For stacks ending in General, the guidelines number between 2 and 22, include the naming
   * conventions and the code documentation, and each belongs to one of the stacks.
   */
  lemma GuidelinesShape(stacks: seq<TechStack>, analysis: ProjectAnalysis, patterns: CodePatterns, files: seq<CodeFile>)
    requires Distinct(stacks) && |stacks| > 0 && stacks[|stacks| - 1] == General
    ensures 2 <= |ForStacks(stacks, analysis, patterns, files)| <= 22
    ensures GeneralRule(NamingConventions) in ForStacks(stacks, analysis, patterns, files)
    ensures GeneralRule(CodeDocumentation) in ForStacks(stacks, analysis, patterns, files)
    ensures forall g :: g in ForStacks(stacks, analysis, patterns, files) ==> StackOf(g) in stacks
  {
    ForStacksBound(stacks, analysis, patterns, files);
    ForStacksTagged(stacks, analysis, patterns, files);
    ForStacksContains(stacks, |stacks| - 1, analysis, patterns, files, GeneralRule(NamingConventions));
    ForStacksContains(stacks, |stacks| - 1, analysis, patterns, files, GeneralRule(CodeDocumentation));
  }

  /** Every standard of a materialized list is the standard of one of its guidelines. */
  lemma MaterializeOrigin(gs: seq<Guideline>, st: Standard)
    requires st in Materialize(gs)
    ensures exists g :: g in gs && st == ToStandard(g)
  {
    var k :| 0 <= k < |gs| && Materialize(gs)[k] == st;
    assert gs[k] in gs;
  }

  /** A generated standard is marked as generated and carries the name of its guideline's stack. */
  lemma ToStandardGenerated(g: Guideline)
    ensures !ToStandard(g).isFromExistingDocs && ToStandard(g).techStack == TechStackName(StackOf(g))
  {
  }

  /**
   * `GenerateStandardsByTechStack` returns between 2 and 22 standards, among them the naming
   * conventions and the code documentation of the General stack; every one is marked as
   * generated and carries the tag of a detected stack.
   */
  lemma StandardsForGeneral(files: seq<CodeFile>)
    ensures 2 <= |StandardsFor(files)| <= 22
    ensures ToStandard(GeneralRule(NamingConventions)) in StandardsFor(files)
    ensures ToStandard(GeneralRule(CodeDocumentation)) in StandardsFor(files)
    ensures forall st :: st in StandardsFor(files) ==>
      !st.isFromExistingDocs && exists s :: s in DetectTechStacks(files) && st.techStack == TechStackName(s)
  {
    var stacks := DetectTechStacks(files);
    var gs := GuidelinesFor(files);
    GuidelinesShape(stacks, AnalyzeProjectStructure(files), PatternsOf(files), files);
    MaterializeIn(gs, GeneralRule(NamingConventions));
    MaterializeIn(gs, GeneralRule(CodeDocumentation));
    forall st | st in StandardsFor(files)
      ensures !st.isFromExistingDocs && exists s :: s in stacks && st.techStack == TechStackName(s)
    {
      MaterializeOrigin(gs, st);
      var g :| g in gs && st == ToStandard(g);
      ToStandardGenerated(g);
    }
  }

  /**
   * When the API stack is detected its standards come first, so the whole output starts with
   * the Critical architecture standard whose name says only whether Clean Architecture was found.
   */
  lemma ApiComesFirst(files: seq<CodeFile>)
    ensures Api in DetectTechStacks(files) ==>
      GuidelinesFor(files)[0] == ApiRule(ProjectLayout(AnalyzeProjectStructure(files).usesCleanArchitecture))
      && StandardsFor(files)[0] == ToStandard(GuidelinesFor(files)[0])
  {
  }

  /** The project-structure standard is the Critical architecture standard of the API stack. */
  lemma ProjectLayoutStandard(clean: bool)
    ensures Priority(ApiRule(ProjectLayout(clean))) == "Critical"
    ensures Category(ApiRule(ProjectLayout(clean))) == "Architecture"
    ensures TechStackName(StackOf(ApiRule(ProjectLayout(clean)))) == "API"
    ensures Name(ApiRule(ProjectLayout(clean))) == "Project Structure - " + (if clean then "Clean Architecture" else "Layered Architecture")
  {
  }

  /** When the Database stack is among the stacks, parameterized queries are among the guidelines. */
  lemma DatabaseGuidelines(stacks: seq<TechStack>, analysis: ProjectAnalysis, patterns: CodePatterns, files: seq<CodeFile>)
    requires Database in stacks
    ensures DatabaseRule(ParameterizedQueries) in ForStacks(stacks, analysis, patterns, files)
  {
    var k :| 0 <= k < |stacks| && stacks[k] == Database;
    var db := DatabaseStandards(analysis, patterns);
    assert db[|db| - 1] == DatabaseRule(ParameterizedQueries);
    ForStacksContains(stacks, k, analysis, patterns, files, DatabaseRule(ParameterizedQueries));
  }

  /** When the Database stack is detected the output includes the Critical security standard on parameterized queries. */
  lemma DatabaseHasParameterizedQueries(files: seq<CodeFile>)
    ensures Database in DetectTechStacks(files) ==> ToStandard(DatabaseRule(ParameterizedQueries)) in StandardsFor(files)
  {
    if Database in DetectTechStacks(files) {
      DatabaseGuidelines(DetectTechStacks(files), AnalyzeProjectStructure(files), PatternsOf(files), files);
      MaterializeIn(GuidelinesFor(files), DatabaseRule(ParameterizedQueries));
    }
  }

  /** The parameterized-queries standard is a Critical security standard of the Database stack. */
  lemma ParameterizedQueriesStandard()
    ensures Priority(DatabaseRule(ParameterizedQueries)) == "Critical"
    ensures Category(DatabaseRule(ParameterizedQueries)) == "Security"
    ensures TechStackName(StackOf(DatabaseRule(ParameterizedQueries))) == "Database"
  {
  }
}
