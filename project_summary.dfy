/**
 * `AnalyzeProjectStructureAsync` of `AIAnalysisService` and the heuristics behind its offline
 * summary: the primary language, the technology stack, the architecture pattern, the business
 * areas, the core functionality, the key features, the main components and the dependencies.
 * The folder structure and the file-type distribution arrive as insertion-ordered tallies.
 */
module ProjectSummaries {
  import opened Wrappers
  import opened Text
  import opened Collections
  import opened Paths
  import opened Domain
  import opened Progress
  import opened Chat
  import opened AIAnalysis

  /** The count a tally holds for `k` (0 when `k` is not a key). */
  function CountOf(t: Tally<string>, k: string): nat
  {
    if k in t.counts then t.counts[k] else 0
  }

  // ---------------------------------------------------------------- primary language

  /** The file types that do not name a programming language. */
  predicate IsLanguage(name: string)
  {
    name != "Configuration" && name != "Documentation" && name != "Markdown"
  }

  /**
   * Entry `j` is what `Where(language).OrderByDescending(count).FirstOrDefault()` picks: a
   * language whose count no language beats, and strictly above every language before it (the
   * sort is stable, so ties go to the earlier entry).
   */
  predicate IsLeader(t: Tally<string>, keys: seq<string>, j: int)
  {
    0 <= j < |keys| && IsLanguage(keys[j])
    && (forall i :: 0 <= i < |keys| && IsLanguage(keys[i]) ==> CountOf(t, keys[i]) <= CountOf(t, keys[j]))
    && (forall i :: 0 <= i < j && IsLanguage(keys[i]) ==> CountOf(t, keys[i]) < CountOf(t, keys[j]))
  }

  /** The index of the leading language among `keys`, or `None` when none of them is a language. */
  function Leader(t: Tally<string>, keys: seq<string>): (r: Option<nat>)
    ensures r.None? <==> forall i :: 0 <= i < |keys| ==> !IsLanguage(keys[i])
    ensures r.Some? ==> IsLeader(t, keys, r.value)
  {
    if keys == [] then None
    else
      var init := keys[..|keys| - 1];
      var best := Leader(t, init);
      var k := keys[|keys| - 1];
      assert forall i :: 0 <= i < |init| ==> keys[i] == init[i];
      if IsLanguage(k) && (best.None? || CountOf(t, init[best.value]) < CountOf(t, k)) then Some(|keys| - 1)
      else best
  }

  /** `PrimaryLanguage`: the leading language of the distribution, or "Mixed". */
  function PrimaryLanguage(fileTypes: Tally<string>): (r: string)
    ensures (forall i :: 0 <= i < |fileTypes.keys| ==> !IsLanguage(fileTypes.keys[i])) ==> r == "Mixed"
    ensures (exists i :: 0 <= i < |fileTypes.keys| && IsLanguage(fileTypes.keys[i])) ==>
      exists j :: IsLeader(fileTypes, fileTypes.keys, j) && r == fileTypes.keys[j]
  {
    var best := Leader(fileTypes, fileTypes.keys);
    if best.Some? then fileTypes.keys[best.value] else "Mixed"
  }

  // ---------------------------------------------------------------- technology stack

  datatype Technology =
    | DotNet | Java | Python | Php | Ruby | Go | Rust
    | TypeScript | JavaScript | Vue | Angular | React | SqlDatabase

  function TechnologyLabel(t: Technology): string
  {
    match t
    case DotNet => ".NET"
    case Java => "Java"
    case Python => "Python"
    case Php => "PHP"
    case Ruby => "Ruby"
    case Go => "Go"
    case Rust => "Rust"
    case TypeScript => "TypeScript"
    case JavaScript => "JavaScript"
    case Vue => "Vue.js"
    case Angular => "Angular"
    case React => "React"
    case SqlDatabase => "SQL Database"
  }

  /** The order in which `DetectTechnologyStack` tests the technologies. */
  const Technologies: seq<Technology> :=
    [DotNet, Technology.Java, Technology.Python, Technology.Php, Technology.Ruby, Technology.Go, Technology.Rust,
     Technology.TypeScript, Technology.JavaScript, Technology.Vue, Technology.Angular, React, SqlDatabase]

  predicate AnyContent(files: seq<CodeFile>, p: string)
  {
    exists i | 0 <= i < |files| :: Contains(files[i].content, p)
  }

  predicate HasType(fileTypes: Tally<string>, name: string)
  {
    name in fileTypes.counts
  }

  /** The evidence `DetectTechnologyStack` accepts for each technology. */
  predicate Uses(files: seq<CodeFile>, fileTypes: Tally<string>, t: Technology)
  {
    match t
    case DotNet => HasType(fileTypes, "CSharp") || HasType(fileTypes, "VisualBasic")
    case Java => HasType(fileTypes, "Java")
    case Python => HasType(fileTypes, "Python")
    case Php => HasType(fileTypes, "PHP")
    case Ruby => HasType(fileTypes, "Ruby")
    case Go => HasType(fileTypes, "Go")
    case Rust => HasType(fileTypes, "Rust")
    case TypeScript => HasType(fileTypes, "TypeScript")
    case JavaScript => HasType(fileTypes, "JavaScript") || HasType(fileTypes, "JSX")
    case Vue => HasType(fileTypes, "Vue")
    case Angular => HasType(fileTypes, "Angular") || AnyContent(files, "@angular")
    case React => AnyContent(files, "react")
    case SqlDatabase =>
      HasType(fileTypes, "SQL") || AnyContent(files, "SqlConnection") || AnyContent(files, "EntityFramework")
  }

  /** The `stacks.Add` calls that fire, in test order. */
  function DetectedTechnologies(files: seq<CodeFile>, fileTypes: Tally<string>): (r: seq<Technology>)
    ensures forall t :: t in r <==> Uses(files, fileTypes, t)
    ensures Distinct(r) && |r| <= |Technologies|
  {
    TechnologiesListed();
    var uses := t => Uses(files, fileTypes, t);
    FilterIn(Technologies, uses);
    FilterDistinct(Technologies, uses);
    Filter(Technologies, uses)
  }

  lemma TechnologiesListed()
    ensures forall t :: t in Technologies
  {
    forall t ensures t in Technologies {
      match t
      case DotNet => assert Technologies[0] == t;
      case Java => assert Technologies[1] == t;
      case Python => assert Technologies[2] == t;
      case Php => assert Technologies[3] == t;
      case Ruby => assert Technologies[4] == t;
      case Go => assert Technologies[5] == t;
      case Rust => assert Technologies[6] == t;
      case TypeScript => assert Technologies[7] == t;
      case JavaScript => assert Technologies[8] == t;
      case Vue => assert Technologies[9] == t;
      case Angular => assert Technologies[10] == t;
      case React => assert Technologies[11] == t;
      case SqlDatabase => assert Technologies[12] == t;
    }
  }

  /** `DetectTechnologyStack`: `string.Join(", ", stacks.Distinct())`. */
  function TechnologyStack(files: seq<CodeFile>, fileTypes: Tally<string>): string
  {
    Join(DistinctValues(Map(DetectedTechnologies(files, fileTypes), TechnologyLabel)), ", ")
  }

  // ---------------------------------------------------------------- architecture pattern

  datatype Architecture =
    | CleanArchitecture | ModelViewController | ServiceOriented | ComponentBased | Layered | CustomArchitecture

  function ArchitectureLabel(a: Architecture): string
  {
    match a
    case CleanArchitecture => "Clean Architecture (DDD)"
    case ModelViewController => "MVC (Model-View-Controller)"
    case ServiceOriented => "Service-Oriented Architecture"
    case ComponentBased => "Component-Based Architecture"
    case Layered => "Layered Architecture"
    case CustomArchitecture => "Custom Architecture"
  }

  /** `folders.Any(f => f.Contains(p))` over the lower-cased folder names. */
  predicate AnyFolder(folders: seq<string>, p: string)
  {
    exists i | 0 <= i < |folders| :: Contains(Lower(folders[i]), p)
  }

  /** `DetectArchitecturePattern`: the first rule whose folder names all occur. */
  function ArchitectureOf(folders: seq<string>): Architecture
  {
    if AnyFolder(folders, "domain") && AnyFolder(folders, "application") && AnyFolder(folders, "infrastructure") then CleanArchitecture
    else if AnyFolder(folders, "models") && AnyFolder(folders, "views") && AnyFolder(folders, "controllers") then ModelViewController
    else if AnyFolder(folders, "services") && AnyFolder(folders, "api") then ServiceOriented
    else if AnyFolder(folders, "components") && AnyFolder(folders, "services") then ComponentBased
    else if AnyFolder(folders, "layers") || AnyFolder(folders, "business") || AnyFolder(folders, "data") then Layered
    else CustomArchitecture
  }

  /** The folders seen in the same or another order, any number of times. */
  predicate SameFolders(a: seq<string>, b: seq<string>)
  {
    (forall f | f in a :: f in b) && (forall f | f in b :: f in a)
  }

  lemma AnyFolderSameFolders(a: seq<string>, b: seq<string>, p: string)
    requires SameFolders(a, b)
    ensures AnyFolder(a, p) <==> AnyFolder(b, p)
  {
    if AnyFolder(a, p) {
      var i :| 0 <= i < |a| && Contains(Lower(a[i]), p);
      assert a[i] in b;
    }
    if AnyFolder(b, p) {
      var i :| 0 <= i < |b| && Contains(Lower(b[i]), p);
      assert b[i] in a;
    }
  }

  /** The pattern depends only on which folders exist, not on the dictionary's order. */
  lemma ArchitectureIgnoresOrder(a: seq<string>, b: seq<string>)
    requires SameFolders(a, b)
    ensures ArchitectureOf(a) == ArchitectureOf(b)
  {
    AnyFolderSameFolders(a, b, "domain");
    AnyFolderSameFolders(a, b, "application");
    AnyFolderSameFolders(a, b, "infrastructure");
    AnyFolderSameFolders(a, b, "models");
    AnyFolderSameFolders(a, b, "views");
    AnyFolderSameFolders(a, b, "controllers");
    AnyFolderSameFolders(a, b, "services");
    AnyFolderSameFolders(a, b, "api");
    AnyFolderSameFolders(a, b, "components");
    AnyFolderSameFolders(a, b, "layers");
    AnyFolderSameFolders(a, b, "business");
    AnyFolderSameFolders(a, b, "data");
  }

  /** A folder `x/domain`, `x/application` and `x/infrastructure` make Clean Architecture whatever else exists. */
  lemma CleanArchitectureWins(folders: seq<string>, i: nat, j: nat, k: nat)
    requires i < |folders| && j < |folders| && k < |folders|
    requires EndsWith(Lower(folders[i]), "domain")
    requires EndsWith(Lower(folders[j]), "application")
    requires EndsWith(Lower(folders[k]), "infrastructure")
    ensures ArchitectureOf(folders) == CleanArchitecture
  {
    EndsWithContains(Lower(folders[i]), "domain");
    EndsWithContains(Lower(folders[j]), "application");
    EndsWithContains(Lower(folders[k]), "infrastructure");
  }

  lemma EndsWithContains(s: string, p: string)
    requires EndsWith(s, p)
    ensures Contains(s, p)
  {
    ContainsWitness(s, p, |s| - |p|);
  }

  /** No folder at all leaves the pattern undetermined. */
  lemma NoFoldersIsCustom()
    ensures ArchitectureOf([]) == CustomArchitecture
  {
  }

  // ---------------------------------------------------------------- business logic

  datatype BusinessArea =
    | Analysis | Report | DataManagement | Authentication | Authorization | Payment | Order
    | Inventory | User | Product | Invoice | Notification | Workflow | Task | Scheduler

  /** The keys of `businessKeywords`, in insertion order. */
  const BusinessAreas: seq<BusinessArea> :=
    [Analysis, Report, DataManagement, Authentication, Authorization, Payment, Order,
     Inventory, User, Product, Invoice, Notification, Workflow, Task, Scheduler]

  function BusinessKeyword(a: BusinessArea): string
  {
    match a
    case Analysis => "analysis"
    case Report => "report"
    case DataManagement => "repository"
    case Authentication => "authentication"
    case Authorization => "authorization"
    case Payment => "payment"
    case Order => "order"
    case Inventory => "inventory"
    case User => "user"
    case Product => "product"
    case Invoice => "invoice"
    case Notification => "notification"
    case Workflow => "workflow"
    case Task => "task"
    case Scheduler => "scheduler"
  }

  function BusinessLabel(a: BusinessArea): string
  {
    match a
    case Analysis => "Code Analysis"
    case Report => "Reporting"
    case DataManagement => "Data Management"
    case Authentication => "Security & Authentication"
    case Authorization => "Access Control"
    case Payment => "Payment Processing"
    case Order => "Order Management"
    case Inventory => "Inventory Management"
    case User => "User Management"
    case Product => "Product Catalog"
    case Invoice => "Invoicing"
    case Notification => "Notifications"
    case Workflow => "Workflow Management"
    case Task => "Task Management"
    case Scheduler => "Job Scheduling"
  }

  predicate AnyPath(files: seq<CodeFile>, p: string)
  {
    exists i | 0 <= i < |files| :: Contains(Lower(files[i].filePath), p)
  }

  /** `hasFolder || hasFiles` for the area's keyword. */
  predicate Mentions(files: seq<CodeFile>, folders: seq<string>, a: BusinessArea)
  {
    AnyFolder(folders, BusinessKeyword(a)) || AnyPath(files, BusinessKeyword(a))
  }

  /** The areas among `areas` that the folders or the file paths mention, in order. */
  function MentionedAreas(files: seq<CodeFile>, folders: seq<string>, areas: seq<BusinessArea>): seq<BusinessArea>
  {
    if areas == [] then []
    else
      var init := areas[..|areas| - 1];
      var a := areas[|areas| - 1];
      MentionedAreas(files, folders, init) + (if Mentions(files, folders, a) then [a] else [])
  }

  lemma {:induction false} MentionedAreasIn(files: seq<CodeFile>, folders: seq<string>, areas: seq<BusinessArea>)
    ensures forall a :: a in MentionedAreas(files, folders, areas) <==> a in areas && Mentions(files, folders, a)
  {
    if areas != [] {
      var init := areas[..|areas| - 1];
      MentionedAreasIn(files, folders, init);
      assert areas == init + [areas[|areas| - 1]];
    }
  }

  /** `ExtractBusinessLogic`'s `foreach` over the keyword table. */
  method ExtractBusinessLogic(files: seq<CodeFile>, folders: seq<string>) returns (logic: string, detected: seq<BusinessArea>)
    ensures detected == MentionedAreas(files, folders, BusinessAreas)
    ensures logic == if detected == [] then "General Purpose Application"
      else Join(DistinctValues(Map(detected, BusinessLabel)), ", ")
  {
    detected := [];
    for i := 0 to |BusinessAreas|
      invariant detected == MentionedAreas(files, folders, BusinessAreas[..i])
    {
      var area := BusinessAreas[i];
      assert BusinessAreas[..i + 1][..i] == BusinessAreas[..i];
      var hasFolder := AnyFolder(folders, BusinessKeyword(area));
      var hasFiles := AnyPath(files, BusinessKeyword(area));
      if hasFolder || hasFiles {
        detected := detected + [area];
      }
    }
    assert BusinessAreas[..|BusinessAreas|] == BusinessAreas;
    if detected == [] {
      logic := "General Purpose Application";
    } else {
      logic := Join(DistinctValues(Map(detected, BusinessLabel)), ", ");
    }
  }

  /** An area is reported exactly when its keyword occurs in a folder name or a file path, ignoring case. */
  lemma BusinessAreasDetected(files: seq<CodeFile>, folders: seq<string>)
    ensures forall a :: a in MentionedAreas(files, folders, BusinessAreas) <==> Mentions(files, folders, a)
  {
    MentionedAreasIn(files, folders, BusinessAreas);
    forall a ensures a in BusinessAreas {
      BusinessAreaListed(a);
    }
  }

  /** The keyword table covers every area. */
  lemma BusinessAreaListed(a: BusinessArea)
    ensures a in BusinessAreas
  {
    match a
    case Analysis => assert BusinessAreas[0] == a;
    case Report => assert BusinessAreas[1] == a;
    case DataManagement => assert BusinessAreas[2] == a;
    case Authentication => assert BusinessAreas[3] == a;
    case Authorization => assert BusinessAreas[4] == a;
    case Payment => assert BusinessAreas[5] == a;
    case Order => assert BusinessAreas[6] == a;
    case Inventory => assert BusinessAreas[7] == a;
    case User => assert BusinessAreas[8] == a;
    case Product => assert BusinessAreas[9] == a;
    case Invoice => assert BusinessAreas[10] == a;
    case Notification => assert BusinessAreas[11] == a;
    case Workflow => assert BusinessAreas[12] == a;
    case Task => assert BusinessAreas[13] == a;
    case Scheduler => assert BusinessAreas[14] == a;
  }

  // ---------------------------------------------------------------- core functionality and key features

  datatype Capability = RestApi | DatabaseOperations | UserInterface | AuthenticationAuthorization | ExternalApi

  function CapabilityLabel(c: Capability): string
  {
    match c
    case RestApi => "RESTful API Services"
    case DatabaseOperations => "Database Operations"
    case UserInterface => "User Interface"
    case AuthenticationAuthorization => "Authentication & Authorization"
    case ExternalApi => "External API Integration"
  }

  const Capabilities: seq<Capability> :=
    [RestApi, DatabaseOperations, UserInterface, AuthenticationAuthorization, ExternalApi]

  predicate AnyPathEndsWith(files: seq<CodeFile>, suffix: string)
  {
    exists i | 0 <= i < |files| :: EndsWith(files[i].filePath, suffix)
  }

  /** The evidence `GenerateCoreFunctionality` accepts for each capability. */
  predicate Offers(files: seq<CodeFile>, c: Capability)
  {
    match c
    case RestApi =>
      AnyContent(files, "[ApiController]") || AnyContent(files, "@RestController") || AnyContent(files, "app.get(")
    case DatabaseOperations =>
      AnyContent(files, "DbContext") || AnyContent(files, "@Entity") || AnyContent(files, "SELECT") || AnyContent(files, "INSERT")
    case UserInterface =>
      AnyPathEndsWith(files, ".html") || AnyPathEndsWith(files, ".jsx") || AnyPathEndsWith(files, ".tsx") || AnyPathEndsWith(files, ".vue")
    case AuthenticationAuthorization =>
      AnyContent(files, "authentication") || AnyContent(files, "jwt") || AnyContent(files, "login") || AnyContent(files, "authorize")
    case ExternalApi =>
      AnyContent(files, "HttpClient") || AnyContent(files, "axios") || AnyContent(files, "fetch")
  }

  function OfferedCapabilities(files: seq<CodeFile>): (r: seq<Capability>)
    ensures forall c :: c in r <==> Offers(files, c)
  {
    CapabilitiesListed();
    var offers := c => Offers(files, c);
    FilterIn(Capabilities, offers);
    Filter(Capabilities, offers)
  }

  lemma CapabilitiesListed()
    ensures forall c :: c in Capabilities
  {
    forall c ensures c in Capabilities {
      match c
      case RestApi => assert Capabilities[0] == c;
      case DatabaseOperations => assert Capabilities[1] == c;
      case UserInterface => assert Capabilities[2] == c;
      case AuthenticationAuthorization => assert Capabilities[3] == c;
      case ExternalApi => assert Capabilities[4] == c;
    }
  }

  /** `GenerateCoreFunctionality`: the capabilities found, or a generic sentence when there are none. */
  function CoreFunctionality(files: seq<CodeFile>): (r: string)
    ensures OfferedCapabilities(files) == [] ==> r == "Core application logic and data processing"
    ensures OfferedCapabilities(files) != [] ==> r == Join(Map(OfferedCapabilities(files), CapabilityLabel), ", ")
  {
    var found := OfferedCapabilities(files);
    if found == [] then "Core application logic and data processing" else Join(Map(found, CapabilityLabel), ", ")
  }

  datatype Feature = AiAnalysis | RealTime | FileProcessing | GitIntegration | Reporting | Dashboard

  function FeatureLabel(f: Feature): string
  {
    match f
    case AiAnalysis => "AI-Powered Analysis"
    case RealTime => "Real-Time Communication"
    case FileProcessing => "File Upload & Processing"
    case GitIntegration => "Git Repository Integration"
    case Reporting => "Comprehensive Reporting"
    case Dashboard => "Analytics Dashboard"
  }

  const Features: seq<Feature> := [AiAnalysis, RealTime, FileProcessing, GitIntegration, Reporting, Dashboard]

  /** The evidence `IdentifyKeyFeatures` accepts for each feature. */
  predicate Shows(files: seq<CodeFile>, folders: seq<string>, f: Feature)
  {
    match f
    case AiAnalysis =>
      AnyContent(files, "OpenAI") || AnyContent(files, "ChatGPT") || AnyContent(files, "AI") || AnyContent(files, "MachineLearning")
    case RealTime => AnyContent(files, "SignalR") || AnyContent(files, "WebSocket") || AnyContent(files, "socket.io")
    case FileProcessing => AnyContent(files, "ZipFile") || AnyContent(files, "FileStream") || AnyContent(files, "Upload")
    case GitIntegration => AnyContent(files, "LibGit2") || AnyContent(files, "GitRepository") || AnyContent(files, "git")
    case Reporting => AnyFolder(folders, "report")
    case Dashboard => AnyPath(files, "dashboard")
  }

  function ShownFeatures(files: seq<CodeFile>, folders: seq<string>): (r: seq<Feature>)
    ensures forall f :: f in r <==> Shows(files, folders, f)
  {
    FeaturesListed();
    var shows := f => Shows(files, folders, f);
    FilterIn(Features, shows);
    Filter(Features, shows)
  }

  lemma FeaturesListed()
    ensures forall f :: f in Features
  {
    forall f ensures f in Features {
      match f
      case AiAnalysis => assert Features[0] == f;
      case RealTime => assert Features[1] == f;
      case FileProcessing => assert Features[2] == f;
      case GitIntegration => assert Features[3] == f;
      case Reporting => assert Features[4] == f;
      case Dashboard => assert Features[5] == f;
    }
  }

  const FallbackFeatures: seq<string> := ["Data Processing", "Business Logic", "User Management"]

  /** `IdentifyKeyFeatures`: the labels of the features shown, or three generic ones. */
  function KeyFeatures(files: seq<CodeFile>, folders: seq<string>): (r: seq<string>)
    ensures ShownFeatures(files, folders) == [] ==> r == FallbackFeatures
    ensures ShownFeatures(files, folders) != [] ==> r == Map(ShownFeatures(files, folders), FeatureLabel)
    ensures 1 <= |r| <= 6
  {
    var shown := ShownFeatures(files, folders);
    if shown == [] then FallbackFeatures else Map(shown, FeatureLabel)
  }

  // ---------------------------------------------------------------- main components

  /** A folder is a main component when its last name part is longer than 3 and it holds more than 5 files. */
  predicate IsComponent(folderStructure: Tally<string>, folder: string)
  {
    |FileName(folder)| > 3 && CountOf(folderStructure, folder) > 5
  }

  /** `$"{folderName} ({count} files)"`. */
  function ComponentEntry(folderStructure: Tally<string>, folder: string): string
  {
    FileName(folder) + " (" + NatToString(CountOf(folderStructure, folder)) + " files)"
  }

  /** The components among `folders`, in order. */
  function ComponentFolders(folderStructure: Tally<string>, folders: seq<string>): (r: seq<string>)
    ensures |r| <= |folders|
    ensures forall i :: 0 <= i < |r| ==> r[i] in folders && IsComponent(folderStructure, r[i])
    ensures forall i :: 0 <= i < |folders| && IsComponent(folderStructure, folders[i]) ==> folders[i] in r
  {
    if folders == [] then []
    else
      var init := folders[..|folders| - 1];
      var f := folders[|folders| - 1];
      assert folders == init + [f];
      ComponentFolders(folderStructure, init) + (if IsComponent(folderStructure, f) then [f] else [])
  }

  function ComponentEntries(folderStructure: Tally<string>, folders: seq<string>): (r: seq<string>)
    ensures |r| == |folders| && forall i :: 0 <= i < |folders| ==> r[i] == ComponentEntry(folderStructure, folders[i])
  {
    seq(|folders|, i requires 0 <= i < |folders| => ComponentEntry(folderStructure, folders[i]))
  }

  /**
   * What `IdentifyMainComponents` returns: at most ten entries, the first qualifying folders in
   * key order, each naming a folder whose name is longer than three characters and that holds
   * more than five files.
   */
  function MainComponents(folderStructure: Tally<string>): (r: seq<string>)
    ensures |r| <= 10
    ensures forall i :: 0 <= i < |r| ==>
      exists f :: f in folderStructure.keys && IsComponent(folderStructure, f) && r[i] == ComponentEntry(folderStructure, f)
  {
    var cs := ComponentFolders(folderStructure, folderStructure.keys);
    var r := Take(ComponentEntries(folderStructure, cs), 10);
    assert forall i :: 0 <= i < |r| ==> r[i] == ComponentEntry(folderStructure, cs[i]) && cs[i] in folderStructure.keys;
    r
  }

  lemma ComponentsStep(folderStructure: Tally<string>, folders: seq<string>, i: nat)
    requires i < |folders|
    ensures ComponentEntries(folderStructure, ComponentFolders(folderStructure, folders[..i + 1]))
      == ComponentEntries(folderStructure, ComponentFolders(folderStructure, folders[..i]))
         + (if IsComponent(folderStructure, folders[i]) then [ComponentEntry(folderStructure, folders[i])] else [])
  {
    assert folders[..i + 1][..i] == folders[..i];
  }

  /** `IdentifyMainComponents`: the `foreach` over the folder keys, then `Take(10)`. */
  method IdentifyMainComponents(folderStructure: Tally<string>) returns (components: seq<string>)
    ensures components == MainComponents(folderStructure)
  {
    var all: seq<string> := [];
    var folders := folderStructure.keys;
    for i := 0 to |folders|
      invariant all == ComponentEntries(folderStructure, ComponentFolders(folderStructure, folders[..i]))
    {
      var folder := folders[i];
      ComponentsStep(folderStructure, folders, i);
      var folderName := FileName(folder);
      if |folderName| > 3 && CountOf(folderStructure, folder) > 5 {
        all := all + [ComponentEntry(folderStructure, folder)];
      }
    }
    assert folders[..|folders|] == folders;
    components := Take(all, 10);
  }

  // ---------------------------------------------------------------- dependencies

  datatype Dependency = AngularFramework | ReactLibrary | VueFramework | EntityFrameworkCore | Swagger | SignalR

  function DependencyLabel(d: Dependency): string
  {
    match d
    case AngularFramework => "Angular Framework"
    case ReactLibrary => "React Library"
    case VueFramework => "Vue.js Framework"
    case EntityFrameworkCore => "Entity Framework Core"
    case Swagger => "Swagger/OpenAPI"
    case SignalR => "SignalR"
  }

  const Dependencies: seq<Dependency> := [AngularFramework, ReactLibrary, VueFramework, EntityFrameworkCore, Swagger, SignalR]

  /** `files.FirstOrDefault(f => f.FilePath.EndsWith(suffix))`. */
  function FirstEndingWith(files: seq<CodeFile>, suffix: string): (r: Option<CodeFile>)
    ensures r.None? <==> !AnyPathEndsWith(files, suffix)
    ensures r.Some? ==> exists j :: 0 <= j < |files| && files[j] == r.value && EndsWith(r.value.filePath, suffix)
                                  && (forall i :: 0 <= i < j ==> !EndsWith(files[i].filePath, suffix))
  {
    if files == [] then None
    else if EndsWith(files[0].filePath, suffix) then Some(files[0])
    else
      var rest := FirstEndingWith(files[1..], suffix);
      assert forall i :: 1 <= i < |files| ==> files[i] == files[1..][i - 1];
      rest
  }

  predicate ManifestMentions(manifest: Option<CodeFile>, p: string)
  {
    manifest.Some? && Contains(manifest.value.content, p)
  }

  /** A dependency is listed when the first `package.json` or the first `.csproj` names it. */
  predicate DependsOn(files: seq<CodeFile>, d: Dependency)
  {
    var packageJson := FirstEndingWith(files, "package.json");
    var csproj := FirstEndingWith(files, ".csproj");
    match d
    case AngularFramework => ManifestMentions(packageJson, "\"@angular/")
    case ReactLibrary => ManifestMentions(packageJson, "\"react\"")
    case VueFramework => ManifestMentions(packageJson, "\"vue\"")
    case EntityFrameworkCore => ManifestMentions(csproj, "EntityFrameworkCore")
    case Swagger => ManifestMentions(csproj, "Swashbuckle")
    case SignalR => ManifestMentions(csproj, "SignalR")
  }

  /** `ExtractDependencies`: the conditional `Add`s over the two manifests, then `Take(10)`. */
  function ExtractDependencies(files: seq<CodeFile>): (r: seq<string>)
    ensures |r| <= 6
    ensures forall d :: DependencyLabel(d) in r <==> DependsOn(files, d)
    ensures !AnyPathEndsWith(files, "package.json") && !AnyPathEndsWith(files, ".csproj") ==> r == []
  {
    DependenciesListed();
    var dependsOn := d => DependsOn(files, d);
    FilterIn(Dependencies, dependsOn);
    var found := Filter(Dependencies, dependsOn);
    assert found != [] ==> DependsOn(files, found[0]);
    LabelsInjective(found);
    Take(Map(found, DependencyLabel), 10)
  }

  lemma DependenciesListed()
    ensures forall d :: d in Dependencies
  {
    forall d ensures d in Dependencies {
      match d
      case AngularFramework => assert Dependencies[0] == d;
      case ReactLibrary => assert Dependencies[1] == d;
      case VueFramework => assert Dependencies[2] == d;
      case EntityFrameworkCore => assert Dependencies[3] == d;
      case Swagger => assert Dependencies[4] == d;
      case SignalR => assert Dependencies[5] == d;
    }
  }

  lemma LabelsInjective(found: seq<Dependency>)
    ensures forall d :: DependencyLabel(d) in Map(found, DependencyLabel) <==> d in found
  {
    forall d | DependencyLabel(d) in Map(found, DependencyLabel) ensures d in found {
      var i :| 0 <= i < |found| && Map(found, DependencyLabel)[i] == DependencyLabel(d);
      DependencyLabelInjective(found[i], d);
    }
  }

  lemma DependencyLabelInjective(a: Dependency, b: Dependency)
    requires DependencyLabel(a) == DependencyLabel(b)
    ensures a == b
  {
  }

  // ---------------------------------------------------------------- the summary

  /** `GenerateProjectDescription`. */
  function Description(techStack: string, architecture: string, businessLogic: string): string
  {
    "A " + architecture + "-based application built with " + techStack + ". "
    + "The project implements " + businessLogic + " functionality with a focus on maintainability and scalability."
  }

  /**
   * What `GenerateProjectSummary` builds: every field from its classifier, the project name from
   * the current directory and the description from the stack, architecture and business areas.
   */
  predicate OfflineSummary(summary: ProjectSummary, files: seq<CodeFile>, folderStructure: Tally<string>,
                           fileTypes: Tally<string>, currentDirectory: string)
  {
    && summary.projectName == FileName(currentDirectory)
    && summary.folderStructure == folderStructure && summary.fileTypeDistribution == fileTypes
    && summary.primaryLanguage == PrimaryLanguage(fileTypes)
    && summary.technologyStack == TechnologyStack(files, fileTypes)
    && summary.architecture == ArchitectureLabel(ArchitectureOf(folderStructure.keys))
    && summary.coreFunctionality == CoreFunctionality(files)
    && summary.keyFeatures == KeyFeatures(files, folderStructure.keys)
    && summary.mainComponents == MainComponents(folderStructure)
    && summary.dependencies == ExtractDependencies(files)
    && summary.businessLogic == (if MentionedAreas(files, folderStructure.keys, BusinessAreas) == [] then "General Purpose Application"
      else Join(DistinctValues(Map(MentionedAreas(files, folderStructure.keys, BusinessAreas), BusinessLabel)), ", "))
    && summary.description == Description(summary.technologyStack, summary.architecture, summary.businessLogic)
  }

  /**
   * `GenerateProjectSummary`: the offline summary. `currentDirectory` stands for
   * `Environment.CurrentDirectory`, whose last name part becomes the project name.
   */
  method GenerateProjectSummary(files: seq<CodeFile>, folderStructure: Tally<string>, fileTypes: Tally<string>,
                                currentDirectory: string)
    returns (summary: ProjectSummary)
    ensures OfflineSummary(summary, files, folderStructure, fileTypes, currentDirectory)
  {
    var primaryLanguage := PrimaryLanguage(fileTypes);
    var techStack := TechnologyStack(files, fileTypes);
    var architecture := ArchitectureLabel(ArchitectureOf(folderStructure.keys));
    var businessLogic, _ := ExtractBusinessLogic(files, folderStructure.keys);
    var keyFeatures := KeyFeatures(files, folderStructure.keys);
    var mainComponents := IdentifyMainComponents(folderStructure);
    var dependencies := ExtractDependencies(files);
    summary := ProjectSummary(
      projectName := FileName(currentDirectory),
      description := Description(techStack, architecture, businessLogic),
      technologyStack := techStack,
      architecture := architecture,
      businessLogic := businessLogic,
      coreFunctionality := CoreFunctionality(files),
      keyFeatures := keyFeatures,
      folderStructure := folderStructure,
      fileTypeDistribution := fileTypes,
      mainComponents := mainComponents,
      primaryLanguage := primaryLanguage,
      dependencies := dependencies);
  }

  /** `$"{f.FilePath}:\n{first 500 characters of the content}"`. */
  function Excerpt(f: CodeFile): string
  {
    f.filePath + ":\n" + Take(f.content, 500)
  }

  function Excerpts(files: seq<CodeFile>): (r: seq<string>)
    ensures |r| == |files| && forall i :: 0 <= i < |files| ==> r[i] == Excerpt(files[i])
  {
    seq(|files|, i requires 0 <= i < |files| => Excerpt(files[i]))
  }

  /** The files sampled for the prompt: the first ten key files. */
  function KeyFileSample(files: seq<CodeFile>): (r: seq<CodeFile>)
    ensures |r| <= 10
    ensures forall i :: 0 <= i < |r| ==> r[i] in files && IsKeyFile(r[i].filePath)
    ensures |Filter(files, (f: CodeFile) => IsKeyFile(f.filePath))| <= 10 ==>
      forall i :: 0 <= i < |files| && IsKeyFile(files[i].filePath) ==> files[i] in r
  {
    Take(Filter(files, (f: CodeFile) => IsKeyFile(f.filePath)), 10)
  }

  /** `ParseAIResponse`: a summary holding at most the first 500 characters of the reply. */
  function ParseSummaryReply(reply: string, folderStructure: Tally<string>, fileTypes: Tally<string>): (r: ProjectSummary)
    ensures r.projectName == "Analyzed Project"
    ensures |r.description| <= 500 && |r.description| <= |reply| && r.description == reply[..|r.description|]
    ensures |reply| <= 500 ==> r.description == reply
    ensures r.folderStructure == folderStructure && r.fileTypeDistribution == fileTypes
    ensures r.technologyStack == r.architecture == r.businessLogic == r.coreFunctionality == r.primaryLanguage == ""
    ensures r.keyFeatures == r.mainComponents == r.dependencies == []
  {
    ProjectSummary(
      projectName := "Analyzed Project",
      description := if |reply| > 500 then reply[..500] else reply,
      technologyStack := "", architecture := "", businessLogic := "", coreFunctionality := "",
      keyFeatures := [],
      folderStructure := folderStructure,
      fileTypeDistribution := fileTypes,
      mainComponents := [],
      primaryLanguage := "",
      dependencies := [])
  }

  /**
   * The summary `AnalyzeProjectStructureAsync` settles on: the model's reply to the summary
   * prompt, or the offline summary in demo mode or when the model call fails.
   */
  predicate SummaryOutcome(summary: ProjectSummary, files: seq<CodeFile>, folderStructure: Tally<string>,
                           fileTypes: Tally<string>, provider: Option<string>, currentDirectory: string,
                           complete: Prompt -> Option<string>)
  {
    var reply := complete(SummaryRequest(folderStructure, fileTypes, Excerpts(KeyFileSample(files))));
    if !IsDemo(provider) && reply.Some? then summary == ParseSummaryReply(reply.value, folderStructure, fileTypes)
    else OfflineSummary(summary, files, folderStructure, fileTypes, currentDirectory)
  }

  /**
   * `AnalyzeProjectStructureAsync`: reports 7, then builds the offline summary in demo mode or
   * when the model call fails, and otherwise wraps the model's reply.
   */
  method AnalyzeProjectStructure(files: seq<CodeFile>, folderStructure: Tally<string>, fileTypes: Tally<string>,
                                 provider: Option<string>, sink: bool, currentDirectory: string,
                                 complete: Prompt -> Option<string>)
    returns (summary: ProjectSummary, events: seq<int>)
    ensures events == (if sink then [7] else [])
    ensures summary.folderStructure == folderStructure && summary.fileTypeDistribution == fileTypes
    ensures SummaryOutcome(summary, files, folderStructure, fileTypes, provider, currentDirectory, complete)
  {
    events := Emit([], sink, 7);
    if IsDemo(provider) {
      summary := GenerateProjectSummary(files, folderStructure, fileTypes, currentDirectory);
      return;
    }
    var keyFiles := Excerpts(KeyFileSample(files));
    var reply := complete(SummaryRequest(folderStructure, fileTypes, keyFiles));
    if reply.Some? {
      summary := ParseSummaryReply(reply.value, folderStructure, fileTypes);
    } else {
      summary := GenerateProjectSummary(files, folderStructure, fileTypes, currentDirectory);
    }
  }
}
