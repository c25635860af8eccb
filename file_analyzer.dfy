/**
 * `FileAnalyzer`: whether an uploaded path is skipped, and which `FileType` a file has.
 * The C# sets and maps are built with `StringComparer.OrdinalIgnoreCase`; here every key is
 * written in lower case and the probe is lowered, which is the same comparison.
 */
module FileAnalyzer {
  import opened Wrappers
  import opened Text
  import opened Paths
  import opened Domain

  /** Folder names whose files are never analysed (".DS_Store" and "Thumbs.db" appear lowered). */
  const IgnoredFolders: set<string> := {
      "node_modules", "bower_components", ".npm", ".yarn", ".pnp", "dist", "build", "out",
      "target", "bin", "obj", ".vs", ".vscode", ".idea", ".eclipse", ".settings",
      ".git", ".svn", ".hg", "packages", "vendor", "__pycache__", ".pytest_cache", ".mypy_cache",
      ".tox", "venv", ".venv", "env", ".env", "virtualenv", ".bundle", ".gradle",
      ".m2", "coverage", ".nyc_output", "htmlcov", "logs", "log", "tmp", "temp",
      ".tmp", ".temp", ".ds_store", "thumbs.db"
    }

  /** Extension table; every key is written in lower case, so an ignore-case lookup is a lookup of `Lower(ext)`. */
  const ExtensionMap: map<string, FileType> := map[
      ".cs" := CSharp, ".vb" := VisualBasic, ".fs" := FSharp, ".fsx" := FSharp,
      ".fsi" := FSharp, ".csproj" := Configuration, ".vbproj" := Configuration, ".fsproj" := Configuration,
      ".sln" := Configuration, ".aspx" := ASPX, ".ascx" := ASCX, ".asmx" := ASMX,
      ".ashx" := ASPNET, ".master" := ASPNET, ".vbhtml" := ASPNET, ".cshtml" := ASPNET,
      ".razor" := ASPNET, ".resx" := XML, ".js" := JavaScript, ".jsx" := JSX,
      ".ts" := TypeScript, ".tsx" := TSX, ".mjs" := JavaScript, ".cjs" := JavaScript,
      ".html" := HTML, ".htm" := HTML, ".css" := CSS, ".scss" := CSS,
      ".sass" := CSS, ".less" := CSS, ".vue" := Vue, ".svelte" := Svelte,
      ".java" := Java, ".kt" := Kotlin, ".kts" := Kotlin, ".scala" := Scala,
      ".sc" := Scala, ".groovy" := Groovy, ".gradle" := Groovy, ".py" := Python,
      ".pyw" := Python, ".pyx" := Python, ".pyi" := Python, ".ipynb" := Python,
      ".php" := PHP, ".php3" := PHP, ".php4" := PHP, ".php5" := PHP,
      ".phtml" := PHP, ".rb" := Ruby, ".erb" := Ruby, ".rake" := Ruby,
      ".gemspec" := Ruby, ".go" := Go, ".rs" := Rust, ".c" := C,
      ".h" := C, ".cpp" := CPlusPlus, ".cc" := CPlusPlus, ".cxx" := CPlusPlus,
      ".hpp" := CPlusPlus, ".hxx" := CPlusPlus, ".m" := ObjectiveC, ".mm" := ObjectiveC,
      ".swift" := Swift, ".dart" := Dart, ".sql" := SQL, ".sh" := Shell,
      ".bash" := Shell, ".zsh" := Shell, ".fish" := Shell, ".ps1" := PowerShell,
      ".psm1" := PowerShell, ".psd1" := PowerShell, ".bat" := Shell, ".cmd" := Shell,
      ".json" := JSON, ".xml" := XML, ".yaml" := YAML, ".yml" := YAML,
      ".toml" := Configuration, ".config" := Configuration, ".ini" := Configuration, ".conf" := Configuration,
      ".properties" := Configuration, ".env" := Configuration, ".settings" := Configuration, ".editorconfig" := Configuration,
      ".gitignore" := Configuration, ".dockerignore" := Configuration, ".md" := Markdown, ".markdown" := Markdown,
      ".txt" := Markdown, ".rst" := Markdown, ".adoc" := Markdown, ".pl" := Perl,
      ".pm" := Perl, ".r" := R, ".lua" := Lua, ".ex" := Elixir,
      ".exs" := Elixir, ".hs" := Haskell, ".lhs" := Haskell, ".dockerfile" := Configuration
    ]

  /** File names classified by name before the extension is looked at ("Dockerfile", "CMakeLists.txt", ... lowered). */
  const SpecialFileNames: set<string> := {
      "dockerfile", "docker-compose.yml", "docker-compose.yaml", "makefile", "cmakelists.txt",
      "build.gradle", "pom.xml", "package.json", "composer.json", "gemfile", "cargo.toml",
      "requirements.txt", "setup.py", "pipfile"
    }

  predicate IsIgnoredFolder(part: string)
  {
    Lower(part) in IgnoredFolders
  }

  /** `ShouldIgnoreFile`: some non-empty '/'- or '\\'-separated segment is an ignored folder name. */
  predicate ShouldIgnoreFile(filePath: string)
  {
    exists part | part in Segments(filePath) :: IsIgnoredFolder(part)
  }

  predicate IsSpecialName(name: string)
  {
    Lower(name) in SpecialFileNames
  }

  /** The name branches of `GetFileType`, tried in order on the lowered name; `None` falls through to the extension. */
  function SpecialType(name: string): Option<FileType>
  {
    LoweredSpecialType(Lower(name))
  }

  /** The name branches on an already lowered name. */
  function LoweredSpecialType(n: string): Option<FileType>
  {
    if n == "dockerfile" then Some(Configuration)
    else if EndsWith(n, ".yml") || EndsWith(n, ".yaml") then Some(YAML)
    else if n == "makefile" || n == "cmakelists.txt" || n == "cargo.toml" || n == "requirements.txt"
         || n == "pipfile" then Some(Configuration)
    else if n == "build.gradle" then Some(Groovy)
    else if n == "pom.xml" then Some(XML)
    else if n == "package.json" || n == "composer.json" then Some(JSON)
    else if n == "gemfile" then Some(Ruby)
    else if n == "setup.py" then Some(Python)
    else None
  }

  function ExtensionType(extension: string): FileType
  {
    var key := Lower(extension);
    if key in ExtensionMap then ExtensionMap[key] else Unknown
  }

  /** `GetFileType`: special file names first, then the extension table, else `Unknown`. */
  function GetFileType(fileName: string): FileType
  {
    var name := FileName(fileName);
    if IsSpecialName(name) && SpecialType(name).Some? then SpecialType(name).value
    else ExtensionType(Extension(fileName))
  }

  predicate IsCodeFile(t: FileType)
  {
    !t.Unknown? && !t.Markdown? && !t.Configuration?
  }

  predicate IsMarkdownFile(t: FileType)
  {
    t.Markdown?
  }

  // ---------------------------------------------------------------- properties

  /** Every special file name, in any letter case, is classified by a name branch. */
  lemma SpecialNamesResolve(path: string)
    requires IsSpecialName(FileName(path))
    ensures SpecialType(FileName(path)).Some?
    ensures GetFileType(path) == SpecialType(FileName(path)).value
  {
    SpecialNamesHaveType(Lower(FileName(path)));
  }

  /** Each lowered special name is matched by one of the name branches. */
  lemma SpecialNamesHaveType(n: string)
    requires n in SpecialFileNames
    ensures LoweredSpecialType(n).Some?
  {
    if n == "docker-compose.yml" {
      assert n[|n| - 4..] == ".yml";
    } else if n == "docker-compose.yaml" {
      assert n[|n| - 5..] == ".yaml";
    }
  }

  /** A special name placed in any folder keeps the type its name gives it. */
  lemma SpecialInFolder(dir: string, name: string)
    requires forall i :: 0 <= i < |name| ==> name[i] != '/'
    requires IsSpecialName(name)
    ensures SpecialType(name).Some?
    ensures GetFileType(dir + "/" + name) == SpecialType(name).value
  {
    FileNameOfJoin(dir, name);
    SpecialNamesResolve(dir + "/" + name);
  }

  lemma RequirementsTxtSpecial()
    ensures IsSpecialName("requirements.txt") && SpecialType("requirements.txt") == Some(Configuration)
  {
    var r := "requirements.txt";
    assert Lower(r) == r;
    assert r[|r| - 4..] == ".txt";
  }

  lemma CMakeListsSpecial()
    ensures IsSpecialName("CMakeLists.txt") && SpecialType("CMakeLists.txt") == Some(Configuration)
  {
    var n := "cmakelists.txt";
    assert Lower("CMakeLists.txt") == n;
    assert n[|n| - 4..] == ".txt";
  }

  lemma RequirementsTxtIsConfiguration(path: string)
    requires FileName(path) == "requirements.txt"
    ensures GetFileType(path).Configuration?
  {
    RequirementsTxtSpecial();
    SpecialNamesResolve(path);
  }

  lemma CMakeListsIsConfiguration(path: string)
    requires FileName(path) == "CMakeLists.txt"
    ensures GetFileType(path).Configuration?
  {
    CMakeListsSpecial();
    SpecialNamesResolve(path);
  }

  lemma TxtIsMarkdown()
    ensures ExtensionType(".txt").Markdown?
  {
    assert Lower(".txt") == ".txt";
  }

  lemma RequirementsInFolder(dir: string)
    ensures GetFileType(dir + "/" + "requirements.txt").Configuration?
  {
    RequirementsTxtSpecial();
    SpecialInFolder(dir, "requirements.txt");
  }

  lemma CMakeListsInFolder(dir: string)
    ensures GetFileType(dir + "/" + "CMakeLists.txt").Configuration?
  {
    CMakeListsSpecial();
    SpecialInFolder(dir, "CMakeLists.txt");
  }

  /** The extension lookup ignores letter case. */
  lemma ExtensionTypeIgnoresCase(extension: string)
    ensures ExtensionType(extension) == ExtensionType(Lower(extension))
  {
    LowerIdempotent(extension);
  }

  /** Outside the special names, an extension missing from the table gives `Unknown`, and a listed one its entry. */
  lemma UnmappedIsUnknown(path: string)
    requires !IsSpecialName(FileName(path))
    ensures Lower(Extension(path)) !in ExtensionMap ==> GetFileType(path) == Unknown
    ensures Lower(Extension(path)) in ExtensionMap ==> GetFileType(path) == ExtensionMap[Lower(Extension(path))]
  {
  }

  /** On a path built from well-formed segments, a file is skipped iff one of its segments is an ignored folder. */
  lemma ShouldIgnoreJoined(parts: seq<string>)
    requires WellFormedSegments(parts)
    ensures ShouldIgnoreFile(Join(parts, "/")) <==> exists i | 0 <= i < |parts| :: IsIgnoredFolder(parts[i])
  {
    SegmentsOfJoin(parts);
  }

  /** A file type is never both a Markdown type and a code type. */
  lemma MarkdownIsNotCode(t: FileType)
    ensures IsMarkdownFile(t) ==> !IsCodeFile(t)
    ensures !IsCodeFile(t) <==> t in {Unknown, Markdown, Configuration}
  {
  }
}
