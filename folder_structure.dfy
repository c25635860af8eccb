/**
 * `FolderStructureAnalyzer`: files bucketed by directory, the folders that hold components,
 * and the two structure suggestions.
 */
module FolderStructureAnalyzer {
  import opened Collections
  import opened Text
  import opened Paths
  import opened Domain

  /** `ComponentGroup`: a folder and the component files in it. */
  datatype ComponentGroup = ComponentGroup(folderPath: string, components: seq<CodeFile>)

  /**
   * `FolderStructure`: `Folders` is a dictionary from directory to `FolderInfo` (its path and
   * files), held as insertion-ordered groups.
   */
  datatype FolderStructure = FolderStructure(
    folders: Groups<string, CodeFile>,
    componentGroups: seq<ComponentGroup>,
    suggestions: seq<Suggestion>)

  /** `Path.GetDirectoryName(file.FilePath) ?? ""`. */
  function FolderOf(f: CodeFile): string
  {
    DirectoryName(f.filePath)
  }

  /** The files of folder `k`, or none when `k` is not a folder. */
  function FilesIn(g: Groups<string, CodeFile>, k: string): seq<CodeFile>
  {
    if k in g.members then g.members[k] else []
  }

  /** The `IdentifyComponentGroups` filter on `FileName` (ordinal, case-sensitive). */
  predicate IsComponentFile(f: CodeFile)
  {
    Contains(f.fileName, ".component.") || Contains(f.fileName, "Controller") || Contains(f.fileName, "Service")
  }

  /** The `foreach` of `BuildStructureAsync`: each file appended to the bucket of its directory. */
  method BucketFiles(files: seq<CodeFile>) returns (folders: Groups<string, CodeFile>)
    ensures folders == GroupBy(files, FolderOf)
  {
    folders := Bucket(files, FolderOf);
  }

  /** The bucketing loop for any key: a new key is appended on first sight, then the element to its bucket. */
  method Bucket<K(==), T>(xs: seq<T>, key: T -> K) returns (g: Groups<K, T>)
    ensures g == GroupBy(xs, key)
  {
    var keys: seq<K> := [];
    var members: map<K, seq<T>> := map[];
    var i := 0;
    while i < |xs|
      invariant 0 <= i <= |xs|
      invariant Groups(keys, members) == GroupBy(xs[..i], key)
    {
      var k := key(xs[i]);
      GroupByStep(xs, i, key, keys, members);
      var bucket: seq<T> := [];
      if k in members {
        bucket := members[k];
      } else {
        keys := keys + [k];
      }
      members := members[k := bucket + [xs[i]]];
      i := i + 1;
    }
    assert xs[..i] == xs;
    g := Groups(keys, members);
  }

  /** `BuildStructureAsync`: buckets the files, then adds component groups and suggestions. */
  method BuildStructure(files: seq<CodeFile>) returns (s: FolderStructure)
    ensures s.folders == GroupBy(files, FolderOf)
    ensures GroupsOf(files, FolderOf, s.folders)
    ensures s.componentGroups == ComponentGroupsFor(files)
    ensures s.suggestions == Suggestions(s.folders)
  {
    var folders := BucketFiles(files);
    GroupByCorrect(files, FolderOf);
    var groups := IdentifyComponentGroups(folders);
    s := FolderStructure(folders, groups, Suggestions(folders));
  }

  // ---------------------------------------------------------------- component groups

  /** The groups of the folders in `keys`, in that order, of the files satisfying `p`. */
  function ComponentGroupsOf(g: Groups<string, CodeFile>, keys: seq<string>, p: CodeFile -> bool): seq<ComponentGroup>
  {
    if keys == [] then []
    else
      var k := keys[|keys| - 1];
      var comps := Filter(FilesIn(g, k), p);
      ComponentGroupsOf(g, keys[..|keys| - 1], p) + (if |comps| > 0 then [ComponentGroup(k, comps)] else [])
  }

  /** `IdentifyComponentGroups`: one group per folder (in dictionary order) with at least one component file. */
  method IdentifyComponentGroups(folders: Groups<string, CodeFile>) returns (groups: seq<ComponentGroup>)
    ensures groups == ComponentGroupsOf(folders, folders.keys, IsComponentFile)
  {
    groups := [];
    var i := 0;
    while i < |folders.keys|
      invariant 0 <= i <= |folders.keys|
      invariant groups == ComponentGroupsOf(folders, folders.keys[..i], IsComponentFile)
    {
      var folder := folders.keys[i];
      var componentFiles := Filter(FilesIn(folders, folder), IsComponentFile);
      if |componentFiles| > 0 {
        groups := groups + [ComponentGroup(folder, componentFiles)];
      }
      assert folders.keys[..i + 1][..i] == folders.keys[..i];
      i := i + 1;
    }
    assert folders.keys[..i] == folders.keys;
  }

  /** Some group in `cg` is for folder `k`. */
  predicate HasGroupFor(cg: seq<ComponentGroup>, k: string)
  {
    exists j | 0 <= j < |cg| :: cg[j].folderPath == k
  }

  /** Some file of folder `k` satisfies `p`. */
  predicate HasFileIn(files: seq<CodeFile>, k: string, p: CodeFile -> bool)
  {
    exists i | 0 <= i < |files| :: FolderOf(files[i]) == k && p(files[i])
  }

  /** Some file of folder `k` is a component file. */
  predicate HasComponentIn(files: seq<CodeFile>, k: string)
  {
    HasFileIn(files, k, IsComponentFile)
  }

  lemma {:induction false} ComponentGroupsOfShape(g: Groups<string, CodeFile>, keys: seq<string>, p: CodeFile -> bool)
    ensures forall j :: 0 <= j < |ComponentGroupsOf(g, keys, p)| ==>
      ComponentGroupsOf(g, keys, p)[j].folderPath in keys
      && ComponentGroupsOf(g, keys, p)[j].components == Filter(FilesIn(g, ComponentGroupsOf(g, keys, p)[j].folderPath), p)
      && ComponentGroupsOf(g, keys, p)[j].components != []
    ensures forall k :: k in keys && Filter(FilesIn(g, k), p) != [] ==> HasGroupFor(ComponentGroupsOf(g, keys, p), k)
  {
    if keys != [] {
      var init := keys[..|keys| - 1];
      ComponentGroupsOfShape(g, init, p);
      var r, r0 := ComponentGroupsOf(g, keys, p), ComponentGroupsOf(g, init, p);
      assert forall j :: 0 <= j < |r0| ==> r[j] == r0[j];
      forall k | k in keys && Filter(FilesIn(g, k), p) != []
        ensures HasGroupFor(r, k)
      {
        if k in init {
          var j :| 0 <= j < |r0| && r0[j].folderPath == k;
          assert r[j].folderPath == k;
        } else {
          assert k == keys[|keys| - 1];
          assert r[|r0|].folderPath == k;
        }
      }
    }
  }

  /** The groups of the structure built from `files`. */
  function ComponentGroupsFor(files: seq<CodeFile>): seq<ComponentGroup>
  {
    var g := GroupBy(files, FolderOf);
    ComponentGroupsOf(g, g.keys, IsComponentFile)
  }

  lemma GroupHasFileWhere(files: seq<CodeFile>, k: string, p: CodeFile -> bool)
    requires var g := GroupBy(files, FolderOf); HasGroupFor(ComponentGroupsOf(g, g.keys, p), k)
    ensures HasFileIn(files, k, p)
  {
    var g := GroupBy(files, FolderOf);
    var cg := ComponentGroupsOf(g, g.keys, p);
    var j :| 0 <= j < |cg| && cg[j].folderPath == k;
    ComponentGroupsOfShape(g, g.keys, p);
    var x := cg[j].components[0];
    assert x in FilesIn(g, k) && p(x);
    GroupByKeys(files, FolderOf);
    GroupByMembers(files, FolderOf);
    SelectIn(files, FolderOf, k);
    assert x in files && FolderOf(x) == k;
    var i :| 0 <= i < |files| && files[i] == x;
  }

  lemma FileWhereHasGroup(files: seq<CodeFile>, k: string, p: CodeFile -> bool)
    requires HasFileIn(files, k, p)
    ensures var g := GroupBy(files, FolderOf); HasGroupFor(ComponentGroupsOf(g, g.keys, p), k)
  {
    var g := GroupBy(files, FolderOf);
    GroupByKeys(files, FolderOf);
    GroupByMembers(files, FolderOf);
    ComponentGroupsOfShape(g, g.keys, p);
    SelectIn(files, FolderOf, k);
    var i :| 0 <= i < |files| && FolderOf(files[i]) == k && p(files[i]);
    assert HasKey(files, FolderOf, k);
    var fs := FilesIn(g, k);
    assert files[i] in fs;
    assert files[i] in Filter(fs, p);
  }

  /** A folder has a component group iff one of its files is a component file. */
  lemma ComponentGroupFor(files: seq<CodeFile>, k: string)
    ensures HasGroupFor(ComponentGroupsFor(files), k) <==> HasComponentIn(files, k)
  {
    if HasGroupFor(ComponentGroupsFor(files), k) {
      GroupHasFileWhere(files, k, IsComponentFile);
    }
    if HasComponentIn(files, k) {
      FileWhereHasGroup(files, k, IsComponentFile);
    }
  }

  /** The groups are exactly the folders with a component file. */
  lemma ComponentGroupsExactly(files: seq<CodeFile>)
    ensures forall k :: HasGroupFor(ComponentGroupsFor(files), k) <==> HasComponentIn(files, k)
  {
    forall k ensures HasGroupFor(ComponentGroupsFor(files), k) <==> HasComponentIn(files, k) {
      ComponentGroupFor(files, k);
    }
  }

  /** Each group holds exactly its folder's component files, in file order. */
  lemma ComponentGroupsMembers(files: seq<CodeFile>)
    ensures var cg := ComponentGroupsFor(files);
      forall j :: 0 <= j < |cg| ==> cg[j].components == Filter(Select(files, FolderOf, cg[j].folderPath), IsComponentFile)
  {
    var g := GroupBy(files, FolderOf);
    var cg := ComponentGroupsOf(g, g.keys, IsComponentFile);
    GroupByKeys(files, FolderOf);
    GroupByMembers(files, FolderOf);
    ComponentGroupsOfShape(g, g.keys, IsComponentFile);
    forall j | 0 <= j < |cg|
      ensures cg[j].components == Filter(Select(files, FolderOf, cg[j].folderPath), IsComponentFile)
    {
      var k := cg[j].folderPath;
      assert k in g.members;
      assert FilesIn(g, k) == Select(files, FolderOf, k);
    }
  }

  // ---------------------------------------------------------------- suggestions

  /** The two suggestions `GenerateStructureSuggestions` can make; `Text` renders each as the source words it. */
  datatype Suggestion =
    | BreakDownLargeFolders(folderNames: seq<string>)
    | OrganizeByFeatures
  {
    function Text(): string
    {
      match this
      case BreakDownLargeFolders(names) => "Consider breaking down large folders: " + Join(names, ", ")
      case OrganizeByFeatures => "Consider organizing code by features for better scalability"
    }
  }

  /** The folders of `keys` holding more than 20 files, in order. */
  function LargeFolders(g: Groups<string, CodeFile>, keys: seq<string>): (r: seq<string>)
    ensures |r| <= |keys|
  {
    if keys == [] then []
    else
      var k := keys[|keys| - 1];
      LargeFolders(g, keys[..|keys| - 1]) + (if |FilesIn(g, k)| > 20 then [k] else [])
  }

  /** Some folder key contains "features", ignoring case. */
  predicate HasFeaturesFolder(g: Groups<string, CodeFile>)
  {
    exists i | 0 <= i < |g.keys| :: ContainsIgnoreCase(g.keys[i], "features")
  }

  /** `f.Path` of each large folder mapped to `Path.GetFileName`. */
  function FolderNames(paths: seq<string>): (r: seq<string>)
    ensures |r| == |paths|
    ensures forall i :: 0 <= i < |paths| ==> r[i] == FileName(paths[i])
  {
    if paths == [] then [] else [FileName(paths[0])] + FolderNames(paths[1..])
  }

  /** `GenerateStructureSuggestions`. */
  function Suggestions(g: Groups<string, CodeFile>): seq<Suggestion>
  {
    SuggestionsFrom(LargeFolders(g, g.keys), !HasFeaturesFolder(g) && |g.keys| > 10)
  }

  /** The suggestions for the given large folders and the "organize by features" condition. */
  function SuggestionsFrom(large: seq<string>, organize: bool): seq<Suggestion>
  {
    (if large != [] then [BreakDownLargeFolders(FolderNames(large))] else [])
    + (if organize then [OrganizeByFeatures] else [])
  }

  lemma {:induction false} LargeFoldersCorrect(g: Groups<string, CodeFile>, keys: seq<string>)
    ensures forall k :: k in LargeFolders(g, keys) <==> k in keys && |FilesIn(g, k)| > 20
  {
    if keys != [] {
      LargeFoldersCorrect(g, keys[..|keys| - 1]);
      assert keys == keys[..|keys| - 1] + [keys[|keys| - 1]];
    }
  }

  lemma SuggestionsFromShape(large: seq<string>, organize: bool)
    ensures |SuggestionsFrom(large, organize)| <= 2
    ensures (exists j | 0 <= j < |SuggestionsFrom(large, organize)| :: SuggestionsFrom(large, organize)[j].BreakDownLargeFolders?)
      <==> large != []
    ensures forall j | 0 <= j < |SuggestionsFrom(large, organize)| && SuggestionsFrom(large, organize)[j].BreakDownLargeFolders? ::
      SuggestionsFrom(large, organize)[j].folderNames == FolderNames(large)
    ensures OrganizeByFeatures in SuggestionsFrom(large, organize) <==> organize
  {
    if large != [] {
      assert SuggestionsFrom(large, organize)[0].BreakDownLargeFolders?;
    }
  }

  lemma FolderNamesIn(large: seq<string>, k: string)
    requires k in large
    ensures FileName(k) in FolderNames(large)
  {
    var i :| 0 <= i < |large| && large[i] == k;
    assert FolderNames(large)[i] == FileName(k);
  }

  /**
   * At most two suggestions. The "break down" one is present iff some folder has more than 20
   * files, and it names the file name of each such folder; the "organize by features" one is
   * present iff no folder key mentions "features" and there are more than 10 folders.
   */
  lemma SuggestionsCorrect(g: Groups<string, CodeFile>)
    ensures |Suggestions(g)| <= 2
    ensures (exists j | 0 <= j < |Suggestions(g)| :: Suggestions(g)[j].BreakDownLargeFolders?)
      <==> exists k :: k in g.keys && |FilesIn(g, k)| > 20
    ensures forall j | 0 <= j < |Suggestions(g)| && Suggestions(g)[j].BreakDownLargeFolders? ::
      forall k :: k in g.keys && |FilesIn(g, k)| > 20 ==> FileName(k) in Suggestions(g)[j].folderNames
    ensures OrganizeByFeatures in Suggestions(g) <==> !HasFeaturesFolder(g) && |g.keys| > 10
  {
    var large := LargeFolders(g, g.keys);
    LargeFoldersCorrect(g, g.keys);
    SuggestionsFromShape(large, !HasFeaturesFolder(g) && |g.keys| > 10);
    forall k | k in g.keys && |FilesIn(g, k)| > 20 ensures FileName(k) in FolderNames(large) {
      FolderNamesIn(large, k);
    }
    if large != [] {
      assert large[0] in g.keys && |FilesIn(g, large[0])| > 20;
    }
  }
}
