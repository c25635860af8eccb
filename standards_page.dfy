/** The standards page: the standards grouped by category, and how many came from existing documents. */
module StandardsPage {
  import opened Collections
  import opened WebModels

  function CategoryOf(s: Standard): string
  {
    s.category
  }

  /**
   * `categorizedStandards`: a `Map` from each category to its standards, categories in order of
   * first appearance and each group in the original order.
   */
  method CategorizedStandards(standards: seq<Standard>) returns (g: Groups<string, Standard>)
    ensures g == GroupBy(standards, CategoryOf)
    ensures GroupsOf(standards, CategoryOf, g)
  {
    var keys: seq<string> := [];
    var members: map<string, seq<Standard>> := map[];
    for i := 0 to |standards|
      invariant Groups(keys, members) == GroupBy(standards[..i], CategoryOf)
    {
      GroupByStep(standards, i, CategoryOf, keys, members);
      var category := standards[i].category;
      if category !in members {
        keys := keys + [category];
        members := members[category := []];
      }
      members := members[category := members[category] + [standards[i]]];
    }
    assert standards[..|standards|] == standards;
    g := Groups(keys, members);
    GroupByCorrect(standards, CategoryOf);
  }

  /** `categories`: the keys of that map, each category once, in order of first appearance. */
  method Categories(standards: seq<Standard>) returns (categories: seq<string>)
    ensures Distinct(categories)
    ensures forall c :: c in categories <==> exists i | 0 <= i < |standards| :: standards[i].category == c
    ensures forall i, j :: 0 <= i < j < |categories| ==>
      FirstIndex(standards, CategoryOf, categories[i]) < FirstIndex(standards, CategoryOf, categories[j])
  {
    var g := CategorizedStandards(standards);
    categories := g.keys;
    forall c ensures HasKey(standards, CategoryOf, c) <==> exists i | 0 <= i < |standards| :: standards[i].category == c {
    }
  }

  function IsFromExistingDocs(s: Standard): bool
  {
    s.isFromExistingDocs
  }

  function IsGenerated(s: Standard): bool
  {
    !s.isFromExistingDocs
  }

  /** `existingStandardsCount`: the standards taken from the repository's own documents. */
  function ExistingStandardsCount(standards: seq<Standard>): (r: nat)
    ensures r <= |standards|
    ensures r == 0 <==> forall i :: 0 <= i < |standards| ==> !standards[i].isFromExistingDocs
  {
    var xs := Filter(standards, IsFromExistingDocs);
    assert xs != [] ==> xs[0] in standards && xs[0].isFromExistingDocs;
    |xs|
  }

  /** `generatedStandardsCount`: the standards generated from the code. */
  function GeneratedStandardsCount(standards: seq<Standard>): (r: nat)
    ensures r <= |standards|
    ensures r == 0 <==> forall i :: 0 <= i < |standards| ==> standards[i].isFromExistingDocs
  {
    var xs := Filter(standards, IsGenerated);
    assert xs != [] ==> xs[0] in standards && !xs[0].isFromExistingDocs;
    |xs|
  }

  /** Every standard is counted exactly once, as existing or as generated. */
  lemma StandardsCountsAddUp(standards: seq<Standard>)
    ensures ExistingStandardsCount(standards) + GeneratedStandardsCount(standards) == |standards|
  {
    FilterComplement(standards, IsFromExistingDocs, IsGenerated);
    assert |multiset(Filter(standards, IsFromExistingDocs))| + |multiset(Filter(standards, IsGenerated))| == |multiset(standards)|;
  }
}
