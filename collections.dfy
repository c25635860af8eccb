/**
 * Sequence helpers and the insertion-ordered grouping that C# `Dictionary`/`GroupBy` and the
 * ECMAScript `Map` give the code: keys come out in the order they were first seen.
 */
module Collections {

  predicate Distinct<T(==)>(s: seq<T>)
  {
    forall i, j :: 0 <= i < j < |s| ==> s[i] != s[j]
  }

  /** The empty sequence is the unit of concatenation. */
  lemma AppendEmpty<T>(a: seq<T>)
    ensures [] + a == a && a + [] == a
  {
  }

  /** Concatenation is associative. */
  lemma AppendAssoc<T>(a: seq<T>, b: seq<T>, c: seq<T>)
    ensures (a + b) + c == a + (b + c)
  {
  }

  function Flatten<T>(xss: seq<seq<T>>): seq<T>
  {
    if xss == [] then [] else xss[0] + Flatten(xss[1..])
  }

  lemma FlattenAppend<T>(a: seq<seq<T>>, b: seq<seq<T>>)
    ensures Flatten(a + b) == Flatten(a) + Flatten(b)
  {
    if a == [] {
      assert a + b == b;
    } else {
      assert (a + b)[1..] == a[1..] + b;
      FlattenAppend(a[1..], b);
      calc {
        Flatten(a + b);
        (a + b)[0] + Flatten((a + b)[1..]);
        a[0] + (Flatten(a[1..]) + Flatten(b));
        (a[0] + Flatten(a[1..])) + Flatten(b);
      }
    }
  }

  lemma FlattenSingle<T>(a: seq<T>)
    ensures Flatten([a]) == a
  {
    assert [a][1..] == [];
  }

  /** LINQ `Take(n)` / at most the first `n` elements. */
  function Take<T>(s: seq<T>, n: nat): (r: seq<T>)
    ensures |r| == if n <= |s| then n else |s|
    ensures r == s[..|r|]
  {
    if n <= |s| then s[..n] else s
  }

  /** LINQ `Chunk(n)`: consecutive slices of `n` elements, the last one possibly shorter. */
  function Chunk<T>(xs: seq<T>, n: nat): (r: seq<seq<T>>)
    requires n > 0
    decreases |xs|
  {
    if xs == [] then []
    else if |xs| <= n then [xs]
    else [xs[..n]] + Chunk(xs[n..], n)
  }

  /**
   * Chunking loses, adds and reorders nothing; every chunk is non-empty and at most `n` long,
   * only the last may be shorter, so there are `ceil(|xs| / n)` of them.
   */
  lemma {:induction false} ChunkCorrect<T>(xs: seq<T>, n: nat)
    requires n > 0
    ensures Flatten(Chunk(xs, n)) == xs
    ensures forall i :: 0 <= i < |Chunk(xs, n)| ==> 0 < |Chunk(xs, n)[i]| <= n
    ensures forall i :: 0 <= i < |Chunk(xs, n)| - 1 ==> |Chunk(xs, n)[i]| == n
    ensures (|Chunk(xs, n)| - 1) * n < |xs| <= |Chunk(xs, n)| * n
  {
    ChunkFlatten(xs, n);
    ChunkLengths(xs, n);
  }

  lemma {:induction false} ChunkFlatten<T>(xs: seq<T>, n: nat)
    requires n > 0
    ensures Flatten(Chunk(xs, n)) == xs
    decreases |xs|
  {
    if xs == [] {
    } else if |xs| <= n {
      FlattenSingle(xs);
    } else {
      var rest := Chunk(xs[n..], n);
      ChunkFlatten(xs[n..], n);
      assert Chunk(xs, n) == [xs[..n]] + rest;
      FlattenAppend([xs[..n]], rest);
      FlattenSingle(xs[..n]);
      assert xs[..n] + xs[n..] == xs;
    }
  }

  lemma {:induction false} ChunkLengths<T>(xs: seq<T>, n: nat)
    requires n > 0
    ensures forall i :: 0 <= i < |Chunk(xs, n)| ==> 0 < |Chunk(xs, n)[i]| <= n
    ensures forall i :: 0 <= i < |Chunk(xs, n)| - 1 ==> |Chunk(xs, n)[i]| == n
    ensures (|Chunk(xs, n)| - 1) * n < |xs| <= |Chunk(xs, n)| * n
    decreases |xs|
  {
    if xs != [] && |xs| > n {
      var rest := Chunk(xs[n..], n);
      ChunkLengths(xs[n..], n);
      assert Chunk(xs, n) == [xs[..n]] + rest;
      var c := |rest|;
      assert (c + 1 - 1) * n == (c - 1) * n + n && (c + 1) * n == c * n + n;
    }
  }

  /** LINQ `Select(f)`: `f` applied to each element, in order. */
  function Map<X, Y>(xs: seq<X>, f: X -> Y): (r: seq<Y>)
    ensures |r| == |xs| && forall i :: 0 <= i < |xs| ==> r[i] == f(xs[i])
  {
    seq(|xs|, i requires 0 <= i < |xs| => f(xs[i]))
  }

  /** `xs.Any(x => key(x) == k)`. */
  predicate HasKey<K(==), T>(xs: seq<T>, key: T -> K, k: K)
  {
    exists i | 0 <= i < |xs| :: key(xs[i]) == k
  }

  /** The elements of `xs` whose key is `k`, in their original order. */
  function Select<K(==), T>(xs: seq<T>, key: T -> K, k: K): seq<T>
  {
    if xs == [] then []
    else Select(xs[..|xs| - 1], key, k) + (if key(xs[|xs| - 1]) == k then [xs[|xs| - 1]] else [])
  }

  /** A member of `xs` is in the group of `k` exactly when its key is `k`. */
  lemma {:induction false} SelectIn<K, T>(xs: seq<T>, key: T -> K, k: K)
    ensures forall x :: x in Select(xs, key, k) <==> x in xs && key(x) == k
  {
    if xs != [] {
      var init := xs[..|xs| - 1];
      SelectIn(init, key, k);
      assert xs == init + [xs[|xs| - 1]];
    }
  }

  /** LINQ `Where` / ECMAScript `filter`: the elements satisfying `p`, in order. */
  function Filter<T>(xs: seq<T>, p: T -> bool): (r: seq<T>)
    ensures |r| <= |xs|
    ensures forall i :: 0 <= i < |r| ==> r[i] in xs && p(r[i])
    ensures forall i :: 0 <= i < |xs| && p(xs[i]) ==> xs[i] in r
  {
    if xs == [] then []
    else
      var init := xs[..|xs| - 1];
      assert xs == init + [xs[|xs| - 1]];
      Filter(init, p) + (if p(xs[|xs| - 1]) then [xs[|xs| - 1]] else [])
  }

  /** Filtering with a predicate and with its complement splits the input without loss. */
  lemma {:induction false} FilterComplement<T>(xs: seq<T>, p: T -> bool, q: T -> bool)
    requires forall x :: q(x) == !p(x)
    ensures multiset(Filter(xs, p)) + multiset(Filter(xs, q)) == multiset(xs)
  {
    if xs != [] {
      var init, last := xs[..|xs| - 1], xs[|xs| - 1];
      FilterComplement(init, p, q);
      assert xs == init + [last];
      assert multiset(xs) == multiset(init) + multiset{last};
    }
  }

  /** An element survives the filter exactly when it is in the input and satisfies `p`. */
  lemma {:induction false} FilterIn<T>(xs: seq<T>, p: T -> bool)
    ensures forall x :: x in Filter(xs, p) <==> x in xs && p(x)
  {
    if xs != [] {
      var init := xs[..|xs| - 1];
      FilterIn(init, p);
      assert xs == init + [xs[|xs| - 1]];
    }
  }

  /** LINQ `Count(p)`: how many elements satisfy `p`. */
  function CountWhere<T>(xs: seq<T>, p: T -> bool): (r: nat)
    ensures r <= |xs|
  {
    if xs == [] then 0 else CountWhere(xs[..|xs| - 1], p) + (if p(xs[|xs| - 1]) then 1 else 0)
  }

  /** None is counted exactly when no element satisfies `p`, and all exactly when every one does. */
  lemma {:induction false} CountWhereExtremes<T>(xs: seq<T>, p: T -> bool)
    ensures CountWhere(xs, p) == 0 <==> forall i :: 0 <= i < |xs| ==> !p(xs[i])
    ensures CountWhere(xs, p) == |xs| <==> forall i :: 0 <= i < |xs| ==> p(xs[i])
  {
    if xs != [] {
      var init := xs[..|xs| - 1];
      CountWhereExtremes(init, p);
      assert forall i :: 0 <= i < |init| ==> init[i] == xs[i];
    }
  }

  /** Filtering a list without repeats gives a list without repeats. */
  lemma {:induction false} FilterDistinct<T>(xs: seq<T>, p: T -> bool)
    requires Distinct(xs)
    ensures Distinct(Filter(xs, p))
  {
    if xs != [] {
      var init := xs[..|xs| - 1];
      assert Distinct(init);
      FilterDistinct(init, p);
      FilterIn(init, p);
      assert xs[|xs| - 1] !in init;
    }
  }

  /** The index of the first element whose key is `k` (`|xs|` when there is none). */
  function FirstIndex<K(==), T>(xs: seq<T>, key: T -> K, k: K): nat
  {
    if xs == [] then 0 else if key(xs[0]) == k then 0 else 1 + FirstIndex(xs[1..], key, k)
  }

  lemma {:induction false} FirstIndexBounds<K, T>(xs: seq<T>, key: T -> K, k: K)
    ensures FirstIndex(xs, key, k) <= |xs|
    ensures FirstIndex(xs, key, k) < |xs| <==> HasKey(xs, key, k)
    ensures FirstIndex(xs, key, k) < |xs| ==> key(xs[FirstIndex(xs, key, k)]) == k
  {
    if xs != [] {
      FirstIndexBounds(xs[1..], key, k);
      if key(xs[0]) != k {
        if HasKey(xs, key, k) {
          var i :| 0 <= i < |xs| && key(xs[i]) == k;
          assert key(xs[1..][i - 1]) == k;
        }
        if HasKey(xs[1..], key, k) {
          var i :| 0 <= i < |xs[1..]| && key(xs[1..][i]) == k;
          assert key(xs[i + 1]) == k;
        }
      }
    }
  }

  lemma {:induction false} FirstIndexAppend<K, T>(xs: seq<T>, x: T, key: T -> K, k: K)
    ensures HasKey(xs, key, k) ==> FirstIndex(xs + [x], key, k) == FirstIndex(xs, key, k)
    ensures !HasKey(xs, key, k) ==> FirstIndex(xs + [x], key, k) == |xs| + (if key(x) == k then 0 else 1)
  {
    if xs == [] {
      assert ([] + [x])[1..] == [];
    } else {
      assert (xs + [x])[1..] == xs[1..] + [x];
      FirstIndexAppend(xs[1..], x, key, k);
      if key(xs[0]) != k {
        if HasKey(xs, key, k) {
          var i :| 0 <= i < |xs| && key(xs[i]) == k;
          assert key(xs[1..][i - 1]) == k;
        }
        if HasKey(xs[1..], key, k) {
          var i :| 0 <= i < |xs[1..]| && key(xs[1..][i]) == k;
          assert key(xs[i + 1]) == k;
        }
      }
    }
  }

  lemma HasKeyAppend<K, T>(xs: seq<T>, x: T, key: T -> K, k: K)
    ensures HasKey(xs + [x], key, k) <==> HasKey(xs, key, k) || key(x) == k
  {
    if HasKey(xs, key, k) {
      var i :| 0 <= i < |xs| && key(xs[i]) == k;
      assert (xs + [x])[i] == xs[i];
    }
    if key(x) == k {
      assert (xs + [x])[|xs|] == x;
    }
    if HasKey(xs + [x], key, k) {
      var i :| 0 <= i < |xs + [x]| && key((xs + [x])[i]) == k;
      if i < |xs| {
        assert (xs + [x])[i] == xs[i];
      }
    }
  }

  // ---------------------------------------------------------------- ordering

  /** `s` is ordered by non-increasing `key`, as `OrderByDescending(key)` leaves it. */
  predicate NonIncreasingBy<T>(s: seq<T>, key: T -> int)
  {
    forall i, j :: 0 <= i < j < |s| ==> key(s[i]) >= key(s[j])
  }

  /** Inserts `x` after every element whose key is at least `key(x)`, so equal keys keep their order. */
  function InsertDescending<T>(s: seq<T>, x: T, key: T -> int): (r: seq<T>)
    requires NonIncreasingBy(s, key)
    ensures NonIncreasingBy(r, key)
    ensures multiset(r) == multiset(s) + multiset{x}
  {
    if s == [] then [x]
    else if key(x) > key(s[0]) then
      assert s == [s[0]] + s[1..];
      [x] + s
    else
      var t := InsertDescending(s[1..], x, key);
      InsertAfterHead(s, x, t, key);
      [s[0]] + t
  }

  /** The head of `s` stays in front of a sorted rearrangement of its tail and `x`. */
  lemma InsertAfterHead<T>(s: seq<T>, x: T, t: seq<T>, key: T -> int)
    requires s != [] && NonIncreasingBy(s, key) && key(x) <= key(s[0])
    requires NonIncreasingBy(t, key) && multiset(t) == multiset(s[1..]) + multiset{x}
    ensures NonIncreasingBy([s[0]] + t, key)
    ensures multiset([s[0]] + t) == multiset(s) + multiset{x}
  {
    assert s == [s[0]] + s[1..];
    forall j | 0 <= j < |t| ensures key(s[0]) >= key(t[j]) {
      assert t[j] in multiset(t);
      if t[j] != x {
        assert t[j] in multiset(s[1..]);
        var k :| 0 <= k < |s[1..]| && s[1..][k] == t[j];
        assert s[k + 1] == t[j];
      }
    }
    var r := [s[0]] + t;
    forall i, j | 0 <= i < j < |r| ensures key(r[i]) >= key(r[j]) {
      assert r[j] == t[j - 1];
      if i > 0 {
        assert r[i] == t[i - 1];
      }
    }
  }

  // ---------------------------------------------------------------- grouping

  /** Groups in first-appearance order of their keys; `members[k]` holds the group of key `k`. */
  datatype Groups<K, T> = Groups(keys: seq<K>, members: map<K, seq<T>>)

  /** `foreach (x in xs) { if (!d.ContainsKey(key(x))) d[key(x)] = new(); d[key(x)].Add(x); }` */
  function GroupBy<K(==), T>(xs: seq<T>, key: T -> K): Groups<K, T>
  {
    if xs == [] then Groups([], map[])
    else
      var g := GroupBy(xs[..|xs| - 1], key);
      var x := xs[|xs| - 1];
      var k := key(x);
      if k in g.members then Groups(g.keys, g.members[k := g.members[k] + [x]])
      else Groups(g.keys + [k], g.members[k := [x]])
  }

  /**
   * The step of a grouping loop over `xs`: element `i` joins the group of its key, which is
   * first opened, empty, at the end when the key is new.
   */
  lemma GroupByStep<K, T>(xs: seq<T>, i: int, key: T -> K, keys: seq<K>, members: map<K, seq<T>>)
    requires 0 <= i < |xs|
    requires Groups(keys, members) == GroupBy(xs[..i], key)
    ensures var k := key(xs[i]);
      GroupBy(xs[..i + 1], key) ==
        Groups(if k in members then keys else keys + [k],
               members[k := (if k in members then members[k] else []) + [xs[i]]])
  {
    assert xs[..i + 1][..i] == xs[..i];
    assert [] + [xs[i]] == [xs[i]];
  }

  /** The number of elements held by the groups named in `keys`. */
  function TotalSize<K, T>(keys: seq<K>, members: map<K, seq<T>>): nat
  {
    if keys == [] then 0
    else
      TotalSize(keys[..|keys| - 1], members)
      + (if keys[|keys| - 1] in members then |members[keys[|keys| - 1]]| else 0)
  }

  lemma {:induction false} TotalSizeUpdate<K, T>(keys: seq<K>, m: map<K, seq<T>>, k: K, v: seq<T>)
    requires Distinct(keys)
    ensures TotalSize(keys, m[k := v]) + (if k in keys && k in m then |m[k]| else 0)
         == TotalSize(keys, m) + (if k in keys then |v| else 0)
  {
    if keys != [] {
      var init := keys[..|keys| - 1];
      var last := keys[|keys| - 1];
      assert Distinct(init);
      assert k in keys <==> k in init || k == last;
      assert k == last ==> k !in init;
      TotalSizeUpdate(init, m, k, v);
    }
  }

  /** `GroupBy` puts every element into exactly the group of its key, in order, with no empty group. */
  ghost predicate GroupsOf<K(!new), T>(xs: seq<T>, key: T -> K, g: Groups<K, T>)
  {
    Distinct(g.keys) && |g.keys| <= |xs|
    && (forall k :: k in g.members <==> k in g.keys)
    && (forall k :: k in g.members <==> HasKey(xs, key, k))
    && (forall k | k in g.members :: g.members[k] == Select(xs, key, k) && g.members[k] != [])
    && TotalSize(g.keys, g.members) == |xs|
    && (forall i, j :: 0 <= i < j < |g.keys| ==> FirstIndex(xs, key, g.keys[i]) < FirstIndex(xs, key, g.keys[j]))
  }

  lemma {:induction false} SelectAbsent<K, T>(xs: seq<T>, key: T -> K, k: K)
    requires !HasKey(xs, key, k)
    ensures Select(xs, key, k) == []
  {
    if xs != [] {
      var init := xs[..|xs| - 1];
      HasKeyAppend(init, xs[|xs| - 1], key, k);
      assert xs == init + [xs[|xs| - 1]];
      SelectAbsent(init, key, k);
    }
  }

  lemma {:induction false} GroupByKeys<K(!new), T>(xs: seq<T>, key: T -> K)
    ensures Distinct(GroupBy(xs, key).keys) && |GroupBy(xs, key).keys| <= |xs|
    ensures forall k :: k in GroupBy(xs, key).members <==> k in GroupBy(xs, key).keys
    ensures forall k :: k in GroupBy(xs, key).members <==> HasKey(xs, key, k)
  {
    if xs != [] {
      var init := xs[..|xs| - 1];
      var x := xs[|xs| - 1];
      assert xs == init + [x];
      GroupByKeys(init, key);
      forall k' ensures HasKey(xs, key, k') <==> HasKey(init, key, k') || k' == key(x) {
        HasKeyAppend(init, x, key, k');
      }
    }
  }

  lemma {:induction false} GroupByMembers<K(!new), T>(xs: seq<T>, key: T -> K)
    ensures forall k | k in GroupBy(xs, key).members ::
      GroupBy(xs, key).members[k] == Select(xs, key, k) && GroupBy(xs, key).members[k] != []
  {
    if xs != [] {
      var init := xs[..|xs| - 1];
      var x := xs[|xs| - 1];
      GroupByMembers(init, key);
      GroupByKeys(init, key);
      if key(x) !in GroupBy(init, key).members {
        SelectAbsent(init, key, key(x));
      }
    }
  }

  lemma {:induction false} GroupBySize<K(!new), T>(xs: seq<T>, key: T -> K)
    ensures TotalSize(GroupBy(xs, key).keys, GroupBy(xs, key).members) == |xs|
  {
    if xs != [] {
      var init := xs[..|xs| - 1];
      var x := xs[|xs| - 1];
      var g := GroupBy(init, key);
      GroupBySize(init, key);
      GroupByKeys(init, key);
      if key(x) in g.members {
        TotalSizeUpdate(g.keys, g.members, key(x), g.members[key(x)] + [x]);
      } else {
        TotalSizeUpdate(g.keys, g.members, key(x), [x]);
        assert (g.keys + [key(x)])[..|g.keys|] == g.keys;
      }
    }
  }

  lemma {:induction false} GroupByOrder<K(!new), T>(xs: seq<T>, key: T -> K)
    ensures var g := GroupBy(xs, key);
      forall i, j :: 0 <= i < j < |g.keys| ==> FirstIndex(xs, key, g.keys[i]) < FirstIndex(xs, key, g.keys[j])
  {
    if xs != [] {
      var init := xs[..|xs| - 1];
      var x := xs[|xs| - 1];
      assert xs == init + [x];
      var g := GroupBy(init, key);
      GroupByOrder(init, key);
      GroupByKeys(init, key);
      forall k' | k' in g.members ensures FirstIndex(xs, key, k') == FirstIndex(init, key, k') {
        FirstIndexAppend(init, x, key, k');
      }
      if key(x) !in g.members {
        FirstIndexAppend(init, x, key, key(x));
        forall i | 0 <= i < |g.keys| ensures FirstIndex(xs, key, g.keys[i]) < FirstIndex(xs, key, key(x)) {
          FirstIndexBounds(init, key, g.keys[i]);
        }
      }
    }
  }

  lemma GroupByCorrect<K(!new), T>(xs: seq<T>, key: T -> K)
    ensures GroupsOf(xs, key, GroupBy(xs, key))
  {
    GroupByKeys(xs, key);
    GroupByMembers(xs, key);
    GroupBySize(xs, key);
    GroupByOrder(xs, key);
  }

  // ---------------------------------------------------------------- counting

  /** Keys in first-appearance order and how many elements carry each. */
  datatype Tally<K> = Tally(keys: seq<K>, counts: map<K, nat>)

  /** `foreach (x in xs) { d[key(x)] = d.TryGetValue(key(x), out var c) ? c + 1 : 1; }` */
  function CountBy<K(==), T>(xs: seq<T>, key: T -> K): Tally<K>
  {
    if xs == [] then Tally([], map[])
    else
      var t := CountBy(xs[..|xs| - 1], key);
      var k := key(xs[|xs| - 1]);
      if k in t.counts then Tally(t.keys, t.counts[k := t.counts[k] + 1])
      else Tally(t.keys + [k], t.counts[k := 1])
  }

  /** The sum of the counts of the keys in `keys`. */
  function SumCounts<K>(keys: seq<K>, counts: map<K, nat>): nat
  {
    if keys == [] then 0
    else
      SumCounts(keys[..|keys| - 1], counts)
      + (if keys[|keys| - 1] in counts then counts[keys[|keys| - 1]] else 0)
  }

  /** Counting one more element: a known key's count goes up by one, a new key is appended with 1. */
  lemma CountBySnoc<K, T>(xs: seq<T>, x: T, key: T -> K)
    ensures CountBy(xs + [x], key) ==
      var t := CountBy(xs, key);
      if key(x) in t.counts then Tally(t.keys, t.counts[key(x) := t.counts[key(x)] + 1])
      else Tally(t.keys + [key(x)], t.counts[key(x) := 1])
  {
    assert (xs + [x])[..|xs|] == xs;
  }

  /** A sequence without repeats has as many elements as the set of its elements. */
  lemma {:induction false} DistinctCard<T>(xs: seq<T>)
    requires Distinct(xs)
    ensures |set x | x in xs| == |xs|
  {
    if xs != [] {
      var init := xs[..|xs| - 1];
      var last := xs[|xs| - 1];
      assert Distinct(init);
      DistinctCard(init);
      assert xs == init + [last];
      assert (set x | x in xs) == (set x | x in init) + {last};
      assert last !in init;
    }
  }

  lemma {:induction false} CountByGroupBy<K(!new), T>(xs: seq<T>, key: T -> K)
    ensures CountBy(xs, key).keys == GroupBy(xs, key).keys
    ensures forall k :: k in CountBy(xs, key).counts <==> k in GroupBy(xs, key).members
    ensures forall k | k in CountBy(xs, key).counts :: CountBy(xs, key).counts[k] == |GroupBy(xs, key).members[k]|
  {
    if xs != [] {
      var init := xs[..|xs| - 1];
      CountByGroupBy(init, key);
      var k := key(xs[|xs| - 1]);
      var t, g := CountBy(init, key), GroupBy(init, key);
      assert k in t.counts <==> k in g.members;
      assert CountBy(xs, key) == if k in t.counts then Tally(t.keys, t.counts[k := t.counts[k] + 1])
        else Tally(t.keys + [k], t.counts[k := 1]);
    }
  }

  lemma {:induction false} SumCountsSizes<K, T>(keys: seq<K>, counts: map<K, nat>, members: map<K, seq<T>>)
    requires forall k | k in keys :: (k in counts <==> k in members)
    requires forall k | k in keys && k in counts && k in members :: counts[k] == |members[k]|
    ensures SumCounts(keys, counts) == TotalSize(keys, members)
  {
    if keys != [] {
      SumCountsSizes(keys[..|keys| - 1], counts, members);
    }
  }

  /**
   * What a counting loop or `GroupBy(...).ToDictionary(g => g.Key, g => g.Count())` produces:
   * distinct keys in first-appearance order, exactly the keys that occur, each with the number of
   * elements that carry it, and counts summing to the number of elements.
   */
  ghost predicate TallyOf<K(!new), T>(xs: seq<T>, key: T -> K, t: Tally<K>)
  {
    Distinct(t.keys) && |t.keys| <= |xs|
    && (forall k :: k in t.counts <==> k in t.keys)
    && (forall k :: k in t.counts <==> HasKey(xs, key, k))
    && (forall k | k in t.counts :: t.counts[k] == |Select(xs, key, k)| && t.counts[k] > 0)
    && SumCounts(t.keys, t.counts) == |xs|
    && (forall i, j :: 0 <= i < j < |t.keys| ==> FirstIndex(xs, key, t.keys[i]) < FirstIndex(xs, key, t.keys[j]))
  }

  lemma CountByCorrect<K(!new), T>(xs: seq<T>, key: T -> K)
    ensures TallyOf(xs, key, CountBy(xs, key))
  {
    var t := CountBy(xs, key);
    var g := GroupBy(xs, key);
    GroupByCorrect(xs, key);
    CountByGroupBy(xs, key);
    SumCountsSizes(t.keys, t.counts, g.members);
  }

  /** LINQ `Distinct()`: the values in first-appearance order. */
  function DistinctValues<K(==)>(xs: seq<K>): seq<K>
  {
    CountBy(xs, k => k).keys
  }

  lemma DistinctValuesCorrect<K(!new)>(xs: seq<K>)
    ensures Distinct(DistinctValues(xs))
    ensures |DistinctValues(xs)| <= |xs|
    ensures forall k :: k in DistinctValues(xs) <==> k in xs
  {
    CountByCorrect(xs, k => k);
    var t := CountBy(xs, k => k);
    forall k ensures k in t.keys <==> k in xs {
      if k in xs {
        var i :| 0 <= i < |xs| && xs[i] == k;
        assert (k => k)(xs[i]) == k;
      }
    }
  }

  /** `Distinct().Count()` is the number of different values. */
  lemma DistinctCount<K(!new)>(xs: seq<K>)
    ensures |DistinctValues(xs)| == |set x | x in xs|
  {
    DistinctValuesCorrect(xs);
    DistinctCard(DistinctValues(xs));
    assert (set x | x in DistinctValues(xs)) == (set x | x in xs);
  }
}
