/**
 * The parts of `System.IO.Path` the services use, with '/' as the directory separator, and the
 * `Split(new[] { '/', '\\' }, StringSplitOptions.RemoveEmptyEntries)` idiom.
 */
module Paths {
  import opened Collections
  import opened Text

  /** The index of the last `c` in `s`, or -1. */
  function LastIndexOf(s: string, c: char): (r: int)
    ensures -1 <= r < |s|
    ensures r >= 0 ==> s[r] == c
    ensures forall i :: r < i < |s| ==> s[i] != c
  {
    if s == [] then -1 else if s[|s| - 1] == c then |s| - 1 else LastIndexOf(s[..|s| - 1], c)
  }

  /** `Path.GetFileName`: the text after the last '/'. */
  function FileName(p: string): (r: string)
    ensures forall i :: 0 <= i < |r| ==> r[i] != '/'
    ensures |r| <= |p| && r == p[|p| - |r|..]
  {
    p[LastIndexOf(p, '/') + 1..]
  }

  /** `Path.GetDirectoryName`: the text before the last '/', or "" when there is none. */
  function DirectoryName(p: string): (r: string)
    ensures |r| < |p| || (p == [] && r == [])
    ensures '/' in p ==> r + "/" + FileName(p) == p
    ensures '/' !in p ==> r == "" && FileName(p) == p
  {
    var k := LastIndexOf(p, '/');
    if k < 0 then "" else p[..k]
  }

  /** The last-index postconditions determine the result. */
  lemma LastIndexOfUnique(s: string, c: char, k: int)
    requires -1 <= k < |s| && (k >= 0 ==> s[k] == c)
    requires forall i :: k < i < |s| ==> s[i] != c
    ensures LastIndexOf(s, c) == k
  {
  }

  /** A separator-free name is its own file name; after a '/', the file name is what follows it. */
  lemma FileNameOfJoin(dir: string, name: string)
    requires forall i :: 0 <= i < |name| ==> name[i] != '/'
    ensures FileName(name) == name && DirectoryName(name) == ""
    ensures FileName(dir + "/" + name) == name && DirectoryName(dir + "/" + name) == dir
  {
    LastIndexOfUnique(name, '/', -1);
    assert name[0..] == name;
    var p := dir + "/" + name;
    forall i | |dir| < i < |p| ensures p[i] != '/' {
      assert p[i] == name[i - |dir| - 1];
    }
    LastIndexOfUnique(p, '/', |dir|);
    assert p[|dir| + 1..] == name;
    assert p[..|dir|] == dir;
  }

  /** The extension of a file name: from its last '.' on, or "" when there is none or it ends the name. */
  function NameExtension(name: string): (r: string)
    ensures r == [] || (r[0] == '.' && |r| >= 2 && '.' !in r[1..])
    ensures r != [] ==> EndsWith(name, r)
  {
    var k := LastIndexOf(name, '.');
    if k < 0 || k == |name| - 1 then ""
    else
      assert forall i :: 1 <= i < |name[k..]| ==> name[k..][i] == name[k + i];
      name[k..]
  }

  /** `Path.GetExtension`: the extension of the file name. */
  function Extension(p: string): (r: string)
    ensures r == [] || (r[0] == '.' && |r| >= 2 && '.' !in r[1..] && '/' !in r)
    ensures r != [] ==> EndsWith(FileName(p), r)
  {
    var name := FileName(p);
    var r := NameExtension(name);
    assert r != [] ==> r == name[|name| - |r|..];
    r
  }

  // ---------------------------------------------------------------- letter case

  /** Lower-casing changes no punctuation, so it commutes with finding the last '/' or '.'. */
  lemma LastIndexOfLower(s: string, c: char)
    requires c == '/' || c == '.'
    ensures LastIndexOf(Lower(s), c) == LastIndexOf(s, c)
  {
    var k := LastIndexOf(s, c);
    forall i | k < i < |s| ensures Lower(s)[i] != c {
      assert Lower(s)[i] == LowerChar(s[i]);
    }
    LastIndexOfUnique(Lower(s), c, k);
  }

  /** File name and directory of a lower-cased path are those of the path, lower-cased. */
  lemma FileNameOfLower(p: string)
    ensures FileName(Lower(p)) == Lower(FileName(p))
    ensures DirectoryName(Lower(p)) == Lower(DirectoryName(p))
  {
    FileNameLower(p);
    DirectoryNameLower(p);
  }

  lemma FileNameLower(p: string)
    ensures FileName(Lower(p)) == Lower(FileName(p))
  {
    LastIndexOfLower(p, '/');
    LowerSuffix(p, LastIndexOf(p, '/') + 1);
  }

  lemma LowerSuffix(p: string, k: int)
    requires 0 <= k <= |p|
    ensures Lower(p)[k..] == Lower(p[k..])
  {
    var a, b := Lower(p)[k..], Lower(p[k..]);
    forall i | 0 <= i < |a| ensures a[i] == b[i] {
      assert a[i] == LowerChar(p[k + i]);
    }
  }

  lemma DirectoryNameLower(p: string)
    ensures DirectoryName(Lower(p)) == Lower(DirectoryName(p))
  {
    var k := LastIndexOf(p, '/');
    LastIndexOfLower(p, '/');
    if k >= 0 {
      assert DirectoryName(Lower(p)) == Lower(p)[0..k];
      assert DirectoryName(p) == p[0..k];
      LowerSlice(p, 0, k);
    }
  }

  lemma NameExtensionOfLower(name: string)
    ensures NameExtension(Lower(name)) == Lower(NameExtension(name))
  {
    LastIndexOfLower(name, '.');
    var d := LastIndexOf(name, '.');
    if 0 <= d < |name| - 1 {
      LowerSlice(name, d, |name|);
      assert name[d..] == name[d..|name|];
      assert Lower(name)[d..] == Lower(name)[d..|Lower(name)|];
    }
  }

  /** The extension of a lower-cased path is the path's extension, lower-cased. */
  lemma ExtensionOfLower(p: string)
    ensures Extension(Lower(p)) == Lower(Extension(p))
  {
    FileNameOfLower(p);
    NameExtensionOfLower(FileName(p));
  }

  // ---------------------------------------------------------------- splitting

  predicate IsSeparator(c: char)
  {
    c == '/' || c == '\\'
  }

  predicate NoSeparator(s: string)
  {
    forall i :: 0 <= i < |s| ==> !IsSeparator(s[i])
  }

  /** The characters of `p` that are not separators. */
  function WithoutSeparators(p: string): (r: string)
  {
    if p == [] then [] else (if IsSeparator(p[0]) then [] else [p[0]]) + WithoutSeparators(p[1..])
  }

  /** Splitting with `cur` holding the segment read so far. */
  function SegmentsFrom(p: string, cur: string): seq<string>
  {
    if p == [] then (if cur == [] then [] else [cur])
    else if IsSeparator(p[0]) then (if cur == [] then [] else [cur]) + SegmentsFrom(p[1..], [])
    else SegmentsFrom(p[1..], cur + [p[0]])
  }

  /** `p.Split(new[] { '/', '\\' }, StringSplitOptions.RemoveEmptyEntries)`. */
  function Segments(p: string): seq<string>
  {
    SegmentsFrom(p, [])
  }

  /** A segment list a path can split into: no empty segment and no separator inside one. */
  predicate WellFormedSegments(xs: seq<string>)
  {
    forall i :: 0 <= i < |xs| ==> xs[i] != [] && NoSeparator(xs[i])
  }

  /** Well-formed segment lists stay well formed when concatenated. */
  lemma WellFormedSegmentsAppend(a: seq<string>, b: seq<string>)
    requires WellFormedSegments(a) && WellFormedSegments(b)
    ensures WellFormedSegments(a + b)
  {
    forall i | 0 <= i < |a + b| ensures (a + b)[i] != [] && NoSeparator((a + b)[i]) {
      if i < |a| {
        assert (a + b)[i] == a[i];
      } else {
        assert (a + b)[i] == b[i - |a|];
      }
    }
  }

  lemma {:induction false} SegmentsFromShape(p: string, cur: string)
    requires NoSeparator(cur)
    ensures WellFormedSegments(SegmentsFrom(p, cur))
    ensures Flatten(SegmentsFrom(p, cur)) == cur + WithoutSeparators(p)
  {
    if p == [] {
      assert cur + WithoutSeparators(p) == cur;
      if cur != [] {
        FlattenSingle(cur);
      } else {
        assert SegmentsFrom(p, cur) == [];
      }
    } else if IsSeparator(p[0]) {
      SegmentsFromShape(p[1..], []);
      assert WithoutSeparators(p) == WithoutSeparators(p[1..]);
      if cur == [] {
        assert SegmentsFrom(p, cur) == SegmentsFrom(p[1..], []);
      } else {
        FlattenAppend([cur], SegmentsFrom(p[1..], []));
        FlattenSingle(cur);
      }
    } else {
      SegmentsFromShape(p[1..], cur + [p[0]]);
      assert cur + [p[0]] + WithoutSeparators(p[1..]) == cur + WithoutSeparators(p);
    }
  }

  /** Splitting drops exactly the separators and never yields an empty or separator-holding segment. */
  lemma SegmentsShape(p: string)
    ensures WellFormedSegments(Segments(p))
    ensures Flatten(Segments(p)) == WithoutSeparators(p)
  {
    SegmentsFromShape(p, []);
  }

  lemma {:induction false} SegmentsFromRun(x: string, q: string, cur: string)
    requires NoSeparator(x)
    ensures SegmentsFrom(x + q, cur) == SegmentsFrom(q, cur + x)
  {
    if x == [] {
      assert x + q == q && cur + x == cur;
    } else {
      assert (x + q)[0] == x[0] && (x + q)[1..] == x[1..] + q;
      assert !IsSeparator(x[0]);
      assert SegmentsFrom(x + q, cur) == SegmentsFrom(x[1..] + q, cur + [x[0]]);
      SegmentsFromRun(x[1..], q, cur + [x[0]]);
      assert cur + [x[0]] + x[1..] == cur + x;
    }
  }

  /** Joining well-formed segments with '/' and splitting again gives the segments back. */
  lemma {:induction false} SegmentsOfJoin(xs: seq<string>)
    requires WellFormedSegments(xs)
    ensures Segments(Join(xs, "/")) == xs
  {
    if |xs| == 1 {
      SegmentsFromRun(xs[0], [], []);
      assert xs[0] + [] == xs[0];
    } else if |xs| > 1 {
      assert WellFormedSegments(xs[1..]);
      SegmentsOfJoin(xs[1..]);
      var rest := Join(xs[1..], "/");
      assert Join(xs, "/") == xs[0] + ("/" + rest);
      SegmentsFromRun(xs[0], "/" + rest, []);
      assert ("/" + rest)[1..] == rest;
      assert [] + xs[0] == xs[0];
    }
  }
}
