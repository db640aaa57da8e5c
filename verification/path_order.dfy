/** Ordering of candidate file paths.  Discovery sorts the matching paths so
    that components are attached in the same order on every run, whatever
    order the directory listing came in. */
module PathOrder {

  /** Ordinal comparison of two paths, character by character; a proper
      prefix sorts first. */
  predicate LexLe(a: string, b: string)
    decreases |a|
  {
    |a| == 0 || (|b| > 0 && (a[0] < b[0] || (a[0] == b[0] && LexLe(a[1..], b[1..]))))
  }

  lemma {:induction false} LexLeTotal(a: string, b: string)
    ensures LexLe(a, b) || LexLe(b, a)
    decreases |a|
  {
    if |a| > 0 && |b| > 0 && a[0] == b[0] {
      LexLeTotal(a[1..], b[1..]);
    }
  }

  lemma {:induction false} LexLeReflexive(a: string)
    ensures LexLe(a, a)
    decreases |a|
  {
    if |a| > 0 {
      LexLeReflexive(a[1..]);
    }
  }

  lemma {:induction false} LexLeAntisymmetric(a: string, b: string)
    requires LexLe(a, b) && LexLe(b, a)
    ensures a == b
    decreases |a|
  {
    if |a| > 0 {
      LexLeAntisymmetric(a[1..], b[1..]);
      assert a == [a[0]] + a[1..] && b == [b[0]] + b[1..];
    }
  }

  lemma {:induction false} LexLeTransitive(a: string, b: string, c: string)
    requires LexLe(a, b) && LexLe(b, c)
    ensures LexLe(a, c)
    decreases |a|
  {
    if |a| > 0 && a[0] == b[0] && b[0] == c[0] {
      LexLeTransitive(a[1..], b[1..], c[1..]);
    }
  }

  predicate Sorted(s: seq<string>) {
    forall i, j :: 0 <= i < j < |s| ==> LexLe(s[i], s[j])
  }

  /** A path below every element of a sorted list can go in front of it. */
  lemma SortedCons(x: string, s: seq<string>)
    requires Sorted(s)
    requires forall j :: 0 <= j < |s| ==> LexLe(x, s[j])
    ensures Sorted([x] + s)
  {
    var r := [x] + s;
    forall i, j | 0 <= i < j < |r| ensures LexLe(r[i], r[j]) {
      assert r[j] == s[j - 1];
      if i > 0 { assert r[i] == s[i - 1]; }
    }
  }

  /** A path below the head of a sorted list is below all of it. */
  lemma BelowHead(x: string, s: seq<string>)
    requires Sorted(s) && 0 < |s| && LexLe(x, s[0])
    ensures forall j :: 0 <= j < |s| ==> LexLe(x, s[j])
  {
    forall j | 0 < j < |s| ensures LexLe(x, s[j]) {
      LexLeTransitive(x, s[0], s[j]);
    }
  }

  /** The head of a sorted list is below the tail with one more path added,
      when that path is not below it. */
  lemma HeadBelowInserted(s: seq<string>, x: string, rest: seq<string>)
    requires Sorted(s) && 0 < |s| && LexLe(s[0], x)
    requires multiset(rest) == multiset(s[1..]) + multiset{x}
    ensures forall j :: 0 <= j < |rest| ==> LexLe(s[0], rest[j])
  {
    forall j | 0 <= j < |rest| ensures LexLe(s[0], rest[j]) {
      assert rest[j] in multiset(rest);
      if rest[j] != x {
        assert rest[j] in multiset(s[1..]);
        var k :| 0 <= k < |s[1..]| && s[1..][k] == rest[j];
        assert s[k + 1] == rest[j];
      }
    }
  }

  /** `x` put in its place in a sorted list. */
  function Insert(x: string, s: seq<string>): (r: seq<string>)
    requires Sorted(s)
    ensures Sorted(r)
    ensures multiset(r) == multiset(s) + multiset{x}
  {
    if s == [] then [x]
    else if LexLe(x, s[0]) then
      BelowHead(x, s);
      SortedCons(x, s);
      [x] + s
    else
      LexLeTotal(x, s[0]);
      var rest := Insert(x, s[1..]);
      HeadBelowInserted(s, x, rest);
      SortedCons(s[0], rest);
      assert s == [s[0]] + s[1..];
      [s[0]] + rest
  }

  /** Insertion sort: the same paths, in ascending order. */
  function Sort(s: seq<string>): (r: seq<string>)
    ensures Sorted(r)
    ensures multiset(r) == multiset(s)
  {
    if s == [] then []
    else
      assert s == [s[0]] + s[1..];
      Insert(s[0], Sort(s[1..]))
  }

  /** The head of a sorted list is below every path it holds. */
  lemma SortedHeadIsLeast(a: seq<string>, x: string)
    requires Sorted(a) && x in multiset(a)
    ensures LexLe(a[0], x)
  {
    var i :| 0 <= i < |a| && a[i] == x;
    if i == 0 { LexLeReflexive(x); }
  }

  lemma SplitHead(a: seq<string>)
    requires a != []
    ensures multiset(a[1..]) == multiset(a) - multiset{a[0]}
    ensures Sorted(a) ==> Sorted(a[1..])
  {
    assert a == [a[0]] + a[1..];
  }

  /** Two sorted lists holding the same paths are the same list. */
  lemma {:induction false} SortedUnique(a: seq<string>, b: seq<string>)
    requires Sorted(a) && Sorted(b) && multiset(a) == multiset(b)
    ensures a == b
    decreases |a|
  {
    if a != [] {
      assert |b| == |a| by { assert |multiset(a)| == |multiset(b)|; }
      assert a[0] in multiset(a) && b[0] in multiset(b);
      SortedHeadIsLeast(b, a[0]);
      SortedHeadIsLeast(a, b[0]);
      LexLeAntisymmetric(a[0], b[0]);
      SplitHead(a);
      SplitHead(b);
      SortedUnique(a[1..], b[1..]);
      assert a == [a[0]] + a[1..] && b == [b[0]] + b[1..];
    }
  }

  /** The sorted order depends only on which paths there are, not on the
      order the directory listing returned them in. */
  lemma SortIsCanonical(a: seq<string>, b: seq<string>)
    requires multiset(a) == multiset(b)
    ensures Sort(a) == Sort(b)
  {
    SortedUnique(Sort(a), Sort(b));
  }

  /** The paths the discovery pattern accepts, in listing order. */
  function Matching(files: seq<string>, matches: string -> bool): (r: seq<string>)
    ensures forall f :: multiset(r)[f] == if matches(f) then multiset(files)[f] else 0
    ensures forall f :: f in r ==> matches(f)
    ensures r == [] <==> forall i :: 0 <= i < |files| ==> !matches(files[i])
  {
    if files == [] then []
    else
      var rest := Matching(files[1..], matches);
      assert files == [files[0]] + files[1..];
      assert forall i :: 1 <= i < |files| ==> files[i] == files[1..][i - 1];
      if matches(files[0]) then [files[0]] + rest else rest
  }

  /** The candidate list of discovery: the matching paths, sorted. */
  function Candidates(files: seq<string>, matches: string -> bool): (r: seq<string>)
    ensures Sorted(r)
    ensures forall f :: multiset(r)[f] == if matches(f) then multiset(files)[f] else 0
    ensures r == [] <==> forall i :: 0 <= i < |files| ==> !matches(files[i])
  {
    var m := Matching(files, matches);
    var r := Sort(m);
    assert r == [] <==> m == [] by {
      assert |multiset(r)| == |multiset(m)|;
    }
    r
  }

  /** A path is a candidate exactly when it is a listed file the pattern
      accepts. */
  lemma CandidatesAreMatchingFiles(files: seq<string>, matches: string -> bool)
    ensures forall f :: f in Candidates(files, matches) <==> f in files && matches(f)
  {
    var r := Candidates(files, matches);
    forall f ensures f in r <==> f in files && matches(f) {
      assert f in r <==> multiset(r)[f] > 0;
      assert f in files <==> multiset(files)[f] > 0;
    }
  }
}
