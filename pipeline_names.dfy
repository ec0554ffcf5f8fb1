/**
 * The pipeline names the build commands offer (pkg/jx/cmd/get_build_logs.go
 * and pkg/jx/cmd/stop_pipeline.go): sort.Strings on the names, ordered by
 * character codes, and the default choice, the first sorted name on the
 * master branch.
 */
module PipelineNames {
  import opened Strings

  /** `a` sorts no later than `b`: Go's `<=` on strings, the order sort.Strings uses. */
  predicate LessEq(a: string, b: string)
  {
    !Less(b, a)
  }

  lemma LessEqTotal(a: string, b: string)
    ensures LessEq(a, b) || LessEq(b, a)
  {
    if Less(a, b) {
      LessAsymmetric(a, b);
    }
  }

  lemma LessEqAntisymmetric(a: string, b: string)
    requires LessEq(a, b) && LessEq(b, a)
    ensures a == b
  {
    LessTotal(a, b);
  }

  lemma LessEqTransitive(a: string, b: string, c: string)
    requires LessEq(a, b) && LessEq(b, c)
    ensures LessEq(a, c)
  {
    if Less(c, a) {
      LessTotal(a, b);
      if Less(a, b) {
        LessTransitive(c, a, b);
      }
    }
  }

  predicate Sorted(s: seq<string>)
  {
    forall i, j :: 0 <= i < j < |s| ==> LessEq(s[i], s[j])
  }

  /** A list whose head is below every later element and whose tail is sorted is sorted. */
  lemma SortedCons(y: string, t: seq<string>)
    requires Sorted(t)
    requires forall j :: 0 <= j < |t| ==> LessEq(y, t[j])
    ensures Sorted([y] + t)
  {
    var r := [y] + t;
    forall i, j | 0 <= i < j < |r|
      ensures LessEq(r[i], r[j])
    {
      if i > 0 {
        assert r[i] == t[i - 1] && r[j] == t[j - 1];
      }
    }
  }

  /** The head of a sorted list is below all of it. */
  lemma HeadIsLeast(s: seq<string>, y: string)
    requires Sorted(s) && y in s
    ensures LessEq(s[0], y)
  {
    var k :| 0 <= k < |s| && s[k] == y;
    if k == 0 {
      LessEqReflexive(y);
    }
  }

  /** Insertion of one name into a sorted list. */
  function Insert(x: string, s: seq<string>): (r: seq<string>)
    ensures multiset(r) == multiset(s) + multiset{x}
    ensures |r| == |s| + 1
  {
    if s == [] then [x]
    else if LessEq(x, s[0]) then
      assert s == [s[0]] + s[1..];
      [x] + s
    else
      assert s == [s[0]] + s[1..];
      [s[0]] + Insert(x, s[1..])
  }

  lemma {:induction false} InsertSorted(x: string, s: seq<string>)
    requires Sorted(s)
    ensures Sorted(Insert(x, s))
  {
    if s == [] {
    } else if LessEq(x, s[0]) {
      forall j | 0 <= j < |s|
        ensures LessEq(x, s[j])
      {
        HeadIsLeast(s, s[j]);
        LessEqTransitive(x, s[0], s[j]);
      }
      SortedCons(x, s);
    } else {
      LessEqTotal(x, s[0]);
      var tail := s[1..];
      assert Sorted(tail) by {
        forall i, j | 0 <= i < j < |tail|
          ensures LessEq(tail[i], tail[j])
        {
          assert tail[i] == s[i + 1] && tail[j] == s[j + 1];
        }
      }
      InsertSorted(x, tail);
      var rest := Insert(x, tail);
      forall j | 0 <= j < |rest|
        ensures LessEq(s[0], rest[j])
      {
        assert rest[j] in multiset(rest);
        if rest[j] != x {
          assert rest[j] in multiset(tail);
          assert rest[j] in s;
          HeadIsLeast(s, rest[j]);
        }
      }
      SortedCons(s[0], rest);
    }
  }

  /**
   * sort.Strings as a value: a sorted arrangement of the same names. It shares
   * Strings.Less with HelmHelpers.SortByName but sorts the strings themselves,
   * where DepSorter sorts dependencies by their Name field and keeps equal
   * names in input order (HelmHelpers.SortByNameStable); equal strings are
   * indistinguishable, so here the result is unique (SortedNamesUnique).
   */
  function Sort(s: seq<string>): (r: seq<string>)
    ensures multiset(r) == multiset(s)
    ensures |r| == |s|
  {
    if s == [] then []
    else
      assert s == s[..|s| - 1] + [s[|s| - 1]];
      Insert(s[|s| - 1], Sort(s[..|s| - 1]))
  }

  lemma {:induction false} SortSorted(s: seq<string>)
    ensures Sorted(Sort(s))
  {
    if s != [] {
      SortSorted(s[..|s| - 1]);
      InsertSorted(s[|s| - 1], Sort(s[..|s| - 1]));
    }
  }

  lemma SortedTail(a: seq<string>)
    requires a != [] && Sorted(a)
    ensures Sorted(a[1..])
  {
    var t := a[1..];
    forall i, j | 0 <= i < j < |t|
      ensures LessEq(t[i], t[j])
    {
      assert t[i] == a[i + 1] && t[j] == a[j + 1];
    }
  }

  lemma LessEqReflexive(a: string)
    ensures LessEq(a, a)
  {
    LessIrreflexive(a);
  }

  /** The first name ending in "/master", or "" when there is none. */
  function FirstMaster(names: seq<string>): (r: string)
    ensures r == "" <==> forall k :: 0 <= k < |names| ==> !HasSuffix(names[k], "/master")
    ensures r != "" ==> exists i :: 0 <= i < |names| && names[i] == r && HasSuffix(r, "/master") &&
                                  forall k :: 0 <= k < i ==> !HasSuffix(names[k], "/master")
  {
    if names == [] then ""
    else if HasSuffix(names[0], "/master") then names[0]
    else
      var r := FirstMaster(names[1..]);
      assert forall k :: 1 <= k < |names| ==> names[k] == names[1..][k - 1];
      if r != "" then
        var i :| 0 <= i < |names[1..]| && names[1..][i] == r && HasSuffix(r, "/master") &&
                 forall k :: 0 <= k < i ==> !HasSuffix(names[1..][k], "/master");
        assert names[i + 1] == r;
        r
      else
        r
  }

  /** The loop that picks the default: the first name ending in "/master", or "". */
  method DefaultName(names: seq<string>) returns (defaultName: string)
    ensures defaultName == FirstMaster(names)
  {
    defaultName := "";
    var i := 0;
    while i < |names|
      invariant 0 <= i <= |names|
      invariant FirstMaster(names) == FirstMaster(names[i..])
    {
      assert names[i..][1..] == names[i + 1..];
      if HasSuffix(names[i], "/master") {
        defaultName := names[i];
        return;
      }
      i := i + 1;
    }
  }

  predicate Distinct(s: seq<string>)
  {
    forall i, j :: 0 <= i < j < |s| ==> s[i] != s[j]
  }

  /**
   * The names of a job map: its keys in Go's unspecified iteration order
   * (an arbitrary choice here), appended one by one, then sorted.
   */
  method SortedKeys<T>(m: map<string, T>) returns (names: seq<string>)
    ensures Sorted(names) && Distinct(names)
    ensures forall k :: k in names <==> k in m
  {
    var keys: seq<string> := [];
    var rest := m.Keys;
    while rest != {}
      invariant rest <= m.Keys
      invariant forall k :: k in keys <==> k in m && k !in rest
      invariant Distinct(keys)
      decreases |rest|
    {
      var k :| k in rest;
      keys := keys + [k];
      rest := rest - {k};
    }
    names := Sort(keys);
    SortSorted(keys);
    DistinctCounts(keys);
    forall i, j | 0 <= i < j < |names|
      ensures names[i] != names[j]
    {
      if names[i] == names[j] {
        TwoOccurrences(names, i, j);
      }
    }
    forall k
      ensures k in names <==> k in keys
    {
      assert k in names <==> k in multiset(names);
    }
  }

  lemma {:induction false} DistinctCounts(s: seq<string>)
    requires Distinct(s)
    ensures forall x :: multiset(s)[x] <= 1
  {
    if s != [] {
      var init := s[..|s| - 1];
      assert Distinct(init);
      DistinctCounts(init);
      assert s == init + [s[|s| - 1]];
      assert s[|s| - 1] !in init;
    }
  }

  lemma TwoOccurrences(r: seq<string>, i: nat, j: nat)
    requires i < j < |r| && r[i] == r[j]
    ensures multiset(r)[r[i]] >= 2
  {
    assert r == r[..j] + r[j..];
    assert r[i] in r[..j];
    assert r[j] in r[j..];
  }

  /** Sorted names without repeats are determined by which names there are: the map's iteration order does not show. */
  lemma {:induction false} SortedNamesUnique(a: seq<string>, b: seq<string>)
    requires Sorted(a) && Distinct(a) && Sorted(b) && Distinct(b)
    requires forall x :: x in a <==> x in b
    ensures a == b
  {
    if a == [] {
      if b != [] {
        HeadIsMember(b);
      }
    } else if b == [] {
      HeadIsMember(a);
    } else {
      {
        HeadIsLeast(b, a[0]);
        HeadIsLeast(a, b[0]);
        LessEqAntisymmetric(a[0], b[0]);
        SortedTail(a);
        SortedTail(b);
        forall x
          ensures x in a[1..] <==> x in b[1..]
        {
          TailMembers(a, x);
          TailMembers(b, x);
        }
        SortedNamesUnique(a[1..], b[1..]);
        assert a == [a[0]] + a[1..] && b == [b[0]] + b[1..];
      }
    }
  }

  lemma HeadIsMember(s: seq<string>)
    requires s != []
    ensures s[0] in s
  {
  }

  lemma TailMembers(a: seq<string>, x: string)
    requires a != [] && Distinct(a)
    ensures x in a[1..] <==> x in a && x != a[0]
  {
    if x in a[1..] {
      var k :| 0 <= k < |a[1..]| && a[1..][k] == x;
      assert a[k + 1] == x;
    }
    if x in a && x != a[0] {
      var k :| 0 <= k < |a| && a[k] == x;
      assert a[1..][k - 1] == x;
    }
  }
}
