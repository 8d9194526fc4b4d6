/** The request context of package `model`: a user and the groups the
    user belongs to, kept sorted so that membership can be looked up by
    binary search, plus a cached rendering of the groups. */
module Contexts {
  import opened GoStrings

  /** Each string is at most its right neighbour in Go's string order. */
  ghost predicate Ascending(s: seq<string>) {
    forall k :: 0 < k < |s| ==> LexLessEq(s[k - 1], s[k])
  }

  /** Every string is at most every string after it. */
  ghost predicate Sorted(s: seq<string>) {
    forall i, j :: 0 <= i < j < |s| ==> LexLessEq(s[i], s[j])
  }

  /** Neighbour order is enough: it is the full order by transitivity. */
  lemma {:induction false} AscendingSorted(s: seq<string>)
    requires Ascending(s)
    ensures Sorted(s)
    decreases |s|
  {
    if |s| > 1 {
      var t := s[..|s| - 1];
      assert Ascending(t);
      AscendingSorted(t);
      forall i | 0 <= i < |s| - 1
        ensures LexLessEq(s[i], s[|s| - 1])
      {
        if i < |s| - 2 {
          assert LexLessEq(t[i], t[|t| - 1]);
          LexLessEqTransitive(s[i], s[|s| - 2], s[|s| - 1]);
        }
      }
    }
  }

  /** The sort `sort.Slice(groups, less)` performs, written as an
      insertion sort by neighbour swaps on the shared slice. */
  method SortStrings(a: array<string>)
    modifies a
    ensures Ascending(a[..])
    ensures multiset(a[..]) == multiset(old(a[..]))
  {
    var i := 0;
    while i < a.Length
      invariant 0 <= i <= a.Length
      invariant forall k :: 0 < k < i ==> LexLessEq(a[k - 1], a[k])
      invariant multiset(a[..]) == multiset(old(a[..]))
    {
      SinkDown(a, i);
      i := i + 1;
    }
  }

  /** One insertion step: `a[i]` is swapped down past every larger
      neighbour, which extends the ascending prefix by one. */
  method SinkDown(a: array<string>, i: nat)
    requires i < a.Length
    requires forall k :: 0 < k < i ==> LexLessEq(a[k - 1], a[k])
    modifies a
    ensures forall k :: 0 < k <= i ==> LexLessEq(a[k - 1], a[k])
    ensures multiset(a[..]) == multiset(old(a[..]))
  {
    var j := i;
    while j > 0 && LexLess(a[j], a[j - 1])
      invariant 0 <= j <= i
      invariant forall k :: 0 < k < j ==> LexLessEq(a[k - 1], a[k])
      invariant forall k :: j < k <= i ==> LexLessEq(a[k - 1], a[k])
      invariant 0 < j < i ==> LexLessEq(a[j - 1], a[j + 1])
      invariant multiset(a[..]) == multiset(old(a[..]))
    {
      Swap(a, j);
      j := j - 1;
    }
    if j > 0 {
      LexLessTotal(a[j], a[j - 1]);
    }
  }

  /** Exchanges `a[j - 1]` and `a[j]`. */
  method Swap(a: array<string>, j: nat)
    requires 0 < j < a.Length
    modifies a
    ensures a[j - 1] == old(a[j]) && a[j] == old(a[j - 1])
    ensures forall k :: 0 <= k < a.Length && k != j - 1 && k != j ==> a[k] == old(a[k])
    ensures multiset(a[..]) == multiset(old(a[..]))
  {
    a[j - 1], a[j] := a[j], a[j - 1];
  }

  /** `sort.SearchStrings`: the first index whose string is not below `x`,
      or the length when there is none; on a sorted list this is where
      `x` is or would be inserted. */
  function SearchStrings(a: seq<string>, x: string): (i: nat)
    ensures i <= |a|
    ensures forall k :: 0 <= k < i ==> LexLess(a[k], x)
    ensures i < |a| ==> !LexLess(a[i], x)
    decreases |a|
  {
    if |a| == 0 || !LexLess(a[0], x) then 0 else 1 + SearchStrings(a[1..], x)
  }

  /** The search finds a position exactly when some stored string is at
      least `x`. */
  lemma SearchFinds(a: seq<string>, x: string)
    ensures SearchStrings(a, x) < |a| <==> exists k :: 0 <= k < |a| && LexLessEq(x, a[k])
  {
    var i := SearchStrings(a, x);
    if i < |a| {
      LexLessTotal(a[i], x);
    }
    forall k | 0 <= k < |a| && LexLessEq(x, a[k])
      ensures i < |a|
    {
      if i == |a| {
        assert LexLess(a[k], x);
        if x == a[k] {
          LexLessIrreflexive(x);
        } else {
          LexLessTransitive(a[k], x, a[k]);
          LexLessIrreflexive(a[k]);
        }
      }
    }
  }

  /** On a sorted list, the string at the position found is `x` exactly
      when `x` is stored. */
  lemma SearchMembership(a: seq<string>, x: string)
    requires Sorted(a)
    ensures var i := SearchStrings(a, x);
            (i < |a| && a[i] == x) <==> x in a
  {
    var i := SearchStrings(a, x);
    if x in a {
      var k :| 0 <= k < |a| && a[k] == x;
      if k < i {
        LexLessIrreflexive(x);
      }
      if i < k {
        assert LexLessEq(a[i], x);
        LexLessTotal(a[i], x);
      }
    }
  }

  class Context {
    var user: string
    var groups: seq<string>
    var grpstr: string

    /** `new(Context)`: no user, no groups, nothing cached. */
    constructor ()
      ensures user == "" && groups == [] && grpstr == ""
    {
      user := "";
      groups := [];
      grpstr := "";
    }

    /** The groups are kept in Go's string order. */
    ghost predicate Valid()
      reads this
    {
      Sorted(groups)
    }

    /** `SetGroups`: sorts the caller's slice ascending in place, keeps it
        as the groups and returns the receiver; the cached rendering is
        left as it was. */
    method SetGroups(gs: array<string>) returns (c: Context)
      modifies this, gs
      ensures c == this && Valid()
      ensures Ascending(gs[..]) && multiset(gs[..]) == multiset(old(gs[..]))
      ensures groups == gs[..] && user == old(user) && grpstr == old(grpstr)
    {
      SortStrings(gs);
      AscendingSorted(gs[..]);
      groups := gs[..];
      c := this;
    }

    /** `GroupsString`: the groups joined by " | ", computed once: a
        non-empty rendering is kept even when the groups change later. */
    method GroupsString() returns (s: string)
      modifies this
      ensures old(grpstr) == "" ==> grpstr == Join(groups, " | ")
      ensures old(grpstr) != "" ==> grpstr == old(grpstr)
      ensures s == grpstr && groups == old(groups) && user == old(user)
    {
      if grpstr == "" {
        grpstr := Join(groups, " | ");
      }
      s := grpstr;
    }

    /** `MemberOf` as written: true as soon as the search for one of the
        requested groups lands inside the list. */
    method MemberOf(gs: seq<string>) returns (member: bool)
      ensures member <==> exists i :: 0 <= i < |gs| && SearchStrings(groups, gs[i]) < |groups|
    {
      var l := |groups|;
      for i := 0 to |gs|
        invariant forall k :: 0 <= k < i ==> SearchStrings(groups, gs[k]) >= l
      {
        if SearchStrings(groups, gs[i]) < l {
          return true;
        }
      }
      return false;
    }

    /** `MemberOf` with the check the search calls for: the string at the
        position found must be the requested group itself. */
    method MemberOfExactly(gs: seq<string>) returns (member: bool)
      requires Valid()
      ensures member <==> exists i :: 0 <= i < |gs| && gs[i] in groups
    {
      var l := |groups|;
      for i := 0 to |gs|
        invariant forall k :: 0 <= k < i ==> gs[k] !in groups
      {
        var at := SearchStrings(groups, gs[i]);
        SearchMembership(groups, gs[i]);
        if at < l && groups[at] == gs[i] {
          return true;
        }
      }
      return false;
    }
  }

  /** `MemberOf` as written answers yes for every group at or below the
      largest stored one, and never for an empty request. */
  lemma MemberOfMeaning(groups: seq<string>, gs: seq<string>)
    ensures (exists i :: 0 <= i < |gs| && SearchStrings(groups, gs[i]) < |groups|)
            <==> exists i, k :: 0 <= i < |gs| && 0 <= k < |groups| && LexLessEq(gs[i], groups[k])
  {
    forall i | 0 <= i < |gs|
      ensures SearchStrings(groups, gs[i]) < |groups| <==> exists k :: 0 <= k < |groups| && LexLessEq(gs[i], groups[k])
    {
      SearchFinds(groups, gs[i]);
    }
  }

  /** The groups ["b"] and the request ["a"]: "a" is not a member, yet the
      search lands inside the list. */
  lemma MemberOfAcceptsNonMember()
    ensures "a" !in ["b"] && SearchStrings(["b"], "a") < 1
  {
    assert LexLess("a", "b");
    assert !LexLess("b", "a");
  }

  /** `Anonymous`: a context whose groups are ["all"]. */
  method NewAnonymous() returns (c: Context)
    ensures fresh(c) && c.Valid()
    ensures c.user == "" && c.groups == ["all"] && c.grpstr == ""
  {
    var gs := new string[1](_ => "all");
    var d := new Context();
    c := d.SetGroups(gs);
    assert multiset(gs[..]) == multiset(["all"]);
    assert |gs[..]| == 1 && gs[0] in multiset(gs[..]);
  }
}
