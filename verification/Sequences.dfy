/** Finite sets of numbers in order, and the members of a sequence. */
module Sequences {
  function Greatest(s: set<int>): (m: int)
    requires s != {}
    ensures m in s && forall x :: x in s ==> x <= m
  {
    GreatestExists(s);
    var m :| m in s && forall x :: x in s ==> x <= m; m
  }

  ghost function Pick<T>(s: set<T>): (x: T)
    requires s != {}
    ensures x in s
  {
    var x :| x in s; x
  }

  lemma {:induction false} GreatestExists(s: set<int>)
    requires s != {}
    ensures exists m :: m in s && forall x :: x in s ==> x <= m
  {
    var a := Pick(s);
    if s != {a} {
      GreatestExists(s - {a});
      var m :| m in s - {a} && forall x :: x in s - {a} ==> x <= m;
      var top := if a >= m then a else m;
      assert forall x :: x in s ==> x == a || x in s - {a};
      assert top in s && forall x :: x in s ==> x <= top;
    }
  }

  predicate Increasing(s: seq<int>) { forall i, j :: 0 <= i < j < |s| ==> s[i] < s[j] }

  function Ascending(s: set<int>): (r: seq<int>)
    ensures Increasing(r) && forall x :: x in r <==> x in s
    decreases |s|
  {
    if s == {} then []
    else
      var g := Greatest(s);
      Ascending(s - {g}) + [g]
  }

  function Members(ids: seq<nat>): set<nat> { set id | id in ids }

  predicate Distinct(ids: seq<nat>) { forall i, j :: 0 <= i < j < |ids| ==> ids[i] != ids[j] }

  lemma {:induction false} MembersSize(s: seq<nat>)
    ensures |Members(s)| <= |s| && (Distinct(s) ==> |Members(s)| == |s|)
  {
    if s != [] {
      var init, last := s[..|s| - 1], s[|s| - 1];
      MembersSize(init);
      assert Members(s) == Members(init) + {last};
      assert Distinct(s) ==> Distinct(init) && last !in Members(init);
    }
  }

  /** The members of a set, in some order. */
  method Listed<T(==)>(ids: set<T>) returns (s: seq<T>)
    ensures (forall x :: x in s <==> x in ids) && forall i, j :: 0 <= i < j < |s| ==> s[i] != s[j]
  {
    s := [];
    var rest := ids;
    while rest != {}
      invariant rest <= ids && (forall x :: x in s <==> x in ids && x !in rest)
      invariant forall i, j :: 0 <= i < j < |s| ==> s[i] != s[j]
      decreases rest
    {
      var x: T :| x in rest;
      s, rest := s + [x], rest - {x};
    }
  }
}
