/** Maintenance works in batches: the first few identifiers of a set, in order. */
module Batches {
  type Id = nat

  function Elements(ids: seq<Id>): set<Id> {
    set x | x in ids
  }

  /** The first `limit` elements of a set, in order. */
  ghost predicate Selection(ids: seq<Id>, from: set<Id>, limit: nat) {
    && (forall i :: 0 <= i < |ids| ==> ids[i] in from)
    && (forall i, j :: 0 <= i < j < |ids| ==> ids[i] < ids[j])
    && |ids| == (if |from| < limit then |from| else limit)
    && (forall x, i :: x in from && x !in ids && 0 <= i < |ids| ==> ids[i] < x)
  }

  lemma {:induction false} DistinctSize(ids: seq<Id>)
    requires forall i, j :: 0 <= i < j < |ids| ==> ids[i] < ids[j]
    ensures |Elements(ids)| == |ids|
    decreases |ids|
  {
    if ids != [] {
      DistinctSize(ids[1..]);
      assert Elements(ids) == {ids[0]} + Elements(ids[1..]);
      assert ids[0] !in Elements(ids[1..]);
    }
  }

  lemma SizeOfRest(a: set<Id>, b: set<Id>)
    requires b <= a
    ensures |a - b| == |a| - |b|
  {
    assert a == (a - b) + b;
  }

  /** Taking a selection away leaves the rest: as many fewer as were selected. */
  lemma SelectionLeaves(ids: seq<Id>, from: set<Id>, limit: nat)
    requires Selection(ids, from, limit)
    ensures |from - Elements(ids)| == if |from| < limit then 0 else |from| - limit
  {
    DistinctSize(ids);
    SizeOfRest(from, Elements(ids));
  }

  method First(all: set<Id>, limit: nat) returns (ids: seq<Id>)
    ensures Selection(ids, all, limit)
  {
    var rest := all;
    ids := [];
    while rest != {} && |ids| < limit
      invariant rest <= all && |rest| + |ids| == |all| && |ids| <= limit
      invariant forall x :: x in all ==> x in rest || x in ids
      invariant forall i :: 0 <= i < |ids| ==> ids[i] in all
      invariant forall i, j :: 0 <= i < j < |ids| ==> ids[i] < ids[j]
      invariant forall x, i :: x in rest && 0 <= i < |ids| ==> ids[i] < x
      decreases |rest|
    {
      var next := Smallest(rest);
      ids, rest := ids + [next], rest - {next};
    }
  }

  method Smallest(s: set<Id>) returns (least: Id)
    requires s != {}
    ensures least in s && forall x :: x in s ==> least <= x
  {
    least :| least in s;
    var rest := s - {least};
    while rest != {}
      invariant least in s && rest <= s && forall x :: x in s && x !in rest ==> least <= x
      decreases rest
    {
      var x :| x in rest;
      if x < least {
        least := x;
      }
      rest := rest - {x};
    }
  }
}
