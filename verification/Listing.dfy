/**
 Listing public resources page by page. A page holds the first visible rows after the cursor, in
 identifier order, and a cursor only if there are more. Rows may come and go between two pages.
 */
module Listing {
  import opened Batches
  import opened Options

  const LIMIT_DEFAULT := 50
  const LIMIT_MAX := 200

  /** A cursor selects a position for one workspace, actor and filter, and confers nothing else. */
  datatype Cursor = Cursor(workspace: Id, actor: Id, filter: nat, id: Id)

  datatype Page = Page(ids: seq<Id>, next: Option<Cursor>)

  function Beyond(visible: set<Id>, after: Option<Id>): set<Id> {
    set x | x in visible && (after.None? || x > after.value)
  }

  /** What one request answers: the first `limit` rows after the position, and where to go on. */
  ghost predicate Answers(p: Page, visible: set<Id>, workspace: Id, actor: Id, filter: nat, after: Option<Id>, limit: nat) {
    && Selection(p.ids, Beyond(visible, after), limit)
    && (p.next.Some? <==> |Beyond(visible, after)| > limit)
    && (p.next.Some? ==> p.ids != [] && p.next.value == Cursor(workspace, actor, filter, p.ids[|p.ids| - 1]))
  }

  /** One row more than asked for is read; it decides about the cursor and is dropped. */
  method Query(visible: set<Id>, workspace: Id, actor: Id, filter: nat, cursor: Option<Cursor>, requested: int) returns (result: Option<Page>)
    ensures var limit := if requested == 0 then LIMIT_DEFAULT else requested;
            && (result.Some? <==> 1 <= limit <= LIMIT_MAX
                                  && (cursor.Some? ==> cursor.value.workspace == workspace && cursor.value.actor == actor && cursor.value.filter == filter))
            && (result.Some? ==> Answers(result.value, visible, workspace, actor, filter, if cursor.Some? then Some(cursor.value.id) else None, limit))
  {
    var limit := if requested == 0 then LIMIT_DEFAULT else requested;
    if limit < 1 || limit > LIMIT_MAX {
      return None;
    }
    if cursor.Some? && (cursor.value.workspace != workspace || cursor.value.actor != actor || cursor.value.filter != filter) {
      return None;
    }
    var after := if cursor.Some? then Some(cursor.value.id) else None;
    var rows := First(Beyond(visible, after), limit + 1);
    if |rows| > limit {
      FewerSelected(rows, Beyond(visible, after), limit);
      rows := rows[..limit];
      return Some(Page(rows, Some(Cursor(workspace, actor, filter, rows[limit - 1]))));
    }
    return Some(Page(rows, None));
  }

  lemma FewerSelected(rows: seq<Id>, from: set<Id>, limit: nat)
    requires Selection(rows, from, limit + 1) && |rows| > limit
    ensures Selection(rows[..limit], from, limit) && |from| > limit
  {
    forall x, i | x in from && x !in rows[..limit] && 0 <= i < limit ensures rows[i] < x {
      if x in rows {
        var k :| 0 <= k < |rows| && rows[k] == x;
        assert k >= limit;
      }
    }
  }

  /** A walk: every page answers against the rows visible when it was asked for, at the position the page before named. */
  ghost predicate Walk(states: seq<set<Id>>, pages: seq<Page>, workspace: Id, actor: Id, filter: nat, after: Option<Id>, limit: nat)
    decreases |pages|
  {
    && |states| == |pages| > 0
    && Answers(pages[0], states[0], workspace, actor, filter, after, limit)
    && (if |pages| == 1 then pages[0].next.None?
        else pages[0].next.Some? && Walk(states[1..], pages[1..], workspace, actor, filter, Some(pages[0].next.value.id), limit))
  }

  function AllIds(pages: seq<Page>): seq<Id> {
    if pages == [] then [] else pages[0].ids + AllIds(pages[1..])
  }

  /** A selection leaves nothing behind its last element. */
  lemma NothingSkipped(ids: seq<Id>, from: set<Id>, limit: nat, x: Id)
    requires Selection(ids, from, limit) && x in from && x !in ids && limit > 0
    ensures |from| > limit && ids != [] && ids[|ids| - 1] < x
  {
    DistinctSize(ids);
    SizeOfRest(from, Elements(ids));
    assert x in from - Elements(ids);
  }

  /**
   Whatever changes between pages, a complete walk returns no row twice, in order, and misses no row
   that was visible all along.
   */
  lemma {:induction false} WalkIsComplete(states: seq<set<Id>>, pages: seq<Page>, workspace: Id, actor: Id, filter: nat, after: Option<Id>, limit: nat, x: Id)
    requires Walk(states, pages, workspace, actor, filter, after, limit) && limit > 0
    ensures var ids := AllIds(pages); forall i, j :: 0 <= i < j < |ids| ==> ids[i] < ids[j]
    ensures forall i :: 0 <= i < |AllIds(pages)| ==> after.None? || AllIds(pages)[i] > after.value
    ensures (forall s :: s in states ==> x in s) && (after.None? || x > after.value) ==> x in AllIds(pages)
    decreases |pages|
  {
    var first, from := pages[0].ids, Beyond(states[0], after);
    assert states[0] in states;
    if |pages| > 1 {
      WalkIsComplete(states[1..], pages[1..], workspace, actor, filter, Some(pages[0].next.value.id), limit, x);
      assert forall s :: s in states[1..] ==> s in states;
      if x in from && x !in first {
        NothingSkipped(first, from, limit, x);
      }
    } else {
      assert AllIds(pages[1..]) == [];
      assert AllIds(pages) == first;
      if x in from && x !in first {
        NothingSkipped(first, from, limit, x);
      }
    }
  }

  /** Over rows that stay as they are, the walk returns exactly the visible ones. */
  lemma StillWalkIsExact(states: seq<set<Id>>, pages: seq<Page>, workspace: Id, actor: Id, filter: nat, limit: nat, visible: set<Id>)
    requires Walk(states, pages, workspace, actor, filter, None, limit) && limit > 0 && forall s :: s in states ==> s == visible
    ensures Elements(AllIds(pages)) == visible
  {
    forall x ensures x in AllIds(pages) <==> x in visible {
      WalkIsComplete(states, pages, workspace, actor, filter, None, limit, x);
      WalkReturnsVisible(states, pages, workspace, actor, filter, None, limit, visible);
    }
  }

  lemma {:induction false} WalkReturnsVisible(states: seq<set<Id>>, pages: seq<Page>, workspace: Id, actor: Id, filter: nat, after: Option<Id>, limit: nat,
                                               visible: set<Id>)
    requires Walk(states, pages, workspace, actor, filter, after, limit) && forall s :: s in states ==> s <= visible
    ensures forall x :: x in AllIds(pages) ==> x in visible
    decreases |pages|
  {
    assert states[0] in states;
    if |pages| > 1 {
      assert forall s :: s in states[1..] ==> s in states;
      WalkReturnsVisible(states[1..], pages[1..], workspace, actor, filter, Some(pages[0].next.value.id), limit, visible);
    } else {
      assert AllIds(pages[1..]) == [];
    }
  }
}
