/**
 Where published pages come from: every page of a published walk was asked for with its cursor, answered and
 accepted at some step of the run, by one worker under one lease.
 */
module ScanOrigins {
  import opened Options
  import opened Tables
  import opened Inventory
  import opened InventoryRuns

  /** At step k the holder of this ticket, having walked `before`, read the page of `v` with the cursor of `v`. */
  predicate ReadAt(w: World, steps: seq<Step>, k: nat, t: Ticket, before: seq<Visit>, v: Visit) {
    && k < |steps| && steps[k].Read? && steps[k].page == v.page && v.cursor == Cursor(before)
    && var x := ScannerOf(Run(w, steps[..k]), steps[k].worker);
    && x.ticket == t && x.pc.Walking? && x.pc.visits == before
    && ReadPage(Run(w, steps[..k]), steps[k]).scanners[steps[k].worker].pc == Fetched(x.pc.version, before, v.page)
  }

  ghost predicate WasRead(w: World, steps: seq<Step>, t: Ticket, before: seq<Visit>, v: Visit) {
    exists k: nat :: ReadAt(w, steps, k, t, before, v)
  }

  /** Every page of the walk was read in its turn. */
  ghost predicate Traced(w: World, steps: seq<Step>, t: Ticket, visits: seq<Visit>) {
    forall i :: 0 <= i < |visits| ==> WasRead(w, steps, t, visits[..i], visits[i])
  }

  /** What a worker carries with it was read. */
  ghost predicate PlaceTraced(w: World, steps: seq<Step>, x: Scanner) {
    match x.pc
    case Walking(_, visits) => Traced(w, steps, x.ticket, visits)
    case Fetched(_, visits, page) => Traced(w, steps, x.ticket, visits) && WasRead(w, steps, x.ticket, visits, Visit(Cursor(visits), page))
    case Ended(_, visits) => Traced(w, steps, x.ticket, visits)
    case _ => true
  }

  ghost predicate TracedUnder(w: World, steps: seq<Step>, r: Id, visits: seq<Visit>) {
    exists t: Ticket :: t.run == r && Traced(w, steps, t, visits)
  }

  ghost predicate AllTraced(w: World, steps: seq<Step>, now: World) {
    && (forall id :: id in now.scanners ==> PlaceTraced(w, steps, now.scanners[id]))
    && (forall r :: r in now.published ==> TracedUnder(w, steps, r, now.published[r]))
  }

  // ---- Longer runs remember ----

  lemma ReadStays(w: World, steps: seq<Step>, s: Step, t: Ticket, before: seq<Visit>, v: Visit)
    requires WasRead(w, steps, t, before, v)
    ensures WasRead(w, steps + [s], t, before, v)
  {
    var k: nat :| ReadAt(w, steps, k, t, before, v);
    assert (steps + [s])[..k] == steps[..k];
    assert ReadAt(w, steps + [s], k, t, before, v);
  }

  lemma TraceStays(w: World, steps: seq<Step>, s: Step, t: Ticket, visits: seq<Visit>)
    requires Traced(w, steps, t, visits)
    ensures Traced(w, steps + [s], t, visits)
  {
    forall i | 0 <= i < |visits| ensures WasRead(w, steps + [s], t, visits[..i], visits[i]) {
      ReadStays(w, steps, s, t, visits[..i], visits[i]);
    }
  }

  lemma TraceGrows(w: World, steps: seq<Step>, t: Ticket, visits: seq<Visit>, v: Visit)
    requires Traced(w, steps, t, visits) && WasRead(w, steps, t, visits, v)
    ensures Traced(w, steps, t, visits + [v])
  {
    var longer := visits + [v];
    forall i | 0 <= i < |longer| ensures WasRead(w, steps, t, longer[..i], longer[i]) {
      assert longer[..i] == if i < |visits| then visits[..i] else visits;
    }
  }

  lemma PlaceStays(w: World, steps: seq<Step>, s: Step, x: Scanner)
    requires PlaceTraced(w, steps, x)
    ensures PlaceTraced(w, steps + [s], x)
  {
    match x.pc {
      case Walking(_, visits) => TraceStays(w, steps, s, x.ticket, visits);
      case Fetched(_, visits, page) =>
        TraceStays(w, steps, s, x.ticket, visits);
        ReadStays(w, steps, s, x.ticket, visits, Visit(Cursor(visits), page));
      case Ended(_, visits) => TraceStays(w, steps, s, x.ticket, visits);
      case _ =>
    }
  }

  lemma PublishedStays(w: World, steps: seq<Step>, s: Step, r: Id, visits: seq<Visit>)
    requires TracedUnder(w, steps, r, visits)
    ensures TracedUnder(w, steps + [s], r, visits)
  {
    var t: Ticket :| t.run == r && Traced(w, steps, t, visits);
    TraceStays(w, steps, s, t, visits);
  }

  // ---- Steps ----

  lemma {:induction false} RunAppends(w: World, steps: seq<Step>, s: Step)
    ensures Run(w, steps + [s]) == Apply(Run(w, steps), s)
    decreases |steps|
  {
    if steps == [] {
      assert steps + [s] == [s];
      assert Run(Apply(w, s), []) == Apply(w, s);
    } else {
      assert (steps + [s])[1..] == steps[1..] + [s];
      RunAppends(Apply(w, steps[0]), steps[1..], s);
    }
  }

  lemma ReadTraced(w: World, steps: seq<Step>, s: Step)
    requires s.Read?
    ensures var now := Run(w, steps); var x := ScannerOf(now, s.worker);
      x.pc.Walking? && ReadPage(now, s).scanners[s.worker].pc.Fetched?
      ==> WasRead(w, steps + [s], x.ticket, x.pc.visits, Visit(Cursor(x.pc.visits), s.page))
  {
    var now := Run(w, steps);
    var x := ScannerOf(now, s.worker);
    if x.pc.Walking? && ReadPage(now, s).scanners[s.worker].pc.Fetched? {
      var longer := steps + [s];
      assert longer[..|steps|] == steps && longer[|steps|] == s;
      assert ReadAt(w, longer, |steps|, x.ticket, x.pc.visits, Visit(Cursor(x.pc.visits), s.page));
    }
  }

  /** What a worker's own step makes of its place. */
  predicate Moves(x: Scanner, y: Scanner, s: Step) {
    || y.pc.Idle? || y.pc.Holding?
    || (y.ticket == x.ticket
        && ((y.pc.Walking? && y.pc.visits == [])
            || (y.pc.Ended? && y.pc.visits == [])
            || (x.pc.Walking? && y.pc.Ended? && y.pc.visits == x.pc.visits)
            || (x.pc.Walking? && s.Read? && y.pc == Fetched(x.pc.version, x.pc.visits, s.page))
            || (x.pc.Fetched? && y.pc.Ended? && y.pc.visits == x.pc.visits)
            || (x.pc.Fetched? && (y.pc.Walking? || y.pc.Ended?) && y.pc.visits == x.pc.visits + [Visit(Cursor(x.pc.visits), x.pc.page)])))
  }

  lemma StepMoves(w: World, s: Step)
    ensures forall id :: id in Apply(w, s).scanners ==>
      Apply(w, s).scanners[id] == ScannerOf(w, id) || Moves(ScannerOf(w, id), Apply(w, s).scanners[id], s)
    ensures forall id :: id in Apply(w, s).scanners && Apply(w, s).scanners[id] != ScannerOf(w, id) && s.Read? ==> s.worker == id
  {
  }

  /** Only a finished scan is published, and as the walk its worker carried. */
  lemma StepPublishes(w: World, s: Step)
    ensures forall r :: r in Apply(w, s).published ==>
      || (r in w.published && Apply(w, s).published[r] == w.published[r])
      || (s.Finish? && ScannerOf(w, s.worker).pc.Ended? && ScannerOf(w, s.worker).ticket.run == r
          && Apply(w, s).published[r] == ScannerOf(w, s.worker).pc.visits)
  {
  }

  lemma MoveTraced(w: World, steps: seq<Step>, s: Step, x: Scanner, y: Scanner)
    requires PlaceTraced(w, steps, x) && Moves(x, y, s)
    requires y.pc.Fetched? ==> WasRead(w, steps + [s], x.ticket, y.pc.visits, Visit(Cursor(y.pc.visits), y.pc.page))
    ensures PlaceTraced(w, steps + [s], y)
  {
    PlaceStays(w, steps, s, x);
    if x.pc.Fetched? {
      TraceGrows(w, steps + [s], x.ticket, x.pc.visits, Visit(Cursor(x.pc.visits), x.pc.page));
    }
  }

  lemma StepTraced(w: World, steps: seq<Step>, s: Step)
    requires AllTraced(w, steps, Run(w, steps))
    ensures AllTraced(w, steps + [s], Apply(Run(w, steps), s))
  {
    var now := Run(w, steps);
    var next := Apply(now, s);
    StepMoves(now, s);
    StepPublishes(now, s);
    forall id | id in next.scanners ensures PlaceTraced(w, steps + [s], next.scanners[id]) {
      var x, y := ScannerOf(now, id), next.scanners[id];
      if y == x {
        PlaceStays(w, steps, s, x);
      } else {
        if s.Read? {
          ReadTraced(w, steps, s);
        }
        MoveTraced(w, steps, s, x, y);
      }
    }
    forall r | r in next.published ensures TracedUnder(w, steps + [s], r, next.published[r]) {
      if r in now.published && next.published[r] == now.published[r] {
        PublishedStays(w, steps, s, r, next.published[r]);
      } else {
        var x := ScannerOf(now, s.worker);
        PlaceStays(w, steps, s, x);
        assert Traced(w, steps + [s], x.ticket, x.pc.visits);
      }
    }
  }

  lemma {:induction false} RunTraced(w: World, steps: seq<Step>)
    requires Initial(w)
    ensures AllTraced(w, steps, Run(w, steps))
    decreases |steps|
  {
    if steps != [] {
      var rest, s := steps[..|steps| - 1], steps[|steps| - 1];
      assert steps == rest + [s];
      RunTraced(w, rest);
      StepTraced(w, rest, s);
      RunAppends(w, rest, s);
    }
  }

  /**
   The walk that the public rows show was read page by page in the run: each page by one and the same worker,
   under one lease token, with the cursor that the page before it named.
   */
  lemma PublishedWalkWasRead(w: World, steps: seq<Step>, r: Id)
    requires Initial(w) && IsLast(Run(w, steps).feed, r)
    ensures r in Run(w, steps).published
    ensures exists t: Ticket :: t.run == r && Traced(w, steps, t, Run(w, steps).published[r])
  {
    PublicIsLastCompleteWalk(w, steps, r);
    RunTraced(w, steps);
    assert TracedUnder(w, steps, r, Run(w, steps).published[r]);
  }
}
