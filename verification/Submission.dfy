/**
 What the protocol is for: over every run, by any number of workers that crash, lose their leases
 or come back late, an operation is submitted at most once, its target is reserved meanwhile, and
 whatever outcome is recorded has evidence.
 */
module Submission {
  import opened Options
  import opened Lifecycle
  import opened Receipts
  import opened Tables
  import opened Transactions
  import opened Protocol
  import opened ProtocolInvariant
  import opened ProtocolSteps
  import opened ProtocolHistory

  // ---- At most once ----

  /** This step makes the mutating call for this operation. */
  ghost predicate SubmitsFor(w: World, s: Step, id: Id) {
    s.Submit? && WorkerOf(w, s.worker).pc.Marked? && WorkerOf(w, s.worker).claim.operation == id
  }

  /** This step commits the operation's dispatching marker. */
  ghost predicate MarksFor(w: World, s: Step, id: Id) {
    && id in w.db.entries && w.db.entries[id].operation.state.Queued?
    && id in Apply(w, s).db.entries && Apply(w, s).db.entries[id].operation.state.Dispatching?
  }

  ghost function Submissions(w: World, steps: seq<Step>, id: Id): nat
    decreases |steps|
  {
    if steps == [] then 0 else (if SubmitsFor(w, steps[0], id) then 1 else 0) + Submissions(Apply(w, steps[0]), steps[1..], id)
  }

  ghost function Markings(w: World, steps: seq<Step>, id: Id): nat
    decreases |steps|
  {
    if steps == [] then 0 else (if MarksFor(w, steps[0], id) then 1 else 0) + Markings(Apply(w, steps[0]), steps[1..], id)
  }

  ghost function MarkedWorld(w: World, me: Id, x: Worker): World
    requires x.claim.operation in w.db.entries
  {
    AtPc(w, me, Marked).(
      db := Put(w.db, x.claim.operation, Advance(w.db.entries[x.claim.operation], Dispatching)),
      trails := w.trails[x.claim.operation := TrailOf(w, x.claim.operation).(marker := Some(x.claim.token))])
  }

  lemma MarkerApplied(w: World, s: Step)
    requires s.CommitMarker?
    ensures var x := WorkerOf(w, s.worker);
            || (Apply(w, s).db == w.db && Apply(w, s).trails == w.trails)
            || (x.claim.operation in w.db.entries && w.db.entries[x.claim.operation].operation.state.Queued?
                && Apply(w, s) == MarkedWorld(w, s.worker, x))
  {
    var x := WorkerOf(w, s.worker);
    if x.pc.Inspected? && Mark(w.db, s.sv, x.claim, x.pc.fingerprint, s.live, s.fault).1.Done? {
      MarkShape(w.db, s.sv, x.claim, x.pc.fingerprint, s.live, s.fault);
    }
  }

  lemma MarkerRecorded(w: World, s: Step, id: Id)
    requires w.trails.Keys == w.db.entries.Keys && s.CommitMarker?
    ensures var t, t' := TrailOf(w, id), TrailOf(Apply(w, s), id);
            && t'.replies == t.replies && t'.success == t.success && t'.failure == t.failure
            && t'.marker.Some? == (t.marker.Some? || MarksFor(w, s, id))
  {
    MarkerApplied(w, s);
  }

  lemma TrailsStay(w: World, s: Step)
    requires !s.CommitMarker? && !s.UserRecheck? && !s.WriteConfirm? && !s.Submit? && !s.Observe?
    ensures Apply(w, s).trails == w.trails
  {
  }

  /** An acceptance starts a record only for an operation that did not have one. */
  lemma ConfirmTrails(w: World, s: Step, id: Id)
    requires w.trails.Keys == w.db.entries.Keys && s.WriteConfirm?
    ensures TrailOf(Apply(w, s), id) == TrailOf(w, id)
  {
  }

  /** No other step hands out a marker, and only a submission appends a reply. */
  lemma OthersRecord(w: World, s: Step, id: Id)
    requires w.trails.Keys == w.db.entries.Keys && !s.CommitMarker?
    ensures TrailOf(Apply(w, s), id).marker == TrailOf(w, id).marker
    ensures |TrailOf(Apply(w, s), id).replies| == |TrailOf(w, id).replies| + if SubmitsFor(w, s, id) then 1 else 0
  {
    if s.UserRecheck? {
      RecheckApplied(w, s);
    } else if s.WriteConfirm? {
      ConfirmTrails(w, s, id);
    } else if !s.Submit? && !s.Observe? {
      TrailsStay(w, s);
    }
  }

  lemma OthersMarkNothing(w: World, s: Step, id: Id)
    requires Inv(w) && !s.CommitMarker?
    ensures !MarksFor(w, s, id)
  {
    if id in w.db.entries {
      StepMoves(w, s, id);
    }
  }

  lemma StepRecorded(w: World, s: Step, id: Id)
    requires Inv(w)
    ensures |TrailOf(Apply(w, s), id).replies| == |TrailOf(w, id).replies| + if SubmitsFor(w, s, id) then 1 else 0
    ensures TrailOf(Apply(w, s), id).marker.Some? == (TrailOf(w, id).marker.Some? || MarksFor(w, s, id))
    ensures MarksFor(w, s, id) ==> TrailOf(w, id).marker.None?
  {
    if s.CommitMarker? {
      MarkerRecorded(w, s, id);
    } else {
      OthersRecord(w, s, id);
      OthersMarkNothing(w, s, id);
    }
    assert id in w.db.entries ==> OperationOk(w.db.entries[id], w.trails[id]);
  }

  lemma {:induction false} RunRecorded(w: World, steps: seq<Step>, id: Id)
    requires Inv(w)
    ensures |TrailOf(Run(w, steps), id).replies| == |TrailOf(w, id).replies| + Submissions(w, steps, id)
    ensures (if TrailOf(Run(w, steps), id).marker.Some? then 1 else 0)
            == (if TrailOf(w, id).marker.Some? then 1 else 0) + Markings(w, steps, id)
    decreases |steps|
  {
    if steps != [] {
      StepRecorded(w, steps[0], id);
      StepKeeps(w, steps[0]);
      RunRecorded(Apply(w, steps[0]), steps[1..], id);
    }
  }

  /** Over every run from an empty installation: one marker at most, and no submission without it or beyond it. */
  lemma AtMostOnce(w: World, steps: seq<Step>, id: Id)
    requires Initial(w)
    ensures Submissions(w, steps, id) <= Markings(w, steps, id) <= 1
  {
    RunRecorded(w, steps, id);
    RunKeeps(w, steps);
    var w' := Run(w, steps);
    assert id in w'.db.entries ==> OperationOk(w'.db.entries[id], w'.trails[id]);
  }

  /** The submitter holds the marker itself: it was committed under its own token, and nothing was sent yet. */
  lemma SubmitterMarked(w: World, s: Step, id: Id)
    requires Inv(w) && SubmitsFor(w, s, id)
    ensures id in w.trails && w.trails[id].marker == Some(WorkerOf(w, s.worker).claim.token) && w.trails[id].replies == []
  {
    assert WorkerOk(s.worker, WorkerOf(w, s.worker), w);
  }

  // ---- Reservations ----

  /** In every reachable state an operation has its lock row exactly while it is unsettled or unknown and not signed off. */
  lemma LockedWhileHeld(w: World, steps: seq<Step>, id: Id)
    requires Initial(w) && id in Run(w, steps).db.entries
    ensures var e := Run(w, steps).db.entries[id];
            e.locked <==> Unsettled(e.operation.state) || (e.operation.state.Unknown? && !e.resolved)
  {
    RunKeeps(w, steps);
    assert EntryOk(Run(w, steps).db.entries[id]);
  }

  /** Two operations never hold one native target together. */
  lemma OneHolder(w: World, steps: seq<Step>, a: Id, b: Id)
    requires Initial(w) && a in Run(w, steps).db.entries && b in Run(w, steps).db.entries
    requires var db := Run(w, steps).db;
             Holds(db.entries[a]) && Holds(db.entries[b]) && db.entries[a].operation.target == db.entries[b].operation.target
    ensures a == b
  {
    RunKeeps(w, steps);
    var db := Run(w, steps).db;
    assert EntryOk(db.entries[a]) && EntryOk(db.entries[b]);
    assert a != b ==> Apart(db.entries[a], db.entries[b]);
  }

  /**
   A worker that submits inside its local deadline does so while its operation is dispatching and
   reserved; every other operation on the same target that was ever submitted has ended, or was
   signed off by an owner.
   */
  lemma SubmissionsApart(w: World, s: Step, id: Id, other: Id)
    requires Inv(w) && SubmitsFor(w, s, id) && w.db.now < WorkerOf(w, s.worker).until
    requires other in w.db.entries && other != id
    requires w.db.entries[other].operation.target == w.db.entries[id].operation.target
    ensures w.db.entries[id].operation.state.Dispatching? && w.db.entries[id].locked
    ensures Settled(w.db.entries[other])
  {
    assert WorkerOk(s.worker, WorkerOf(w, s.worker), w);
    assert EntryOk(w.db.entries[id]) && EntryOk(w.db.entries[other]);
    assert Apart(w.db.entries[id], w.db.entries[other]);
  }

  /** Ideal timers: nobody submits past its local deadline. */
  ghost predicate Timely(w: World, steps: seq<Step>)
    decreases |steps|
  {
    steps == [] ||
    (&& (steps[0].Submit? && WorkerOf(w, steps[0].worker).pc.Marked? ==> w.db.now < WorkerOf(w, steps[0].worker).until)
     && Timely(Apply(w, steps[0]), steps[1..]))
  }

  /** Neither waiting for its marker nor inside its one dispatch. */
  predicate PastDispatch(e: Entry) {
    !e.operation.state.Queued? && !e.operation.state.Dispatching?
  }

  lemma PastNotSubmitted(w: World, s: Step, id: Id)
    requires Inv(w) && id in w.db.entries && PastDispatch(w.db.entries[id]) && SubmitsFor(w, s, id)
    ensures w.db.now >= WorkerOf(w, s.worker).until
  {
    assert WorkerOk(s.worker, WorkerOf(w, s.worker), w);
  }

  lemma PastMoves(e: Entry, e': Entry)
    requires EntryOk(e) && EntryOk(e') && Moves(e, e') && PastDispatch(e)
    ensures !e'.operation.state.Queued?
  {
    if e.events <= e'.events {
      var n := |e'.events| - 1;
      ChainShape(e'.events, e'.operation.state, n);
      ChainShape(e.events, e.operation.state, |e.events| - 1);
    }
  }

  lemma PastDispatchStays(w: World, s: Step, id: Id)
    requires Inv(w) && id in w.db.entries && PastDispatch(w.db.entries[id]) && Consistent(Apply(w, s).db)
    ensures id in Apply(w, s).db.entries && PastDispatch(Apply(w, s).db.entries[id])
  {
    StepMoves(w, s, id);
    var e, e' := w.db.entries[id], Apply(w, s).db.entries[id];
    assert EntryOk(e) && EntryOk(e');
    PastMoves(e, e');
    if s.CommitMarker? {
      MarkerStep(w, s, id);
    }
  }

  /** Nothing is submitted any more, whatever is rechecked or released later: a reopened operation is only observed. */
  lemma {:induction false} NoneAfterDispatch(w: World, steps: seq<Step>, id: Id)
    requires Inv(w) && id in w.db.entries && PastDispatch(w.db.entries[id]) && Timely(w, steps)
    ensures Submissions(w, steps, id) == 0
    decreases |steps|
  {
    if steps != [] {
      if SubmitsFor(w, steps[0], id) {
        PastNotSubmitted(w, steps[0], id);
      }
      StepKeeps(w, steps[0]);
      PastDispatchStays(w, steps[0], id);
      NoneAfterDispatch(Apply(w, steps[0]), steps[1..], id);
    }
  }

  /** Of two operations on one target, the one that is not submitting now is settled, and is never submitted later. */
  lemma OneSubmitterPerTarget(w: World, steps: seq<Step>, s: Step, id: Id, other: Id, later: seq<Step>)
    requires Initial(w) && id != other && Timely(Run(w, steps), later)
    requires var w' := Run(w, steps);
             && SubmitsFor(w', s, id) && w'.db.now < WorkerOf(w', s.worker).until
             && id in w'.db.entries && other in w'.db.entries
             && w'.db.entries[other].operation.target == w'.db.entries[id].operation.target
    ensures Settled(Run(w, steps).db.entries[other])
    ensures Submissions(Run(w, steps), later, other) == 0
  {
    RunKeeps(w, steps);
    LoserNeverSubmits(Run(w, steps), s, id, other, later);
  }

  lemma {:induction false} LoserNeverSubmits(w: World, s: Step, id: Id, other: Id, later: seq<Step>)
    requires Inv(w) && id != other && Timely(w, later)
    requires SubmitsFor(w, s, id) && w.db.now < WorkerOf(w, s.worker).until && id in w.db.entries && other in w.db.entries
    requires w.db.entries[other].operation.target == w.db.entries[id].operation.target
    ensures Settled(w.db.entries[other]) && Submissions(w, later, other) == 0
  {
    SubmissionsApart(w, s, id, other);
    NoneAfterDispatch(w, later, other);
  }

  // ---- Outcomes ----

  /** Step k of the run observed the operation, and its answer argued for `to`. */
  ghost predicate ObservedAt(w: World, steps: seq<Step>, k: nat, id: Id, to: OpState) {
    && k < |steps| && steps[k].Observe?
    && var x := WorkerOf(Run(w, steps[..k]), steps[k].worker);
    x.pc.Observing? && x.claim.operation == id && Conclusion(steps[k].sight, x.pc.referenced) == to
  }

  ghost predicate RepliedAt(w: World, steps: seq<Step>, k: nat, id: Id, reply: Reply) {
    k < |steps| && SubmitsFor(Run(w, steps[..k]), steps[k], id) && steps[k].reply == reply
  }

  /** What the record says happened, happened at some step of the run. */
  ghost predicate Recorded(w: World, steps: seq<Step>, id: Id) {
    var t, t' := TrailOf(w, id), TrailOf(Run(w, steps), id);
    && (t'.success ==> t.success || exists k: nat :: ObservedAt(w, steps, k, id, Succeeded))
    && (t'.failure ==> t.failure || exists k: nat :: ObservedAt(w, steps, k, id, Failed))
    && (forall r :: r in t'.replies ==> r in t.replies || exists k: nat :: RepliedAt(w, steps, k, id, r))
  }

  lemma StepEvidence(w: World, s: Step, id: Id)
    requires w.trails.Keys == w.db.entries.Keys
    ensures var t, t' := TrailOf(w, id), TrailOf(Apply(w, s), id);
            && (t'.success && !t.success ==> ObservedAt(w, [s], 0, id, Succeeded))
            && (t'.failure && !t.failure ==> ObservedAt(w, [s], 0, id, Failed))
            && (forall r :: r in t'.replies ==> r in t.replies || RepliedAt(w, [s], 0, id, r))
  {
    assert [s][..0] == [];
    if s.CommitMarker? {
      MarkerRecorded(w, s, id);
    } else if s.UserRecheck? {
      RecheckApplied(w, s);
    } else if s.WriteConfirm? {
      ConfirmTrails(w, s, id);
    } else if !s.Submit? && !s.Observe? {
      TrailsStay(w, s);
    }
  }

  lemma {:induction false} RunEvidence(w: World, steps: seq<Step>, id: Id)
    requires Inv(w)
    ensures Recorded(w, steps, id)
    decreases |steps|
  {
    if steps != [] {
      var w1, rest := Apply(w, steps[0]), steps[1..];
      StepKeeps(w, steps[0]);
      RunEvidence(w1, rest, id);
      StepEvidence(w, steps[0], id);
      EvidenceShifts(w, steps, id);
    }
  }

  lemma RunShifts(w: World, steps: seq<Step>, k: nat)
    requires k < |steps| - 1
    ensures Run(w, steps[..k + 1]) == Run(Apply(w, steps[0]), steps[1..][..k]) && steps[1..][k] == steps[k + 1]
  {
    assert steps[..k + 1][1..] == steps[1..][..k];
  }

  lemma EvidenceShifts(w: World, steps: seq<Step>, id: Id)
    requires steps != []
    ensures var w1, rest := Apply(w, steps[0]), steps[1..];
            && (forall k: nat, to :: ObservedAt(w1, rest, k, id, to) ==> ObservedAt(w, steps, k + 1, id, to))
            && (forall k: nat, r :: RepliedAt(w1, rest, k, id, r) ==> RepliedAt(w, steps, k + 1, id, r))
    ensures forall to :: ObservedAt(w, [steps[0]], 0, id, to) ==> ObservedAt(w, steps, 0, id, to)
    ensures forall r :: RepliedAt(w, [steps[0]], 0, id, r) ==> RepliedAt(w, steps, 0, id, r)
  {
    assert steps[..0] == [] && [steps[0]][..0] == [];
    var w1, rest := Apply(w, steps[0]), steps[1..];
    forall k: nat, to | ObservedAt(w1, rest, k, id, to) ensures ObservedAt(w, steps, k + 1, id, to) {
      RunShifts(w, steps, k);
    }
    forall k: nat, r | RepliedAt(w1, rest, k, id, r) ensures RepliedAt(w, steps, k + 1, id, r) {
      RunShifts(w, steps, k);
    }
  }

  /** The record of a reachable world backs the stored state. */
  lemma ReachedEvidence(w: World, steps: seq<Step>, id: Id)
    requires Initial(w) && id in Run(w, steps).db.entries
    ensures var w' := Run(w, steps); var e := w'.db.entries[id];
            EvidenceFor(e, TrailOf(w', id)) && (e.operation.state.Unknown? ==> e.locked || e.resolved)
  {
    RunKeeps(w, steps);
    var w' := Run(w, steps);
    assert OperationOk(w'.db.entries[id], w'.trails[id]) && EntryOk(w'.db.entries[id]);
  }

  /** A failure is one of three: never submitted, seen to fail, or definitely rejected. */
  lemma FailureHasCause(w: World, steps: seq<Step>, id: Id, t: Trail)
    requires Recorded(w, steps, id) && t == TrailOf(Run(w, steps), id) && TrailOf(w, id) == Trail(None, [], false, false, 0)
    requires |t.replies| == Submissions(w, steps, id) && (t.marker.None? ==> t.replies == [])
    requires t.marker.None? || t.failure || (|t.replies| == 1 && DefiniteRejection(t.replies[0]))
    ensures || Submissions(w, steps, id) == 0
            || (exists k: nat :: ObservedAt(w, steps, k, id, Failed))
            || (exists k: nat, r :: RepliedAt(w, steps, k, id, r) && DefiniteRejection(r))
  {
    if |t.replies| == 1 && DefiniteRejection(t.replies[0]) {
      assert t.replies[0] in t.replies;
    }
  }

  /**
   Evidence-sound outcomes. Success: some observation in the run reported it with native evidence.
   Failure: never submitted, definitely rejected, or observed with native evidence. Cancelled or
   still queued: never submitted. Everything else is in flight, or unknown with its reservation
   kept unless an owner signed it off.
   */
  lemma OutcomesHaveEvidence(w: World, steps: seq<Step>, id: Id)
    requires Initial(w) && id in Run(w, steps).db.entries
    ensures var e := Run(w, steps).db.entries[id]; var s := e.operation.state;
            && (s.Succeeded? ==> exists k: nat :: ObservedAt(w, steps, k, id, Succeeded))
            && (s.Failed? ==> || Submissions(w, steps, id) == 0
                              || (exists k: nat :: ObservedAt(w, steps, k, id, Failed))
                              || (exists k: nat, r :: RepliedAt(w, steps, k, id, r) && DefiniteRejection(r)))
            && (s.Cancelled? || s.Queued? ==> Submissions(w, steps, id) == 0)
            && (s.Unknown? ==> e.locked || e.resolved)
  {
    ReachedEvidence(w, steps, id);
    EmptyStart(w, steps, id);
    if Run(w, steps).db.entries[id].operation.state.Failed? {
      FailureHasCause(w, steps, id, TrailOf(Run(w, steps), id));
    }
  }

  lemma EmptyStart(w: World, steps: seq<Step>, id: Id)
    requires Initial(w)
    ensures Recorded(w, steps, id) && TrailOf(w, id) == Trail(None, [], false, false, 0)
    ensures |TrailOf(Run(w, steps), id).replies| == Submissions(w, steps, id)
  {
    RunRecorded(w, steps, id);
    RunEvidence(w, steps, id);
  }

  /** A reservation is given up only when its operation ends, or when an owner signs it off. */
  lemma ReservationGivenUp(w: World, s: Step, id: Id)
    requires Inv(w) && id in w.db.entries && w.db.entries[id].locked
    requires id in Apply(w, s).db.entries && !Apply(w, s).db.entries[id].locked
    ensures Terminal(Apply(w, s).db.entries[id].operation.state) || (s.OwnerRelease? && Apply(w, s).db.entries[id].operation.state.Unknown?)
  {
    StepMoves(w, s, id);
    StepKeeps(w, s);
    assert EntryOk(w.db.entries[id]) && EntryOk(Apply(w, s).db.entries[id]);
  }

  // ---- The event history ----

  /** Numbered without gaps, chained, every step allowed, and never longer than 203 events per attempt budget. */
  lemma HistoryIsBounded(w: World, steps: seq<Step>, id: Id)
    requires Initial(w) && id in Run(w, steps).db.entries
    ensures var e := Run(w, steps).db.entries[id];
            && Chain(e.events, e.operation.state) && |e.events| == e.operation.sequence
            && |e.events| <= EVENTS_PER_BUDGET * (TrailOf(Run(w, steps), id).rechecks + 1)
  {
    RunKeeps(w, steps);
    var w' := Run(w, steps);
    assert OperationOk(w'.db.entries[id], w'.trails[id]) && EntryOk(w'.db.entries[id]);
  }
}
