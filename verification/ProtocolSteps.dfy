/** The invariant survives each kind of step: first what a step does to one operation, then the step itself. */
module ProtocolSteps {
  import opened Options
  import opened Lifecycle
  import opened Receipts
  import opened Tables
  import opened Transactions
  import opened Consistency
  import opened Protocol
  import opened ProtocolInvariant
  import M = Membership

  // ---- One operation and its record ----

  lemma ClaimedOk(e: Entry, t: Trail, l: Claimed, at: int, now: int)
    requires OperationOk(e, t) && RowOk(e) && e.job.Some? && Claimable(e.job.value, at) && at <= now && t.marker != Some(l.token)
    ensures var e' := ClaimedEntry(e, l, at);
            && OperationOk(e', t) && at <= e'.job.value.lease.value.expires
            && (forall x: Worker :: x.claim.token != l.token && TimingOk(x, e, now) ==> TimingOk(x, e', now))
  {
  }

  lemma RenewedOk(e: Entry, t: Trail, l: Claimed, at: int, expires: int, now: int)
    requires OperationOk(e, t) && LiveIn(e, l, at)
    ensures var e' := WithJob(e, e.job.value.(lease := Some(Lease(l.owner, l.token, expires))));
            && OperationOk(e', t)
            && (forall x: Worker :: x.claim.token != l.token && TimingOk(x, e, now) ==> TimingOk(x, e', now))
  {
  }

  lemma MarkedOk(e: Entry, t: Trail, l: Claimed, now: int)
    requires OperationOk(e, t) && RowOk(e) && LiveIn(e, l, now) && e.operation.state.Queued?
    ensures var e', t' := Advance(e, Dispatching), t.(marker := Some(l.token));
            && OperationOk(e', t') && t.marker.None? && t.replies == []
            && (forall x: Worker :: x.claim.token != l.token && PcOk(x, t) && TimingOk(x, e, now) ==> PcOk(x, t') && TimingOk(x, e', now))
  {
  }

  lemma SentOk(e: Entry, t: Trail, token: Id, reply: Reply)
    requires OperationOk(e, t) && t.marker == Some(token) && t.replies == []
    ensures var t' := t.(replies := t.replies + [reply]);
            && OperationOk(e, t')
            && (forall x: Worker :: x.claim.token != token && PcOk(x, t) ==> PcOk(x, t'))
  {
  }

  /** What every fenced commit that hands the job back gives the other workers: their lease is not the job's. */
  lemma HandedBackOk(e: Entry, e': Entry, l: Claimed, now: int)
    requires LiveIn(e, l, now) && e'.job.Some? && e'.job.value.lease.None?
    ensures forall x: Worker :: x.claim.token != l.token && TimingOk(x, e, now) ==> TimingOk(x, e', now)
  {
  }

  lemma ReceiptStoredOk(e: Entry, t: Trail, l: Claimed, reply: Reply, delay: nat, now: int)
    requires OperationOk(e, t) && RowOk(e) && LiveIn(e, l, now) && e.operation.state.Dispatching?
    requires t.marker == Some(l.token) && t.replies == [reply]
    ensures var (to, reference) := ClassifyActionReceipt(e.operation.action, reply);
            OperationOk(HandBack(Advance(WithReference(e, reference), to), if to.Failed? then JobFailed else JobQueued, delay, now), t)
  {
    ReceiptSoundness(e.operation.action, reply);
  }

  lemma RejectionStoredOk(e: Entry, t: Trail, l: Claimed, now: int)
    requires OperationOk(e, t) && RowOk(e) && LiveIn(e, l, now) && e.operation.state.Queued?
    ensures OperationOk(HandBack(Advance(e, Failed), JobFailed, 0, now), t)
  {
  }

  /** A conclusive observation is recorded before it is stored. */
  lemma ObservationStoredOk(e: Entry, t: Trail, l: Claimed, sight: Observation, referenced: bool, delay: nat, now: int)
    requires OperationOk(e, t) && RowOk(e) && LiveIn(e, l, now) && InFlight(e.operation.state)
    requires t.marker.Some? && t.marker != Some(l.token)
    requires Conclusion(sight, referenced).Succeeded? ==> t.success
    requires Conclusion(sight, referenced).Failed? ==> t.failure
    ensures var to := Conclusion(sight, referenced);
            OperationOk(HandBack(Settle(e, to), if Final(to) then JobSucceeded else JobQueued, delay, now), t)
  {
    ConclusionAllowed(e.operation.state, sight, referenced);
  }

  lemma CancelledOk(e: Entry, t: Trail, now: int)
    requires OperationOk(e, t) && RowOk(e) && e.operation.state.Queued?
    ensures var e' := if HasActiveJob(e) then WithJob(Advance(e, Cancelled), CancelJob(e.job.value, now)) else Advance(e, Cancelled);
            && OperationOk(e', t)
            && (forall x: Worker :: PcOk(x, t) && TimingOk(x, e, now) ==> TimingOk(x, e', now))
  {
  }

  lemma RecheckedOk(e: Entry, t: Trail, now: int)
    requires OperationOk(e, t) && RowOk(e) && e.operation.state.Unknown?
    ensures var e', t' := Reopened(e, now), t.(rechecks := t.rechecks + 1);
            && OperationOk(e', t')
            && (forall x: Worker :: PcOk(x, t) && TimingOk(x, e, now) ==> PcOk(x, t') && TimingOk(x, e', now))
  {
  }

  lemma ReleasedOk(e: Entry, t: Trail, now: int)
    requires OperationOk(e, t) && RowOk(e) && e.operation.state.Unknown?
    ensures var r := e.(resolved := true, locked := false);
            var e' := if e.job.Some? then WithJob(r, CancelJob(e.job.value, now)) else r;
            && OperationOk(e', t)
            && (forall x: Worker :: TimingOk(x, e, now) ==> TimingOk(x, e', now))
  {
  }

  lemma ExpiredOk(e: Entry, t: Trail, now: int)
    requires OperationOk(e, t) && RowOk(e) && Exhausted(e, now)
    ensures var e' := ExpireEntry(e, now);
            && OperationOk(e', t)
            && (forall x: Worker :: PcOk(x, t) && TimingOk(x, e, now) ==> TimingOk(x, e', now))
  {
  }

  lemma PrunedOk(e: Entry, t: Trail, now: int)
    requires OperationOk(e, t) && RowOk(e) && PrunableJob(e, now)
    ensures var e' := e.(job := None);
            && OperationOk(e', t)
            && (forall x: Worker :: TimingOk(x, e, now) ==> TimingOk(x, e', now))
  {
  }

  lemma DisabledOk(e: Entry, t: Trail, connection: Id, now: int)
    requires OperationOk(e, t) && RowOk(e)
    ensures var e' := DisableEntry(e, connection, now);
            && OperationOk(e', t)
            && (forall x: Worker :: TimingOk(x, e, now) ==> TimingOk(x, e', now))
  {
  }

  // ---- Workers ----

  lemma ClaimShape(db: Store, l: Claimed, at: int)
    requires Claim(db, l, at).1.Done?
    ensures l.operation in db.entries && db.entries[l.operation].job.Some? && Claimable(db.entries[l.operation].job.value, at)
    ensures var e := db.entries[l.operation]; var j := e.job.value;
            var lease := Lease(l.owner, l.token, Min(at + LEASE_SECONDS, j.deadline));
            Claim(db, l, at).0 == Put(db, l.operation, WithJob(e, j.(state := JobRunning, lease := Some(lease), attempts := j.attempts + 1)))
  {
  }

  function ClaimedEntry(e: Entry, l: Claimed, at: int): Entry
    requires e.job.Some?
  {
    var j := e.job.value;
    WithJob(e, j.(state := JobRunning, lease := Some(Lease(l.owner, l.token, Min(at + LEASE_SECONDS, j.deadline))), attempts := j.attempts + 1))
  }

  function TakenWorld(w: World, l: Claimed, at: int, e: Entry): World {
    w.(db := Put(w.db, l.operation, e), issued := w.issued[l.token := l], workers := w.workers[l.owner := Worker(Taken, l, at)])
  }

  lemma TakeShape(w: World, s: Step)
    requires s.Take?
    ensures var claim := Claimed(s.operation, s.worker, s.token);
            || TakeJob(w, s) == w
            || (&& s.token !in w.issued && s.at <= w.db.now && s.operation in w.db.entries && w.db.entries[s.operation].job.Some?
                && Claimable(w.db.entries[s.operation].job.value, s.at)
                && TakeJob(w, s) == TakenWorld(w, claim, s.at, ClaimedEntry(w.db.entries[s.operation], claim, s.at)))
  {
    var claim := Claimed(s.operation, s.worker, s.token);
    if Claim(w.db, claim, s.at).1.Done? {
      ClaimShape(w.db, claim, s.at);
    }
  }

  lemma TakeKeeps(w: World, s: Step)
    requires Live(w) && s.Take?
    requires s.operation in w.db.entries ==> RowOk(w.db.entries[s.operation])
    ensures Live(TakeJob(w, s))
  {
    TakeShape(w, s);
    if TakeJob(w, s) != w {
      ClaimKeepsLive(w, Claimed(s.operation, s.worker, s.token), s.at);
    }
  }

  lemma ClaimKeepsLive(w: World, claim: Claimed, at: int)
    requires Live(w) && claim.operation in w.db.entries && claim.token !in w.issued && at <= w.db.now
    requires var e := w.db.entries[claim.operation]; RowOk(e) && e.job.Some? && Claimable(e.job.value, at)
    ensures Live(TakenWorld(w, claim, at, ClaimedEntry(w.db.entries[claim.operation], claim, at)))
  {
    var e, t := w.db.entries[claim.operation], w.trails[claim.operation];
    assert TokensOk(claim.operation, e, t, w.issued);
    ClaimedOk(e, t, claim, at, w.db.now);
    TakenKeepsLive(w, claim, at, ClaimedEntry(e, claim, at));
  }

  lemma TakenKeepsLive(w: World, claim: Claimed, at: int, e: Entry)
    requires Live(w) && claim.operation in w.db.entries && claim.operation in w.trails && claim.token !in w.issued
    requires OperationOk(e, w.trails[claim.operation])
    requires e.job.Some? && e.job.value.lease.Some? && at <= e.job.value.lease.value.expires
    requires e.job.value.lease.value.owner == claim.owner && e.job.value.lease.value.token == claim.token
    requires forall x: Worker :: x.claim.token != claim.token && TimingOk(x, w.db.entries[claim.operation], w.db.now) ==> TimingOk(x, e, w.db.now)
    ensures Live(TakenWorld(w, claim, at, e))
  {
    var w' := TakenWorld(w, claim, at, e);
    assert TokensOk(claim.operation, w.db.entries[claim.operation], w.trails[claim.operation], w.issued);
    assert Touches(w, w', claim.operation);
    forall y | y in w'.workers ensures WorkerOk(y, w'.workers[y], w') {
      if y != claim.owner {
        var x := w.workers[y];
        assert WorkerOk(y, x, w);
        if x.claim.operation != claim.operation {
          WorkerElsewhere(w, w', claim.operation, y, x);
        } else {
          WorkerBeside(w, w', claim.operation, y, x);
        }
      }
    }
    TouchKeeps(w, w', claim.operation);
  }

  lemma RenewShape(db: Store, l: Claimed, at: int)
    requires Renew(db, l, at).1.Done?
    ensures l.operation in db.entries && LiveIn(db.entries[l.operation], l, at)
    ensures var e := db.entries[l.operation]; var j := e.job.value;
            Renew(db, l, at).0 == Put(db, l.operation, WithJob(e, j.(lease := Some(Lease(l.owner, l.token, Min(at + LEASE_SECONDS, j.deadline))))))
  {
  }

  lemma RenewedKeepsLive(w: World, me: Id, x': Worker, at: int, expires: int)
    requires Live(w) && me in w.workers && !w.workers[me].pc.Idle? && x'.claim == w.workers[me].claim && !x'.pc.Idle?
    requires x'.claim.operation in w.db.entries && LiveIn(w.db.entries[x'.claim.operation], x'.claim, at)
    requires x'.pc == w.workers[me].pc || (x'.pc.Ready? && w.workers[me].pc.Taken?)
    requires x'.until <= expires
    ensures var e' := RenewedEntry(w.db.entries[x'.claim.operation], x'.claim, expires);
            x'.claim.operation in w.trails && Live(Replaced(w, me, x', x'.claim.operation, e', w.trails[x'.claim.operation]))
  {
    var id := x'.claim.operation;
    assert WorkerOk(me, w.workers[me], w);
    RenewedOk(w.db.entries[id], w.trails[id], x'.claim, at, expires, w.db.now);
    OwnStepKeeps(w, me, x', RenewedEntry(w.db.entries[id], x'.claim, expires), w.trails[id]);
  }

  /** The worker and the row after a renewal. */
  function Extended(x: Worker, started: int, at: int, expires: int): Worker {
    Worker(if x.pc.Taken? then Ready else x.pc, x.claim, started + (expires - at))
  }

  function RenewedEntry(e: Entry, l: Claimed, expires: int): Entry
    requires e.job.Some?
  {
    WithJob(e, e.job.value.(lease := Some(Lease(l.owner, l.token, expires))))
  }

  lemma ExtendShape(w: World, s: Step)
    requires s.Extend?
    ensures var x := WorkerOf(w, s.worker); var id := x.claim.operation;
            || ExtendLease(w, s) == w
            || (&& !x.pc.Idle? && s.started <= s.at <= w.db.now && id in w.db.entries && LiveIn(w.db.entries[id], x.claim, s.at)
                && var expires := Min(s.at + LEASE_SECONDS, w.db.entries[id].job.value.deadline);
                ExtendLease(w, s) == w.(db := Put(w.db, id, RenewedEntry(w.db.entries[id], x.claim, expires)),
                                        workers := w.workers[s.worker := Extended(x, s.started, s.at, expires)]))
  {
    var x := WorkerOf(w, s.worker);
    if Renew(w.db, x.claim, s.at).1.Done? {
      RenewShape(w.db, x.claim, s.at);
    }
  }

  lemma ExtendKeeps(w: World, s: Step)
    requires Live(w) && s.Extend?
    ensures Live(ExtendLease(w, s))
  {
    ExtendShape(w, s);
    var x := WorkerOf(w, s.worker);
    var id := x.claim.operation;
    if !x.pc.Idle? && s.started <= s.at <= w.db.now && id in w.db.entries && LiveIn(w.db.entries[id], x.claim, s.at) {
      var expires := Min(s.at + LEASE_SECONDS, w.db.entries[id].job.value.deadline);
      var x', e' := Extended(x, s.started, s.at, expires), RenewedEntry(w.db.entries[id], x.claim, expires);
      RenewedKeepsLive(w, s.worker, x', s.at, expires);
      assert w.trails[id := w.trails[id]] == w.trails;
      assert ExtendLease(w, s) == w || ExtendLease(w, s) == Replaced(w, s.worker, x', id, e', w.trails[id]);
    } else {
      assert ExtendLease(w, s) == w;
    }
  }

  lemma LoadKeeps(w: World, s: Step)
    requires Live(w) && s.Load?
    ensures Live(LoadOperation(w, s))
  {
    var x := WorkerOf(w, s.worker);
    if x.pc.Ready? {
      assert WorkerOk(s.worker, x, w);
      assert Loadable(w.db, x.claim) ==> OperationOk(w.db.entries[x.claim.operation], w.trails[x.claim.operation]);
      PcKeeps(w, s.worker, LoadOperation(w, s).workers[s.worker].pc);
    }
  }

  lemma LookKeeps(w: World, s: Step)
    requires Live(w) && s.Look?
    ensures Live(LookBeforeDispatch(w, s))
  {
    var x := WorkerOf(w, s.worker);
    if x.pc.Loaded? {
      assert WorkerOk(s.worker, x, w);
      PcKeeps(w, s.worker, LookBeforeDispatch(w, s).workers[s.worker].pc);
    }
  }

  lemma MarkShape(db: Store, sv: Service, l: Claimed, fingerprint: nat, live: bool, fault: bool)
    requires Mark(db, sv, l, fingerprint, live, fault).1.Done?
    ensures LeaseLive(db, l) && db.entries[l.operation].operation.state.Queued? && db.gate.open
    ensures Mark(db, sv, l, fingerprint, live, fault).0 == Put(db, l.operation, Advance(db.entries[l.operation], Dispatching))
  {
  }

  lemma MarkKeepsLive(w: World, s: Step)
    requires Live(w) && s.CommitMarker?
    requires var id := WorkerOf(w, s.worker).claim.operation; id in w.db.entries ==> RowOk(w.db.entries[id])
    ensures Live(MarkDispatching(w, s))
  {
    var x := WorkerOf(w, s.worker);
    if x.pc.Inspected? {
      assert WorkerOk(s.worker, x, w);
      var (db, code) := Mark(w.db, s.sv, x.claim, x.pc.fingerprint, s.live, s.fault);
      if code.Done? {
        MarkShape(w.db, s.sv, x.claim, x.pc.fingerprint, s.live, s.fault);
        MarkedKeepsLive(w, s.worker);
      } else {
        PcKeeps(w, s.worker, Idle);
      }
    }
  }

  lemma MarkedKeepsLive(w: World, me: Id)
    requires Live(w) && me in w.workers && w.workers[me].pc.Inspected?
    requires var l := w.workers[me].claim;
             && LeaseLive(w.db, l) && RowOk(w.db.entries[l.operation]) && w.db.entries[l.operation].operation.state.Queued?
    ensures var l := w.workers[me].claim;
            var t := TrailOf(w, l.operation).(marker := Some(l.token));
            Live(AtPc(w, me, Marked).(db := Put(w.db, l.operation, Advance(w.db.entries[l.operation], Dispatching)),
                                      trails := w.trails[l.operation := t]))
  {
    var l := w.workers[me].claim;
    var id := l.operation;
    assert WorkerOk(me, w.workers[me], w);
    assert OperationOk(w.db.entries[id], w.trails[id]);
    MarkedOk(w.db.entries[id], w.trails[id], l, w.db.now);
    OwnStepKeeps(w, me, w.workers[me].(pc := Marked), Advance(w.db.entries[id], Dispatching), w.trails[id].(marker := Some(l.token)));
  }

  lemma PutSame(db: Store, id: Id)
    requires id in db.entries
    ensures Put(db, id, db.entries[id]) == db
  {
    assert db.entries[id := db.entries[id]] == db.entries;
  }

  lemma SentKeeps(w: World, me: Id, reply: Reply)
    requires Live(w) && me in w.workers && w.workers[me].pc.Marked?
    ensures var id := w.workers[me].claim.operation; var t := TrailOf(w, id);
            Live(AtPc(w, me, Sent(reply)).(trails := w.trails[id := t.(replies := t.replies + [reply])]))
  {
    var x := w.workers[me];
    var id := x.claim.operation;
    assert WorkerOk(me, x, w);
    assert OperationOk(w.db.entries[id], w.trails[id]);
    SentOk(w.db.entries[id], w.trails[id], x.claim.token, reply);
    OwnStepKeeps(w, me, x.(pc := Sent(reply)), w.db.entries[id], w.trails[id].(replies := w.trails[id].replies + [reply]));
    PutSame(w.db, id);
  }

  lemma SubmitKeeps(w: World, s: Step)
    requires Live(w) && s.Submit?
    ensures Live(SubmitOnce(w, s))
  {
    if WorkerOf(w, s.worker).pc.Marked? {
      SentKeeps(w, s.worker, s.reply);
    }
  }

  function Sighted(t: Trail, to: OpState): Trail {
    t.(success := t.success || to.Succeeded?, failure := t.failure || to.Failed?)
  }

  lemma SightedOk(e: Entry, t: Trail, to: OpState)
    requires OperationOk(e, t)
    ensures OperationOk(e, Sighted(t, to)) && forall x: Worker :: PcOk(x, t) ==> PcOk(x, Sighted(t, to))
  {
  }

  lemma SightKeeps(w: World, me: Id, pc: Pc, to: OpState)
    requires Live(w) && me in w.workers && w.workers[me].pc.Observing?
    requires pc.Observed? && Conclusion(pc.sight, pc.referenced) == to
    ensures var id := w.workers[me].claim.operation;
            Live(AtPc(w, me, pc).(trails := w.trails[id := Sighted(TrailOf(w, id), to)]))
  {
    var x := w.workers[me];
    var id := x.claim.operation;
    assert WorkerOk(me, x, w);
    assert OperationOk(w.db.entries[id], w.trails[id]);
    SightedOk(w.db.entries[id], w.trails[id], to);
    OwnStepKeeps(w, me, x.(pc := pc), w.db.entries[id], Sighted(w.trails[id], to));
    PutSame(w.db, id);
  }

  lemma ObserveKeeps(w: World, s: Step)
    requires Live(w) && s.Observe?
    ensures Live(MakeObservation(w, s))
  {
    var x := WorkerOf(w, s.worker);
    if x.pc.Observing? {
      SightKeeps(w, s.worker, Observed(x.pc.from, s.sight, x.pc.referenced), Conclusion(s.sight, x.pc.referenced));
    }
  }

  /** A worker's last commit: the job is handed back, the worker is idle. */
  lemma HandBackKeeps(w: World, w': World, me: Id, e': Entry)
    requires Live(w) && me in w.workers && !w.workers[me].pc.Idle?
    requires var l := w.workers[me].claim;
             && LeaseLive(w.db, l) && l.operation in w.trails
             && e'.job.Some? && e'.job.value.lease.None?
             && OperationOk(e', w.trails[l.operation])
             && w' == AtPc(w, me, Idle).(db := Put(w.db, l.operation, e'))
    ensures Live(w')
  {
    var l := w.workers[me].claim;
    HandedBackOk(w.db.entries[l.operation], e', l, w.db.now);
    OwnStepKeeps(w, me, w.workers[me].(pc := Idle), e', w.trails[l.operation]);
    assert w.trails[l.operation := w.trails[l.operation]] == w.trails;
  }

  lemma RejectShape(db: Store, l: Claimed, cause: Code)
    ensures var db' := RejectUnsent(db, l, cause).0;
            || db' == db
            || (LeaseLive(db, l) && db.entries[l.operation].operation.state.Queued?
                && db' == Put(db, l.operation, HandBack(Advance(db.entries[l.operation], Failed), JobFailed, 0, db.now)))
  {
  }

  lemma ReceiptShape(db: Store, l: Claimed, reply: Reply, delay: nat)
    ensures var db' := StoreReceipt(db, l, reply, delay).0;
            || db' == db
            || (&& LeaseLive(db, l) && db.entries[l.operation].operation.state.Dispatching?
                && var (to, reference) := ClassifyActionReceipt(db.entries[l.operation].operation.action, reply);
                db' == Put(db, l.operation, HandBack(Advance(WithReference(db.entries[l.operation], reference), to),
                                                     if to.Failed? then JobFailed else JobQueued, delay, db.now)))
  {
  }

  lemma ObservationShape(db: Store, l: Claimed, from: OpState, to: OpState, delay: nat)
    ensures var db' := StoreObservation(db, l, from, to, delay).0;
            || db' == db
            || (&& LeaseLive(db, l) && db.entries[l.operation].operation.state == from && InFlight(from)
                && db' == Put(db, l.operation, HandBack(Settle(db.entries[l.operation], to), if Final(to) then JobSucceeded else JobQueued, delay, db.now)))
  {
  }

  /** What a busy worker may rely on about its own operation. */
  lemma WorkerFacts(w: World, me: Id)
    requires Live(w) && me in w.workers && !w.workers[me].pc.Idle?
    ensures var x := w.workers[me]; var id := x.claim.operation;
            id in w.db.entries && id in w.trails && PcOk(x, w.trails[id]) && OperationOk(w.db.entries[id], w.trails[id])
  {
    assert WorkerOk(me, w.workers[me], w);
  }

  /** A worker's last commit either hands the job back or is refused; both leave the worker idle. */
  lemma LastCommitKeeps(w: World, me: Id, db: Store, e': Entry)
    requires Live(w) && me in w.workers && !w.workers[me].pc.Idle?
    requires var l := w.workers[me].claim;
             || db == w.db
             || (&& db == Put(w.db, l.operation, e') && LeaseLive(w.db, l) && l.operation in w.trails
                 && e'.job.Some? && e'.job.value.lease.None? && OperationOk(e', w.trails[l.operation]))
    ensures Live(AtPc(w, me, Idle).(db := db))
  {
    if db == w.db {
      PcKeeps(w, me, Idle);
    } else {
      HandBackKeeps(w, AtPc(w, me, Idle).(db := db), me, e');
    }
  }

  lemma ReceiptKeepsLive(w: World, s: Step)
    requires Live(w) && s.CommitReceipt?
    requires var id := WorkerOf(w, s.worker).claim.operation; id in w.db.entries ==> RowOk(w.db.entries[id])
    ensures Live(KeepReceipt(w, s))
  {
    var x := WorkerOf(w, s.worker);
    if x.pc.Sent? {
      var id, reply := x.claim.operation, x.pc.reply;
      WorkerFacts(w, s.worker);
      ReceiptShape(w.db, x.claim, reply, s.delay);
      var e := w.db.entries[id];
      var (to, reference) := ClassifyActionReceipt(e.operation.action, reply);
      var e' := e;
      if LeaseLive(w.db, x.claim) && e.operation.state.Dispatching? {
        ReceiptStoredOk(e, w.trails[id], x.claim, reply, s.delay, w.db.now);
        e' := HandBack(Advance(WithReference(e, reference), to), if to.Failed? then JobFailed else JobQueued, s.delay, w.db.now);
      }
      LastCommitKeeps(w, s.worker, StoreReceipt(w.db, x.claim, reply, s.delay).0, e');
    }
  }

  lemma RejectionKeepsLive(w: World, s: Step)
    requires Live(w) && s.CommitRejection?
    requires var id := WorkerOf(w, s.worker).claim.operation; id in w.db.entries ==> RowOk(w.db.entries[id])
    ensures Live(KeepRejection(w, s))
  {
    var x := WorkerOf(w, s.worker);
    if x.pc.Rejecting? {
      var id := x.claim.operation;
      WorkerFacts(w, s.worker);
      RejectShape(w.db, x.claim, x.pc.cause);
      var e := w.db.entries[id];
      var e' := e;
      if LeaseLive(w.db, x.claim) && e.operation.state.Queued? {
        RejectionStoredOk(e, w.trails[id], x.claim, w.db.now);
        e' := HandBack(Advance(e, Failed), JobFailed, 0, w.db.now);
      }
      LastCommitKeeps(w, s.worker, RejectUnsent(w.db, x.claim, x.pc.cause).0, e');
    }
  }

  lemma ObservationKeepsLive(w: World, s: Step)
    requires Live(w) && s.CommitObservation?
    requires var id := WorkerOf(w, s.worker).claim.operation; id in w.db.entries ==> RowOk(w.db.entries[id])
    ensures Live(KeepObservation(w, s))
  {
    var x := WorkerOf(w, s.worker);
    if x.pc.Observed? {
      var id, to := x.claim.operation, Conclusion(x.pc.sight, x.pc.referenced);
      WorkerFacts(w, s.worker);
      ObservationShape(w.db, x.claim, x.pc.from, to, s.delay);
      var e := w.db.entries[id];
      var e' := e;
      if LeaseLive(w.db, x.claim) && InFlight(e.operation.state) {
        ObservationStoredOk(e, w.trails[id], x.claim, x.pc.sight, x.pc.referenced, s.delay, w.db.now);
        e' := HandBack(Settle(e, to), if Final(to) then JobSucceeded else JobQueued, s.delay, w.db.now);
      }
      LastCommitKeeps(w, s.worker, StoreObservation(w.db, x.claim, x.pc.from, to, s.delay).0, e');
    }
  }

  // ---- Everybody else ----

  lemma ConfirmApplied(w: World, s: Step)
    requires s.WriteConfirm?
    ensures var w' := ConfirmWrite(w, s);
            && w'.workers == w.workers && w'.issued == w.issued && w'.db.now == w.db.now
            && ((w'.db.entries == w.db.entries && w'.trails == w.trails)
                || (&& s.id !in w.db.entries && s.id in w'.db.entries && NewEntry(w'.db.entries[s.id])
                    && w'.db.entries == w.db.entries[s.id := w'.db.entries[s.id]]
                    && w'.trails == w.trails[s.id := Trail(None, [], false, false, 0)]))
  {
    var c := ClientOf(w, s.client);
    if c.Confirming? {
      ConfirmShape(w.db, s.sv, c.request, c.hash, s.facts, s.recent, s.live, s.fault, s.others, s.id);
    }
  }

  lemma ConfirmWriteKeeps(w: World, s: Step)
    requires Live(w) && s.WriteConfirm?
    ensures Live(ConfirmWrite(w, s))
  {
    ConfirmApplied(w, s);
    var w' := ConfirmWrite(w, s);
    if w'.db.entries == w.db.entries && w'.trails == w.trails {
      QuietKeeps(w, w');
    } else {
      AddedKeeps(w, w', s.id);
    }
  }

  /** An acceptance adds one entry with the whole budget before it, or nothing. */
  lemma ConfirmShape(db: Store, sv: Service, q: Request, hash: Digest, facts: Facts, recent: bool, live: bool, fault: bool, others: nat, id: Id)
    ensures var db' := ConfirmSecond(db, sv, q, hash, facts, recent, live, fault, others, id).0;
            && db'.now == db.now
            && (db' == db || (id !in db.entries && exists e :: NewEntry(e) && db'.entries == db.entries[id := e]))
  {
    var db' := ConfirmSecond(db, sv, q, hash, facts, recent, live, fault, others, id).0;
    if db' != db {
      assert NewEntry(db'.entries[id]);
    }
  }

  ghost predicate NewEntry(e: Entry) {
    && e.operation.state.Queued? && |e.events| == 1
    && e.job.Some? && e.job.value.state.JobQueued? && e.job.value.lease.None? && e.job.value.attempts == 0
  }

  lemma AddedKeeps(w: World, w': World, id: Id)
    requires Live(w) && id !in w.db.entries && id in w'.db.entries && NewEntry(w'.db.entries[id])
    requires w'.db.entries == w.db.entries[id := w'.db.entries[id]] && w'.db.now == w.db.now
    requires w'.workers == w.workers && w'.issued == w.issued
    requires w'.trails == w.trails[id := Trail(None, [], false, false, 0)]
    ensures Live(w')
  {
    forall x | x in w'.db.entries
      ensures OperationOk(w'.db.entries[x], w'.trails[x]) && TokensOk(x, w'.db.entries[x], w'.trails[x], w'.issued)
    {
      if x != id {
        assert OperationOk(w.db.entries[x], w.trails[x]) && TokensOk(x, w.db.entries[x], w.trails[x], w.issued);
      }
    }
    forall y | y in w'.workers ensures WorkerOk(y, w'.workers[y], w') {
      assert WorkerOk(y, w.workers[y], w);
    }
  }

  function Written(w: World, id: Id, e: Entry, t: Trail): World {
    w.(db := Put(w.db, id, e), trails := w.trails[id := t])
  }

  /** A commit on one operation that no worker makes. */
  lemma PutOutside(w: World, id: Id, e: Entry, t: Trail)
    requires Live(w) && id in w.db.entries && id in w.trails
    requires OperationOk(e, t) && t.marker == w.trails[id].marker && t.replies == w.trails[id].replies
    requires t.success == w.trails[id].success && t.failure == w.trails[id].failure
    requires e.job.Some? && e.job.value.lease.Some? ==>
               w.db.entries[id].job.Some? && e.job.value.lease == w.db.entries[id].job.value.lease
    requires forall x: Worker :: PcOk(x, w.trails[id]) && TimingOk(x, w.db.entries[id], w.db.now) ==> TimingOk(x, e, w.db.now)
    ensures Live(Written(w, id, e, t))
  {
    var w' := Written(w, id, e, t);
    TokensStay(w, id, e, t);
    SameRecord(w.trails[id], t);
    assert Touches(w, w', id);
    OutsideStepKeeps(w, w', id);
  }

  lemma TokensStay(w: World, id: Id, e: Entry, t: Trail)
    requires Live(w) && id in w.db.entries && id in w.trails && t.marker == w.trails[id].marker
    requires e.job.Some? && e.job.value.lease.Some? ==>
               w.db.entries[id].job.Some? && e.job.value.lease == w.db.entries[id].job.value.lease
    ensures TokensOk(id, e, t, w.issued)
  {
    assert TokensOk(id, w.db.entries[id], w.trails[id], w.issued);
  }

  lemma SameRecord(t: Trail, t': Trail)
    requires t'.marker == t.marker && t'.replies == t.replies && t'.success == t.success && t'.failure == t.failure
    ensures forall x: Worker :: PcOk(x, t) ==> PcOk(x, t')
  {
  }

  /** The same when the record stays as it is. */
  lemma PutOutsideSame(w: World, id: Id, e: Entry)
    requires Live(w) && id in w.db.entries && id in w.trails && OperationOk(e, w.trails[id])
    requires e.job.Some? && e.job.value.lease.Some? ==>
               w.db.entries[id].job.Some? && e.job.value.lease == w.db.entries[id].job.value.lease
    requires forall x: Worker :: PcOk(x, w.trails[id]) && TimingOk(x, w.db.entries[id], w.db.now) ==> TimingOk(x, e, w.db.now)
    ensures Live(w.(db := Put(w.db, id, e)))
  {
    PutOutside(w, id, e, w.trails[id]);
    assert w.trails[id := w.trails[id]] == w.trails;
  }

  lemma CancelKeepsLive(w: World, actor: M.User, workspace: Id, id: Id)
    requires Live(w) && (id in w.db.entries ==> RowOk(w.db.entries[id]))
    ensures Live(w.(db := Cancel(w.db, actor, workspace, id).0))
  {
    var (db, code) := Cancel(w.db, actor, workspace, id);
    if code.Done? {
      CancelledOk(w.db.entries[id], w.trails[id], w.db.now);
      PutOutsideSame(w, id, db.entries[id]);
    }
  }

  lemma RecheckShape(db: Store, actor: M.User, workspace: Id, id: Id)
    ensures var db' := Recheck(db, actor, workspace, id).0;
            || db' == db
            || (id in db.entries && db.entries[id].operation.state.Unknown?
                && db' == Put(db, id, WithJob(Advance(db.entries[id], Reconciling), Job(JobQueued, db.now, None, 0, db.now + RECHECK_SECONDS, None))))
  {
  }

  /** The entry and record of an operation that was reopened. */
  function Reopened(e: Entry, now: int): Entry {
    WithJob(Advance(e, Reconciling), Job(JobQueued, now, None, 0, now + RECHECK_SECONDS, None))
  }

  lemma RecheckApplied(w: World, s: Step)
    requires s.UserRecheck?
    ensures var w' := RecheckOperation(w, s);
            || w' == w
            || (s.id in w.db.entries && w.db.entries[s.id].operation.state.Unknown?
                && w' == w.(db := Put(w.db, s.id, Reopened(w.db.entries[s.id], w.db.now)),
                            trails := w.trails[s.id := TrailOf(w, s.id).(rechecks := TrailOf(w, s.id).rechecks + 1)]))
  {
    RecheckShape(w.db, s.actor, s.workspace, s.id);
  }

  lemma RecheckKeepsLive(w: World, s: Step)
    requires Live(w) && s.UserRecheck? && (s.id in w.db.entries ==> RowOk(w.db.entries[s.id]))
    ensures Live(RecheckOperation(w, s))
  {
    RecheckApplied(w, s);
    if s.id in w.db.entries && w.db.entries[s.id].operation.state.Unknown? {
      RecheckedOk(w.db.entries[s.id], w.trails[s.id], w.db.now);
      ReopenedKeepsLive(w, s.id, Reopened(w.db.entries[s.id], w.db.now));
    }
  }

  lemma ReopenedKeepsLive(w: World, id: Id, e: Entry)
    requires Live(w) && id in w.db.entries && id in w.trails && e.job.Some? && e.job.value.lease.None?
    requires OperationOk(e, w.trails[id].(rechecks := w.trails[id].rechecks + 1))
    requires forall x: Worker :: PcOk(x, w.trails[id]) && TimingOk(x, w.db.entries[id], w.db.now) ==> TimingOk(x, e, w.db.now)
    ensures Live(w.(db := Put(w.db, id, e), trails := w.trails[id := w.trails[id].(rechecks := w.trails[id].rechecks + 1)]))
  {
    PutOutside(w, id, e, w.trails[id].(rechecks := w.trails[id].rechecks + 1));
  }

  lemma ReleaseKeepsLive(w: World, actor: M.User, workspace: Id, id: Id, ack: bool, typed: string, recent: bool)
    requires Live(w) && (id in w.db.entries ==> RowOk(w.db.entries[id]))
    ensures Live(w.(db := ReleaseUnknown(w.db, actor, workspace, id, ack, typed, recent).0))
  {
    var (db, code) := ReleaseUnknown(w.db, actor, workspace, id, ack, typed, recent);
    if code.Done? {
      ReleasedOk(w.db.entries[id], w.trails[id], w.db.now);
      PutOutsideSame(w, id, db.entries[id]);
    }
  }

  lemma ExpiryKeepsLive(w: World, id: Id)
    requires Live(w) && (id in w.db.entries ==> RowOk(w.db.entries[id]))
    ensures Live(w.(db := ExpireOne(w.db, id)))
  {
    if id in w.db.entries && Exhausted(w.db.entries[id], w.db.now) {
      ExpiredOk(w.db.entries[id], w.trails[id], w.db.now);
      PutOutsideSame(w, id, ExpireEntry(w.db.entries[id], w.db.now));
    }
  }

  lemma DropJobKeepsLive(w: World, id: Id)
    requires Live(w) && (id in w.db.entries ==> RowOk(w.db.entries[id]))
    ensures Live(w.(db := PruneJob(w.db, id)))
  {
    if id in w.db.entries && PrunableJob(w.db.entries[id], w.db.now) {
      PrunedOk(w.db.entries[id], w.trails[id], w.db.now);
      PutOutsideSame(w, id, w.db.entries[id].(job := None));
    }
  }

  lemma DisableShape(db: Store, actor: M.User, workspace: Id, connection: Id)
    ensures var db' := Disable(db, actor, workspace, connection).0;
            && db'.now == db.now && db'.entries.Keys == db.entries.Keys
            && forall id :: id in db.entries ==>
                 db'.entries[id] == db.entries[id] || db'.entries[id] == DisableEntry(db.entries[id], connection, db.now)
  {
  }

  lemma DisableKeepsLive(w: World, actor: M.User, workspace: Id, connection: Id)
    requires Live(w) && (forall id :: id in w.db.entries ==> RowOk(w.db.entries[id]))
    ensures Live(w.(db := Disable(w.db, actor, workspace, connection).0))
  {
    var w' := w.(db := Disable(w.db, actor, workspace, connection).0);
    DisableShape(w.db, actor, workspace, connection);
    forall id | id in w'.db.entries
      ensures OperationOk(w'.db.entries[id], w'.trails[id]) && TokensOk(id, w'.db.entries[id], w'.trails[id], w'.issued)
      ensures forall x: Worker :: TimingOk(x, w.db.entries[id], w.db.now) ==> TimingOk(x, w'.db.entries[id], w'.db.now)
    {
      DisabledOk(w.db.entries[id], w.trails[id], connection, w.db.now);
    }
    forall y | y in w'.workers ensures WorkerOk(y, w'.workers[y], w') {
      assert WorkerOk(y, w.workers[y], w);
    }
  }

  // ---- Any step ----

  ghost predicate OwnStep(s: Step) {
    s.Take? || s.Extend? || s.Load? || s.Look? || s.CommitMarker? || s.Submit? || s.CommitReceipt? || s.CommitRejection?
    || s.Observe? || s.CommitObservation? || s.Crash?
  }

  /** A worker's step outside any transaction. */
  ghost predicate LocalStep(s: Step) {
    s.Load? || s.Look? || s.Submit? || s.Observe? || s.Crash?
  }

  lemma LocalStepSame(w: World, s: Step)
    requires LocalStep(s)
    ensures Apply(w, s).db == w.db
  {
  }

  lemma CrashKeeps(w: World, worker: Id)
    requires Live(w)
    ensures Live(AtPc(w, worker, Idle))
  {
    QuietKeeps(w, AtPc(w, worker, Idle));
  }

  lemma LocalStepLive(w: World, s: Step)
    requires Live(w) && LocalStep(s)
    ensures Live(Apply(w, s))
  {
    match s
    case Load(_) => LoadKeeps(w, s);
    case Look(_, _, _, _, _) => LookKeeps(w, s);
    case Submit(_, _) => SubmitKeeps(w, s);
    case Observe(_, _) => ObserveKeeps(w, s);
    case Crash(worker) => CrashKeeps(w, worker);
  }

  lemma CommitStepLive(w: World, s: Step)
    requires Inv(w) && (s.CommitReceipt? || s.CommitRejection? || s.CommitObservation?)
    ensures Live(Apply(w, s))
  {
    match s
    case CommitReceipt(_, _) => ReceiptKeepsLive(w, s);
    case CommitRejection(_) => RejectionKeepsLive(w, s);
    case CommitObservation(_, _) => ObservationKeepsLive(w, s);
  }

  lemma WorkerStepLive(w: World, s: Step)
    requires Inv(w) && OwnStep(s)
    ensures Live(Apply(w, s))
  {
    if LocalStep(s) {
      LocalStepLive(w, s);
    } else if s.Take? {
      TakeKeeps(w, s);
    } else if s.Extend? {
      ExtendKeeps(w, s);
    } else if s.CommitMarker? {
      MarkKeepsLive(w, s);
    } else {
      CommitStepLive(w, s);
    }
  }

  /** The steps that write no entry. */
  ghost predicate QuietStep(s: Step) {
    s.Tick? || s.ReadForReview? || s.WriteReview? || s.ReadForConfirm? || s.GiveUp? || s.SetGate? || s.DropReviews?
    || s.RotateCredential? || s.AuthorityChange?
  }

  lemma StoreReviewShape(db: Store, sv: Service, actor: M.User, workspace: Id, resource: Id, action: Action,
                         seen: View, facts: Facts, recent: bool, live: bool, fault: bool, review: Id)
    ensures var db' := StoreReview(db, sv, actor, workspace, resource, action, seen, facts, recent, live, fault, review).0;
            db' == db.(reviews := db'.reviews)
  {
  }

  lemma RotateShape(db: Store, actor: M.User, workspace: Id, connection: Id, seen: int, verified: set<Action>)
    ensures var db' := Rotate(db, actor, workspace, connection, seen, verified).0; db' == db.(connections := db'.connections)
  {
  }

  /** Neither operations nor reviews differ. */
  ghost predicate StillStep(s: Step) {
    s.Tick? || s.ReadForReview? || s.ReadForConfirm? || s.GiveUp? || s.SetGate? || s.AuthorityChange? || s.RotateCredential?
  }

  lemma StillStepSame(w: World, s: Step)
    requires StillStep(s)
    ensures Apply(w, s).db.entries == w.db.entries && Apply(w, s).db.reviews == w.db.reviews
  {
    if s.RotateCredential? {
      RotateShape(w.db, s.actor, s.workspace, s.connection, s.seen, s.verified);
    }
  }

  lemma QuietStepSame(w: World, s: Step)
    requires QuietStep(s)
    ensures Apply(w, s).db.entries == w.db.entries
  {
    if s.WriteReview? {
      var c := ClientOf(w, s.client);
      if c.Reviewing? {
        StoreReviewShape(w.db, s.sv, c.actor, c.workspace, c.resource, c.action, c.seen, s.facts, s.recent, s.live, s.fault, s.review);
      }
    } else if !s.DropReviews? {
      StillStepSame(w, s);
    }
  }

  lemma QuietStepRest(w: World, s: Step)
    requires QuietStep(s)
    ensures var w' := Apply(w, s); w'.trails == w.trails && w'.issued == w.issued && w'.workers == w.workers && w.db.now <= w'.db.now
  {
    if s.WriteReview? {
      var c := ClientOf(w, s.client);
      if c.Reviewing? {
        StoreReviewShape(w.db, s.sv, c.actor, c.workspace, c.resource, c.action, c.seen, s.facts, s.recent, s.live, s.fault, s.review);
      }
    } else if s.RotateCredential? {
      RotateShape(w.db, s.actor, s.workspace, s.connection, s.seen, s.verified);
    }
  }

  lemma QuietStepLive(w: World, s: Step)
    requires Live(w) && QuietStep(s)
    ensures Live(Apply(w, s))
  {
    QuietStepSame(w, s);
    QuietStepRest(w, s);
    QuietKeeps(w, Apply(w, s));
  }

  lemma OtherStepLive(w: World, s: Step)
    requires Live(w) && (forall id :: id in w.db.entries ==> RowOk(w.db.entries[id])) && !OwnStep(s) && !QuietStep(s)
    ensures Live(Apply(w, s))
  {
    match s
    case WriteConfirm(_, _, _, _, _, _, _, _) => ConfirmWriteKeeps(w, s);
    case UserCancel(actor, workspace, id) => CancelKeepsLive(w, actor, workspace, id);
    case UserRecheck(_, _, _) => RecheckKeepsLive(w, s);
    case OwnerRelease(actor, workspace, id, ack, typed, recent) => ReleaseKeepsLive(w, actor, workspace, id, ack, typed, recent);
    case Expiry(id) => ExpiryKeepsLive(w, id);
    case DropJob(id) => DropJobKeepsLive(w, id);
    case DisableConnection(actor, workspace, connection) => DisableKeepsLive(w, actor, workspace, connection);
  }

  lemma LeaseStepConsistent(w: World, s: Step)
    requires Consistent(w.db) && (s.Take? || s.Extend?)
    ensures Consistent(Apply(w, s).db)
  {
    if s.Take? {
      ClaimKeeps(w.db, Claimed(s.operation, s.worker, s.token), s.at);
    } else {
      RenewKeeps(w.db, WorkerOf(w, s.worker).claim, s.at);
    }
  }

  lemma CommitStepConsistent(w: World, s: Step)
    requires Consistent(w.db) && (s.CommitMarker? || s.CommitReceipt? || s.CommitRejection? || s.CommitObservation?)
    ensures Consistent(Apply(w, s).db)
  {
    var x := WorkerOf(w, s.worker);
    match s
    case CommitMarker(_, sv, live, fault) =>
      if x.pc.Inspected? { MarkKeeps(w.db, sv, x.claim, x.pc.fingerprint, live, fault); }
    case CommitReceipt(_, delay) =>
      if x.pc.Sent? { StoreReceiptKeeps(w.db, x.claim, x.pc.reply, delay); }
    case CommitRejection(_) =>
      if x.pc.Rejecting? { RejectUnsentKeeps(w.db, x.claim, x.pc.cause); }
    case CommitObservation(_, delay) =>
      if x.pc.Observed? { StoreObservationKeeps(w.db, x.claim, x.pc.from, x.pc.sight, x.pc.referenced, delay); }
  }

  lemma OwnStepConsistent(w: World, s: Step)
    requires Consistent(w.db) && OwnStep(s)
    ensures Consistent(Apply(w, s).db)
  {
    if LocalStep(s) {
      LocalStepSame(w, s);
    } else if s.Take? || s.Extend? {
      LeaseStepConsistent(w, s);
    } else {
      CommitStepConsistent(w, s);
    }
  }

  lemma ReviewStepConsistent(w: World, s: Step)
    requires Consistent(w.db) && s.WriteReview?
    ensures Consistent(Apply(w, s).db)
  {
    var c := ClientOf(w, s.client);
    if c.Reviewing? {
      StoreReviewKeeps(w.db, s.sv, c.actor, c.workspace, c.resource, c.action, c.seen, s.facts, s.recent, s.live, s.fault, s.review);
    }
  }

  lemma QuietStepConsistent(w: World, s: Step)
    requires Consistent(w.db) && QuietStep(s)
    ensures Consistent(Apply(w, s).db)
  {
    if s.WriteReview? {
      ReviewStepConsistent(w, s);
    } else if s.DropReviews? {
      PruneReviewsKeeps(w.db, s.chosen);
    } else {
      StillStepSame(w, s);
      ApartKeeps(w.db, Apply(w, s).db);
    }
  }

  lemma OtherStepConsistent(w: World, s: Step)
    requires Consistent(w.db) && !OwnStep(s) && !QuietStep(s)
    ensures Consistent(Apply(w, s).db)
  {
    match s
    case WriteConfirm(client, sv, facts, recent, live, fault, others, id) =>
      var c := ClientOf(w, client);
      if c.Confirming? {
        ConfirmSecondKeeps(w.db, sv, c.request, c.hash, facts, recent, live, fault, others, id);
      }
    case UserCancel(actor, workspace, id) => CancelKeeps(w.db, actor, workspace, id);
    case UserRecheck(actor, workspace, id) => RecheckKeeps(w.db, actor, workspace, id);
    case OwnerRelease(actor, workspace, id, ack, typed, recent) => ReleaseUnknownKeeps(w.db, actor, workspace, id, ack, typed, recent);
    case Expiry(id) => ExpireOneKeeps(w.db, id);
    case DropJob(id) => PruneJobKeeps(w.db, id);
    case DisableConnection(actor, workspace, connection) => DisableKeeps(w.db, actor, workspace, connection);
  }

  /** Every step of every actor keeps the invariant. */
  lemma StepKeeps(w: World, s: Step)
    requires Inv(w)
    ensures Inv(Apply(w, s))
  {
    if OwnStep(s) {
      OwnStepConsistent(w, s);
      WorkerStepLive(w, s);
    } else if QuietStep(s) {
      QuietStepConsistent(w, s);
      QuietStepLive(w, s);
    } else {
      OtherStepConsistent(w, s);
      OtherStepLive(w, s);
    }
  }

  /** So does every run of any length. */
  lemma {:induction false} RunKeeps(w: World, steps: seq<Step>)
    requires Inv(w)
    ensures Inv(Run(w, steps))
    decreases |steps|
  {
    if steps != [] {
      StepKeeps(w, steps[0]);
      RunKeeps(Apply(w, steps[0]), steps[1..]);
    }
  }

  lemma Reachable(w: World, steps: seq<Step>)
    requires Initial(w)
    ensures Inv(Run(w, steps))
  {
    RunKeeps(w, steps);
  }
}
