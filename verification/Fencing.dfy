/** Job leases: a superseded token never commits again, and a live holder is alone until its local deadline. */
module Fencing {
  import opened Options
  import opened Lifecycle
  import opened Receipts
  import opened Tables
  import opened Transactions
  import opened Protocol
  import opened ProtocolInvariant
  import opened ProtocolSteps
  import opened ProtocolHistory

  /** A job's token after a step is the one before it, unless the job was just claimed under a fresh one. */
  ghost predicate TokenFrom(w: World, s: Step, e: Entry, e': Entry) {
    e'.job.Some? && e'.job.value.lease.Some? ==>
      || (e.job.Some? && e.job.value.lease.Some? && e'.job.value.lease.value.token == e.job.value.lease.value.token)
      || (s.Take? && s.token !in w.issued && e'.job.value.lease.value.token == s.token)
  }

  lemma LeaseStepTokens(w: World, s: Step, id: Id)
    requires (s.Take? || s.Extend?) && id in w.db.entries
    ensures id in Apply(w, s).db.entries && TokenFrom(w, s, w.db.entries[id], Apply(w, s).db.entries[id])
  {
    var l := if s.Take? then Claimed(s.operation, s.worker, s.token) else WorkerOf(w, s.worker).claim;
    if s.Take? {
      if Claim(w.db, l, s.at).1.Done? { ClaimShape(w.db, l, s.at); }
    } else {
      if Renew(w.db, l, s.at).1.Done? { RenewShape(w.db, l, s.at); }
    }
  }

  lemma CommitStepTokens(w: World, s: Step, id: Id)
    requires (s.CommitReceipt? || s.CommitRejection? || s.CommitObservation?) && id in w.db.entries
    ensures id in Apply(w, s).db.entries && TokenFrom(w, s, w.db.entries[id], Apply(w, s).db.entries[id])
  {
    match s
    case CommitReceipt(_, _) => ReceiptTokens(w, s, id);
    case CommitRejection(_) => RejectionTokens(w, s, id);
    case CommitObservation(_, _) => ObservationTokens(w, s, id);
  }

  lemma ReceiptTokens(w: World, s: Step, id: Id)
    requires s.CommitReceipt? && id in w.db.entries
    ensures id in Apply(w, s).db.entries && TokenFrom(w, s, w.db.entries[id], Apply(w, s).db.entries[id])
  {
    var x := WorkerOf(w, s.worker);
    if x.pc.Sent? {
      ReceiptShape(w.db, x.claim, x.pc.reply, s.delay);
    }
  }

  lemma RejectionTokens(w: World, s: Step, id: Id)
    requires s.CommitRejection? && id in w.db.entries
    ensures id in Apply(w, s).db.entries && TokenFrom(w, s, w.db.entries[id], Apply(w, s).db.entries[id])
  {
    var x := WorkerOf(w, s.worker);
    if x.pc.Rejecting? {
      RejectShape(w.db, x.claim, x.pc.cause);
    }
  }

  lemma ObservationTokens(w: World, s: Step, id: Id)
    requires s.CommitObservation? && id in w.db.entries
    ensures id in Apply(w, s).db.entries && TokenFrom(w, s, w.db.entries[id], Apply(w, s).db.entries[id])
  {
    var x := WorkerOf(w, s.worker);
    if x.pc.Observed? {
      ObservationShape(w.db, x.claim, x.pc.from, Conclusion(x.pc.sight, x.pc.referenced), s.delay);
    }
  }

  lemma OwnStepTokens(w: World, s: Step, id: Id)
    requires OwnStep(s) && id in w.db.entries
    ensures id in Apply(w, s).db.entries && TokenFrom(w, s, w.db.entries[id], Apply(w, s).db.entries[id])
  {
    if LocalStep(s) {
      LocalStepSame(w, s);
    } else if s.Take? || s.Extend? {
      LeaseStepTokens(w, s, id);
    } else if s.CommitMarker? {
      MarkerStep(w, s, id);
    } else {
      CommitStepTokens(w, s, id);
    }
  }

  lemma CancelTokens(w: World, s: Step, id: Id)
    requires s.UserCancel? && id in w.db.entries
    ensures id in Apply(w, s).db.entries && TokenFrom(w, s, w.db.entries[id], Apply(w, s).db.entries[id])
  {
    CancelShape(w.db, s.actor, s.workspace, s.id);
  }

  lemma RecheckTokens(w: World, s: Step, id: Id)
    requires s.UserRecheck? && id in w.db.entries
    ensures id in Apply(w, s).db.entries && TokenFrom(w, s, w.db.entries[id], Apply(w, s).db.entries[id])
  {
    RecheckShape(w.db, s.actor, s.workspace, s.id);
  }

  lemma ReleaseTokens(w: World, s: Step, id: Id)
    requires s.OwnerRelease? && id in w.db.entries
    ensures id in Apply(w, s).db.entries && TokenFrom(w, s, w.db.entries[id], Apply(w, s).db.entries[id])
  {
    ReleaseShape(w.db, s.actor, s.workspace, s.id, s.acknowledged, s.typed, s.recent);
  }

  lemma DisableTokens(w: World, s: Step, id: Id)
    requires s.DisableConnection? && id in w.db.entries
    ensures id in Apply(w, s).db.entries && TokenFrom(w, s, w.db.entries[id], Apply(w, s).db.entries[id])
  {
    DisableStep(w, s, id);
  }

  lemma UpkeepTokens(w: World, s: Step, id: Id)
    requires (s.Expiry? || s.DropJob?) && id in w.db.entries
    ensures id in Apply(w, s).db.entries && TokenFrom(w, s, w.db.entries[id], Apply(w, s).db.entries[id])
  {
  }

  lemma QuietTokens(w: World, s: Step, id: Id)
    requires QuietStep(s) && id in w.db.entries
    ensures id in Apply(w, s).db.entries && TokenFrom(w, s, w.db.entries[id], Apply(w, s).db.entries[id])
  {
    QuietStepSame(w, s);
  }

  lemma OtherStepTokens(w: World, s: Step, id: Id)
    requires !OwnStep(s) && id in w.db.entries
    ensures id in Apply(w, s).db.entries && TokenFrom(w, s, w.db.entries[id], Apply(w, s).db.entries[id])
  {
    match s
    case WriteConfirm(_, _, _, _, _, _, _, _) => ConfirmSame(w, s, id);
    case UserCancel(_, _, _) => CancelTokens(w, s, id);
    case UserRecheck(_, _, _) => RecheckTokens(w, s, id);
    case OwnerRelease(_, _, _, _, _, _) => ReleaseTokens(w, s, id);
    case DisableConnection(_, _, _) => DisableTokens(w, s, id);
    case Expiry(_) => UpkeepTokens(w, s, id);
    case DropJob(_) => UpkeepTokens(w, s, id);
    case _ => QuietTokens(w, s, id);
  }

  lemma ConfirmSame(w: World, s: Step, id: Id)
    requires s.WriteConfirm? && id in w.db.entries
    ensures id in Apply(w, s).db.entries && Apply(w, s).db.entries[id] == w.db.entries[id]
  {
    var c := ClientOf(w, s.client);
    if c.Confirming? {
      ConfirmShape(w.db, s.sv, c.request, c.hash, s.facts, s.recent, s.live, s.fault, s.others, s.id);
    }
  }

  lemma StepTokens(w: World, s: Step, id: Id)
    requires id in w.db.entries
    ensures id in Apply(w, s).db.entries && TokenFrom(w, s, w.db.entries[id], Apply(w, s).db.entries[id])
  {
    if OwnStep(s) {
      OwnStepTokens(w, s, id);
    } else {
      OtherStepTokens(w, s, id);
    }
  }

  lemma IssuedStays(w: World, s: Step)
    ensures forall t :: t in w.issued ==> t in Apply(w, s).issued
  {
    if !OwnStep(s) && s.UserRecheck? {
      RecheckApplied(w, s);
    }
  }

  /** Once a claim has lost its lease it never gets it back. */
  lemma {:induction false} SupersededForever(w: World, steps: seq<Step>, l: Claimed)
    requires l.operation in w.db.entries && l.token in w.issued && !HasLease(w.db.entries[l.operation], l)
    ensures l.operation in Run(w, steps).db.entries && !HasLease(Run(w, steps).db.entries[l.operation], l)
    decreases |steps|
  {
    if steps != [] {
      StepTokens(w, steps[0], l.operation);
      IssuedStays(w, steps[0]);
      SupersededForever(Apply(w, steps[0]), steps[1..], l);
    }
  }

  /** So none of the fenced transactions ever commits under it again, at any later time. */
  lemma SupersededCommitsNothing(w: World, steps: seq<Step>, l: Claimed, sv: Service, at: int, fingerprint: nat, live: bool, fault: bool,
                                 cause: Code, reply: Reply, from: OpState, to: OpState, delay: nat)
    requires l.operation in w.db.entries && l.token in w.issued && !HasLease(w.db.entries[l.operation], l)
    ensures var db := Run(w, steps).db;
            && Renew(db, l, at) == (db, ErrLease)
            && Mark(db, sv, l, fingerprint, live, fault) == (db, ErrLease)
            && RejectUnsent(db, l, cause).0 == db
            && StoreReceipt(db, l, reply, delay) == (db, ErrLease)
            && StoreObservation(db, l, from, to, delay) == (db, ErrLease)
  {
    SupersededForever(w, steps, l);
  }

  /** Steps that end the holder's hold on purpose: its own commits, or a user cancelling a queued operation. */
  ghost predicate LetsGo(s: Step, me: Id) {
    s.UserCancel? || ((s.CommitReceipt? || s.CommitRejection? || s.CommitObservation?) && s.worker == me)
  }

  /**
   While a holder is inside its local deadline nobody else can claim the job, nobody can expire it,
   and no step but its own last commit or a user's cancellation takes the lease away.
   */
  lemma HolderIsAlone(w: World, s: Step, me: Id, l: Claimed, at: int)
    requires Inv(w) && me in w.workers && !w.workers[me].pc.Idle? && w.db.now < w.workers[me].until
    requires w.workers[me].claim.operation in w.db.entries && HasLease(w.db.entries[w.workers[me].claim.operation], w.workers[me].claim)
    requires l.operation == w.workers[me].claim.operation && at <= w.db.now
    ensures Claim(w.db, l, at) == (w.db, ErrLease) && !Exhausted(w.db.entries[l.operation], w.db.now)
    ensures l.operation in Apply(w, s).db.entries
    ensures !LetsGo(s, me) ==> HasLease(Apply(w, s).db.entries[l.operation], w.workers[me].claim)
  {
    HolderLeaseLives(w, me);
    LiveLeaseBars(w.db, l, at);
    HolderStep(w, s, me);
  }

  /** A lease that has not run out keeps everybody else from the job. */
  lemma LiveLeaseBars(db: Store, l: Claimed, at: int)
    requires l.operation in db.entries && at <= db.now
    requires var e := db.entries[l.operation]; EntryOk(e) && e.job.Some? && e.job.value.lease.Some? && db.now < e.job.value.lease.value.expires
    ensures Claim(db, l, at) == (db, ErrLease) && !Exhausted(db.entries[l.operation], db.now)
  {
  }

  /** The local deadline lies within the stored lease. */
  lemma HolderLeaseLives(w: World, me: Id)
    requires Inv(w) && me in w.workers && !w.workers[me].pc.Idle? && w.db.now < w.workers[me].until
    requires w.workers[me].claim.operation in w.db.entries && HasLease(w.db.entries[w.workers[me].claim.operation], w.workers[me].claim)
    ensures var e := w.db.entries[w.workers[me].claim.operation];
            EntryOk(e) && w.db.now < e.job.value.lease.value.expires
  {
    var id := w.workers[me].claim.operation;
    assert WorkerOk(me, w.workers[me], w);
    assert EntryOk(w.db.entries[id]) && TokensOk(id, w.db.entries[id], w.trails[id], w.issued);
  }

  lemma HolderStep(w: World, s: Step, me: Id)
    requires Live(w) && me in w.workers && !w.workers[me].pc.Idle?
    requires var id := w.workers[me].claim.operation;
             && id in w.db.entries && EntryOk(w.db.entries[id])
             && HasLease(w.db.entries[id], w.workers[me].claim) && w.db.now < w.db.entries[id].job.value.lease.value.expires
    ensures var id := w.workers[me].claim.operation;
            id in Apply(w, s).db.entries && (!LetsGo(s, me) ==> HasLease(Apply(w, s).db.entries[id], w.workers[me].claim))
  {
    var id := w.workers[me].claim.operation;
    StepTokens(w, s, id);
    if LetsGo(s, me) {
    } else if s.Take? || s.Extend? {
      HolderLeaseStep(w, s, me);
    } else if OwnStep(s) {
      HolderOwnStep(w, s, me);
    } else {
      HolderOtherStep(w, s, id);
    }
  }

  ghost predicate Holder(w: World, me: Id) {
    && Live(w) && me in w.workers && !w.workers[me].pc.Idle?
    && var id := w.workers[me].claim.operation;
    && id in w.db.entries && EntryOk(w.db.entries[id])
    && HasLease(w.db.entries[id], w.workers[me].claim) && w.db.now < w.db.entries[id].job.value.lease.value.expires
  }

  ghost predicate StillHolds(w: World, w': World, me: Id)
    requires me in w.workers
  {
    w.workers[me].claim.operation in w'.db.entries && HasLease(w'.db.entries[w.workers[me].claim.operation], w.workers[me].claim)
  }

  lemma HolderTakeStep(w: World, s: Step, me: Id)
    requires Holder(w, me) && s.Take?
    ensures StillHolds(w, Apply(w, s), me)
  {
    var l := Claimed(s.operation, s.worker, s.token);
    if s.operation == w.workers[me].claim.operation && s.at <= w.db.now {
      LiveLeaseBars(w.db, l, s.at);
    } else if Claim(w.db, l, s.at).1.Done? {
      ClaimShape(w.db, l, s.at);
    }
  }

  lemma RenewHolds(db: Store, l: Claimed, at: int, id: Id, mine: Claimed)
    requires id in db.entries && HasLease(db.entries[id], mine)
    ensures id in Renew(db, l, at).0.entries && HasLease(Renew(db, l, at).0.entries[id], mine)
  {
  }

  lemma HolderLeaseStep(w: World, s: Step, me: Id)
    requires Holder(w, me) && (s.Take? || s.Extend?)
    ensures StillHolds(w, Apply(w, s), me)
  {
    if s.Take? {
      HolderTakeStep(w, s, me);
    } else {
      RenewHolds(w.db, WorkerOf(w, s.worker).claim, s.at, w.workers[me].claim.operation, w.workers[me].claim);
    }
  }

  /** A fenced commit of another worker needs that worker's own token. */
  lemma OthersFenced(w: World, me: Id, other: Id)
    requires Holder(w, me) && other in w.workers && !w.workers[other].pc.Idle? && other != me
    requires w.workers[other].claim.operation == w.workers[me].claim.operation
    ensures !LeaseLive(w.db, w.workers[other].claim)
  {
    TokensDiffer(w, me, other);
  }

  lemma HolderOwnStep(w: World, s: Step, me: Id)
    requires Holder(w, me) && OwnStep(s) && !s.Take? && !s.Extend? && !LetsGo(s, me)
    ensures StillHolds(w, Apply(w, s), me)
  {
    if LocalStep(s) {
      LocalStepSame(w, s);
    } else if s.CommitMarker? {
      MarkerStep(w, s, w.workers[me].claim.operation);
    } else {
      HolderCommitStep(w, s, me);
    }
  }

  /** Whatever a fenced commit of another worker writes, it is not on the holder's operation. */
  ghost predicate FencedWrite(db: Store, db': Store, l: Claimed) {
    db' == db || (LeaseLive(db, l) && forall x :: x in db.entries && x != l.operation ==> x in db'.entries && db'.entries[x] == db.entries[x])
  }

  lemma CommitIsFenced(w: World, s: Step)
    requires s.CommitReceipt? || s.CommitRejection? || s.CommitObservation?
    ensures Apply(w, s).db == w.db
            || (!WorkerOf(w, s.worker).pc.Idle? && FencedWrite(w.db, Apply(w, s).db, WorkerOf(w, s.worker).claim))
  {
    var x := WorkerOf(w, s.worker);
    match s
    case CommitReceipt(_, delay) =>
      if x.pc.Sent? { ReceiptShape(w.db, x.claim, x.pc.reply, delay); }
    case CommitRejection(_) =>
      if x.pc.Rejecting? { RejectShape(w.db, x.claim, x.pc.cause); }
    case CommitObservation(_, delay) =>
      if x.pc.Observed? { ObservationShape(w.db, x.claim, x.pc.from, Conclusion(x.pc.sight, x.pc.referenced), delay); }
  }

  lemma HolderCommitStep(w: World, s: Step, me: Id)
    requires Holder(w, me) && (s.CommitReceipt? || s.CommitRejection? || s.CommitObservation?) && s.worker != me
    ensures StillHolds(w, Apply(w, s), me)
  {
    CommitIsFenced(w, s);
    var x := WorkerOf(w, s.worker);
    if !x.pc.Idle? && x.claim.operation == w.workers[me].claim.operation {
      OthersFenced(w, me, s.worker);
    }
  }

  /** The operation's lease has not run out. */
  ghost predicate LeasedEntry(db: Store, id: Id) {
    && id in db.entries && EntryOk(db.entries[id]) && db.entries[id].job.Some? && db.entries[id].job.value.lease.Some?
    && db.now < db.entries[id].job.value.lease.value.expires
  }

  ghost predicate Untouched(db: Store, db': Store, id: Id) {
    id in db.entries && id in db'.entries && db'.entries[id] == db.entries[id]
  }

  lemma RecheckLeaves(w: World, s: Step, id: Id)
    requires s.UserRecheck? && LeasedEntry(w.db, id)
    ensures Untouched(w.db, Apply(w, s).db, id)
  {
    RecheckShape(w.db, s.actor, s.workspace, s.id);
  }

  lemma ReleaseLeaves(w: World, s: Step, id: Id)
    requires s.OwnerRelease? && LeasedEntry(w.db, id)
    ensures Untouched(w.db, Apply(w, s).db, id)
  {
    ReleaseShape(w.db, s.actor, s.workspace, s.id, s.acknowledged, s.typed, s.recent);
  }

  lemma DisableLeaves(w: World, s: Step, id: Id)
    requires s.DisableConnection? && LeasedEntry(w.db, id)
    ensures Untouched(w.db, Apply(w, s).db, id)
  {
    DisableStep(w, s, id);
  }

  lemma UpkeepLeaves(w: World, s: Step, id: Id)
    requires (s.Expiry? || s.DropJob?) && LeasedEntry(w.db, id)
    ensures Untouched(w.db, Apply(w, s).db, id)
  {
  }

  lemma HolderOtherStep(w: World, s: Step, id: Id)
    requires !OwnStep(s) && !s.UserCancel? && LeasedEntry(w.db, id)
    ensures Untouched(w.db, Apply(w, s).db, id)
  {
    match s
    case WriteConfirm(_, _, _, _, _, _, _, _) => ConfirmSame(w, s, id);
    case UserRecheck(_, _, _) => RecheckLeaves(w, s, id);
    case OwnerRelease(_, _, _, _, _, _) => ReleaseLeaves(w, s, id);
    case DisableConnection(_, _, _) => DisableLeaves(w, s, id);
    case Expiry(_) => UpkeepLeaves(w, s, id);
    case DropJob(_) => UpkeepLeaves(w, s, id);
    case _ => QuietStepSame(w, s);
  }

  /** A renewal gives its worker as long as the lease was granted for, counted from before the renewal was asked for. */
  lemma LocalDeadlineAnchored(w: World, s: Step)
    requires s.Extend? && Apply(w, s) != w
    ensures var x := WorkerOf(Apply(w, s), s.worker); var e := Apply(w, s).db.entries;
      && x.claim.operation in e && e[x.claim.operation].job.Some? && e[x.claim.operation].job.value.lease.Some?
      && x.until - s.started == e[x.claim.operation].job.value.lease.value.expires - s.at <= 60
      && x.until <= e[x.claim.operation].job.value.lease.value.expires
  {
    RenewShape(w.db, WorkerOf(w, s.worker).claim, s.at);
  }
}
