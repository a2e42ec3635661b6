/** What one step, and then a whole run, can do to one operation. */
module ProtocolHistory {
  import opened Options
  import opened Lifecycle
  import opened Receipts
  import opened Tables
  import opened Transactions
  import opened Consistency
  import opened Protocol
  import opened ProtocolInvariant
  import opened ProtocolSteps
  import M = Membership

  /** Work remains and nobody is left to do it. */
  predicate Covered(e: Entry) {
    Unsettled(e.operation.state) ==> HasActiveJob(e)
  }

  /** The only ways a row set changes: its job works, it is still queued, it is reserved and unknown, or its old job is dropped. */
  ghost predicate Moves(e: Entry, e': Entry) {
    || e' == e
    || (Terminal(e.operation.state) && e' == e.(job := None))
    || (&& (HasActiveJob(e) || e.operation.state.Queued? || (e.operation.state.Unknown? && e.locked))
        && SameIdentity(e.operation, e'.operation) && e.events <= e'.events && (e.resolved ==> e'.resolved))
  }

  /** A move that is no stranding, and whose dispatching marker and token are accounted for elsewhere. */
  ghost predicate Sound(e: Entry, e': Entry) {
    && Moves(e, e')
    && (Covered(e) ==> Covered(e'))
    && e'.resolved == e.resolved
    && (e'.operation.state.Dispatching? ==> e.operation.state.Dispatching?)
  }

  lemma AdvanceMoves(e: Entry, to: OpState)
    ensures e.events <= Advance(e, to).events && SameIdentity(e.operation, Advance(e, to).operation)
  {
  }

  lemma SettleMoves(e: Entry, to: OpState)
    ensures e.events <= Settle(e, to).events && SameIdentity(e.operation, Settle(e, to).operation)
    ensures Settle(e, to).operation.state == to && Settle(e, to).resolved == e.resolved
  {
  }

  lemma CancelShape(db: Store, actor: M.User, workspace: Id, id: Id)
    ensures var db' := Cancel(db, actor, workspace, id).0;
            || db' == db
            || (&& id in db.entries && db.entries[id].operation.state.Queued?
                && var e := db.entries[id];
                db' == Put(db, id, if HasActiveJob(e) then WithJob(Advance(e, Cancelled), CancelJob(e.job.value, db.now)) else Advance(e, Cancelled)))
  {
  }

  lemma ReleaseShape(db: Store, actor: M.User, workspace: Id, id: Id, ack: bool, typed: string, recent: bool)
    ensures var db' := ReleaseUnknown(db, actor, workspace, id, ack, typed, recent).0;
            || db' == db
            || (&& id in db.entries && db.entries[id].operation.state.Unknown? && db.entries[id].locked && !db.entries[id].resolved
                && var released := db.entries[id].(resolved := true, locked := false);
                db' == Put(db, id, if released.job.Some? then WithJob(released, CancelJob(released.job.value, db.now)) else released))
  {
  }

  // ---- What a step leaves alone ----

  /** Only rows of existing operations differ. */
  ghost predicate EntriesOnly(db: Store, db': Store) {
    db' == db.(entries := db'.entries) && db'.entries.Keys == db.entries.Keys
  }

  lemma LeaseStepFrame(w: World, s: Step)
    requires s.Take? || s.Extend?
    ensures EntriesOnly(w.db, Apply(w, s).db)
  {
  }

  lemma CommitStepFrame(w: World, s: Step)
    requires s.CommitMarker? || s.CommitReceipt? || s.CommitRejection? || s.CommitObservation?
    ensures EntriesOnly(w.db, Apply(w, s).db)
  {
    var x := WorkerOf(w, s.worker);
    match s
    case CommitMarker(_, sv, live, fault) =>
      if x.pc.Inspected? && Mark(w.db, sv, x.claim, x.pc.fingerprint, live, fault).1.Done? {
        MarkShape(w.db, sv, x.claim, x.pc.fingerprint, live, fault);
      }
    case CommitReceipt(_, delay) =>
      if x.pc.Sent? { ReceiptShape(w.db, x.claim, x.pc.reply, delay); }
    case CommitRejection(_) =>
      if x.pc.Rejecting? { RejectShape(w.db, x.claim, x.pc.cause); }
    case CommitObservation(_, delay) =>
      if x.pc.Observed? { ObservationShape(w.db, x.claim, x.pc.from, Conclusion(x.pc.sight, x.pc.referenced), delay); }
  }

  lemma OwnStepFrame(w: World, s: Step)
    requires OwnStep(s)
    ensures EntriesOnly(w.db, Apply(w, s).db)
  {
    if LocalStep(s) {
      LocalStepSame(w, s);
    } else if s.Take? || s.Extend? {
      LeaseStepFrame(w, s);
    } else {
      CommitStepFrame(w, s);
    }
  }

  lemma ControlStepFrame(w: World, s: Step)
    requires s.UserCancel? || s.UserRecheck? || s.OwnerRelease?
    ensures EntriesOnly(w.db, Apply(w, s).db)
  {
    if s.UserCancel? {
      CancelShape(w.db, s.actor, s.workspace, s.id);
    } else if s.UserRecheck? {
      RecheckShape(w.db, s.actor, s.workspace, s.id);
    } else {
      ReleaseShape(w.db, s.actor, s.workspace, s.id, s.acknowledged, s.typed, s.recent);
    }
  }

  lemma UpkeepStepFrame(w: World, s: Step)
    requires s.Expiry? || s.DropJob?
    ensures EntriesOnly(w.db, Apply(w, s).db)
  {
  }

  /** The steps of users, owners and maintenance that touch one operation. */
  ghost predicate OutsideStep(s: Step) {
    s.UserCancel? || s.UserRecheck? || s.OwnerRelease? || s.Expiry? || s.DropJob?
  }

  lemma OutsideStepFrame(w: World, s: Step)
    requires OutsideStep(s)
    ensures EntriesOnly(w.db, Apply(w, s).db)
  {
    if s.Expiry? || s.DropJob? {
      UpkeepStepFrame(w, s);
    } else {
      ControlStepFrame(w, s);
    }
  }

  // ---- One step, one operation ----

  lemma ReceiptSound(e: Entry, reply: Reply, delay: nat, now: int)
    requires EntryOk(e) && e.operation.state.Dispatching? && HasActiveJob(e)
    ensures var (to, reference) := ClassifyActionReceipt(e.operation.action, reply);
            Sound(e, HandBack(Advance(WithReference(e, reference), to), if to.Failed? then JobFailed else JobQueued, delay, now))
  {
    ReceiptSoundness(e.operation.action, reply);
  }

  lemma ObservationSound(e: Entry, sight: Observation, referenced: bool, delay: nat, now: int)
    requires EntryOk(e) && InFlight(e.operation.state) && HasActiveJob(e)
    ensures var to := Conclusion(sight, referenced);
            Sound(e, HandBack(Settle(e, to), if Final(to) then JobSucceeded else JobQueued, delay, now))
  {
    SettleMoves(e, Conclusion(sight, referenced));
  }

  lemma ExpirySound(e: Entry, now: int)
    requires EntryOk(e) && Exhausted(e, now)
    ensures Sound(e, ExpireEntry(e, now))
  {
    SettleMoves(e, Unknown);
  }

  ghost predicate SoundAt(db: Store, db': Store, id: Id) {
    id in db.entries && id in db'.entries && Sound(db.entries[id], db'.entries[id])
  }

  lemma ClaimSound(db: Store, l: Claimed, at: int, id: Id)
    requires id in db.entries && EntryOk(db.entries[id])
    ensures SoundAt(db, Claim(db, l, at).0, id)
  {
    if Claim(db, l, at).1.Done? {
      ClaimShape(db, l, at);
    }
  }

  lemma RenewSound(db: Store, l: Claimed, at: int, id: Id)
    requires id in db.entries && EntryOk(db.entries[id])
    ensures SoundAt(db, Renew(db, l, at).0, id)
  {
    if Renew(db, l, at).1.Done? {
      RenewShape(db, l, at);
    }
  }

  lemma LeaseSound(w: World, s: Step, id: Id)
    requires (s.Take? || s.Extend?) && id in w.db.entries && EntryOk(w.db.entries[id])
    ensures SoundAt(w.db, Apply(w, s).db, id)
  {
    if s.Take? {
      ClaimSound(w.db, Claimed(s.operation, s.worker, s.token), s.at, id);
    } else {
      RenewSound(w.db, WorkerOf(w, s.worker).claim, s.at, id);
    }
  }

  lemma ReceiptStepSound(db: Store, l: Claimed, reply: Reply, delay: nat, id: Id)
    requires id in db.entries && EntryOk(db.entries[id])
    ensures SoundAt(db, StoreReceipt(db, l, reply, delay).0, id)
  {
    ReceiptShape(db, l, reply, delay);
    if l.operation == id && db.entries[id].operation.state.Dispatching? && HasActiveJob(db.entries[id]) {
      ReceiptSound(db.entries[id], reply, delay, db.now);
    }
  }

  lemma RejectionStepSound(db: Store, l: Claimed, cause: Code, id: Id)
    requires id in db.entries && EntryOk(db.entries[id])
    ensures SoundAt(db, RejectUnsent(db, l, cause).0, id)
  {
    RejectShape(db, l, cause);
  }

  lemma ObservationStepSound(db: Store, l: Claimed, from: OpState, sight: Observation, referenced: bool, delay: nat, id: Id)
    requires id in db.entries && EntryOk(db.entries[id])
    ensures SoundAt(db, StoreObservation(db, l, from, Conclusion(sight, referenced), delay).0, id)
  {
    ObservationShape(db, l, from, Conclusion(sight, referenced), delay);
    if l.operation == id && InFlight(db.entries[id].operation.state) && HasActiveJob(db.entries[id]) {
      ObservationSound(db.entries[id], sight, referenced, delay, db.now);
    }
  }

  lemma OwnStepSound(w: World, s: Step, id: Id)
    requires OwnStep(s) && !s.CommitMarker? && id in w.db.entries && EntryOk(w.db.entries[id])
    ensures SoundAt(w.db, Apply(w, s).db, id)
  {
    match s
    case Take(_, _, _, _) => LeaseSound(w, s, id);
    case Extend(_, _, _) => LeaseSound(w, s, id);
    case CommitReceipt(me, delay) =>
      var x := WorkerOf(w, me);
      if x.pc.Sent? {
        ReceiptStepSound(w.db, x.claim, x.pc.reply, delay, id);
      }
    case CommitRejection(me) =>
      var x := WorkerOf(w, me);
      if x.pc.Rejecting? {
        RejectionStepSound(w.db, x.claim, x.pc.cause, id);
      }
    case CommitObservation(me, delay) =>
      var x := WorkerOf(w, me);
      if x.pc.Observed? {
        ObservationStepSound(w.db, x.claim, x.pc.from, x.pc.sight, x.pc.referenced, delay, id);
      }
    case _ => LocalStepSame(w, s);
  }

  lemma ConfirmSound(w: World, s: Step, id: Id)
    requires s.WriteConfirm? && id in w.db.entries
    ensures SoundAt(w.db, Apply(w, s).db, id)
  {
    var c := ClientOf(w, s.client);
    if c.Confirming? {
      ConfirmShape(w.db, s.sv, c.request, c.hash, s.facts, s.recent, s.live, s.fault, s.others, s.id);
    }
  }

  lemma CancelSound(w: World, s: Step, id: Id)
    requires s.UserCancel? && id in w.db.entries
    ensures SoundAt(w.db, Apply(w, s).db, id)
  {
    CancelShape(w.db, s.actor, s.workspace, s.id);
  }

  lemma RecheckSound(w: World, s: Step, id: Id)
    requires s.UserRecheck? && id in w.db.entries && EntryOk(w.db.entries[id])
    ensures SoundAt(w.db, Apply(w, s).db, id)
  {
    RecheckShape(w.db, s.actor, s.workspace, s.id);
  }

  lemma UpkeepSound(db: Store, op: Id, id: Id)
    requires id in db.entries && EntryOk(db.entries[id])
    ensures SoundAt(db, ExpireOne(db, op), id) && SoundAt(db, PruneJob(db, op), id)
  {
    if op == id && Exhausted(db.entries[id], db.now) {
      ExpirySound(db.entries[id], db.now);
    }
  }

  lemma OtherStepSound(w: World, s: Step, id: Id)
    requires !OwnStep(s) && !QuietStep(s) && !s.DisableConnection? && !s.OwnerRelease? && id in w.db.entries && EntryOk(w.db.entries[id])
    ensures SoundAt(w.db, Apply(w, s).db, id)
  {
    match s
    case WriteConfirm(_, _, _, _, _, _, _, _) => ConfirmSound(w, s, id);
    case UserCancel(_, _, _) => CancelSound(w, s, id);
    case UserRecheck(_, _, _) => RecheckSound(w, s, id);
    case Expiry(op) => UpkeepSound(w.db, op, id);
    case DropJob(op) => UpkeepSound(w.db, op, id);
  }

  lemma MarkerStep(w: World, s: Step, id: Id)
    requires s.CommitMarker? && id in w.db.entries
    ensures id in Apply(w, s).db.entries
    ensures var e, e' := w.db.entries[id], Apply(w, s).db.entries[id]; var x := WorkerOf(w, s.worker);
            || e' == e
            || (x.pc.Inspected? && x.claim.operation == id && LiveIn(e, x.claim, w.db.now) && e.operation.state.Queued? && w.db.gate.open
                && e' == Advance(e, Dispatching))
  {
    var x := WorkerOf(w, s.worker);
    if x.pc.Inspected? && Mark(w.db, s.sv, x.claim, x.pc.fingerprint, s.live, s.fault).1.Done? {
      MarkShape(w.db, s.sv, x.claim, x.pc.fingerprint, s.live, s.fault);
    }
  }

  lemma DisableStep(w: World, s: Step, id: Id)
    requires s.DisableConnection? && id in w.db.entries
    ensures id in Apply(w, s).db.entries
    ensures var e, e' := w.db.entries[id], Apply(w, s).db.entries[id]; e' == e || e' == DisableEntry(e, s.connection, w.db.now)
  {
    DisableShape(w.db, s.actor, s.workspace, s.connection);
  }

  lemma ReleaseStep(w: World, s: Step, id: Id)
    requires s.OwnerRelease? && id in w.db.entries
    ensures id in Apply(w, s).db.entries && Moves(w.db.entries[id], Apply(w, s).db.entries[id])
    ensures Apply(w, s).db.entries[id].operation == w.db.entries[id].operation
    ensures Covered(w.db.entries[id]) ==> Covered(Apply(w, s).db.entries[id])
  {
    ReleaseShape(w.db, s.actor, s.workspace, s.id, s.acknowledged, s.typed, s.recent);
  }

  lemma EntryMoves(w: World, s: Step, id: Id)
    requires id in w.db.entries && EntryOk(w.db.entries[id])
    ensures id in Apply(w, s).db.entries && Moves(w.db.entries[id], Apply(w, s).db.entries[id])
    ensures !s.DisableConnection? && Covered(w.db.entries[id]) ==> Covered(Apply(w, s).db.entries[id])
    ensures !s.CommitMarker? && Apply(w, s).db.entries[id].operation.state.Dispatching? ==> w.db.entries[id].operation.state.Dispatching?
    ensures !s.OwnerRelease? ==> Apply(w, s).db.entries[id].resolved == w.db.entries[id].resolved
  {
    if s.CommitMarker? {
      MarkerStep(w, s, id);
    } else if s.DisableConnection? {
      DisableStep(w, s, id);
    } else if s.OwnerRelease? {
      ReleaseStep(w, s, id);
    } else if OwnStep(s) {
      OwnStepSound(w, s, id);
    } else if QuietStep(s) {
      QuietStepSame(w, s);
    } else {
      OtherStepSound(w, s, id);
    }
  }

  /** No step removes an operation, rewrites its identity or its history, or moves it without a cause. */
  lemma StepMoves(w: World, s: Step, id: Id)
    requires Inv(w) && id in w.db.entries
    ensures id in Apply(w, s).db.entries && Moves(w.db.entries[id], Apply(w, s).db.entries[id])
    ensures !s.DisableConnection? && Covered(w.db.entries[id]) ==> Covered(Apply(w, s).db.entries[id])
    ensures !s.CommitMarker? && Apply(w, s).db.entries[id].operation.state.Dispatching? ==> w.db.entries[id].operation.state.Dispatching?
    ensures !s.OwnerRelease? ==> Apply(w, s).db.entries[id].resolved == w.db.entries[id].resolved
  {
    EntryOkIn(w, id);
    EntryMoves(w, s, id);
  }

  lemma EntryOkIn(w: World, id: Id)
    requires Inv(w) && id in w.db.entries
    ensures EntryOk(w.db.entries[id])
  {
  }

  // ---- Whole runs ----

  ghost predicate Continues(e: Entry, e': Entry) {
    SameIdentity(e.operation, e'.operation) && e.events <= e'.events && (e.resolved ==> e'.resolved)
  }

  lemma MovesContinue(e: Entry, e': Entry)
    requires Moves(e, e')
    ensures Continues(e, e')
  {
  }

  lemma ContinuesOn(a: Entry, b: Entry, c: Entry)
    requires Continues(a, b) && Continues(b, c)
    ensures Continues(a, c)
  {
  }

  /** Over any run an operation stays, keeps its identity, and only appends to its history. */
  lemma {:induction false} RunContinues(w: World, steps: seq<Step>, id: Id)
    requires Inv(w) && id in w.db.entries
    ensures id in Run(w, steps).db.entries && Continues(w.db.entries[id], Run(w, steps).db.entries[id])
    decreases |steps|
  {
    if steps != [] {
      var w1 := Apply(w, steps[0]);
      StepMoves(w, steps[0], id);
      StepKeeps(w, steps[0]);
      RunContinues(w1, steps[1..], id);
      MovesContinue(w.db.entries[id], w1.db.entries[id]);
      ContinuesOn(w.db.entries[id], w1.db.entries[id], Run(w1, steps[1..]).db.entries[id]);
    }
  }

  /** Nothing moves it any more but the removal of an old job. */
  predicate Settled(e: Entry) {
    Terminal(e.operation.state) || (e.operation.state.Unknown? && e.resolved)
  }

  ghost predicate Same(e: Entry, e': Entry) {
    e' == e || e' == e.(job := None)
  }

  lemma SettledStep(e: Entry, e': Entry)
    requires EntryOk(e) && Settled(e) && Moves(e, e')
    ensures Same(e, e') && Settled(e') && !e'.locked
  {
  }

  /** A finished or released operation never changes again, and holds no reservation. */
  lemma {:induction false} SettledForever(w: World, steps: seq<Step>, id: Id)
    requires Inv(w) && id in w.db.entries && Settled(w.db.entries[id])
    ensures id in Run(w, steps).db.entries
    ensures Same(w.db.entries[id], Run(w, steps).db.entries[id]) && !Run(w, steps).db.entries[id].locked
    decreases |steps|
  {
    SettledUnlocked(w, id);
    if steps != [] {
      SettledOnce(w, steps[0], id);
      StepKeeps(w, steps[0]);
      SettledForever(Apply(w, steps[0]), steps[1..], id);
      SameAgain(w.db.entries[id], Apply(w, steps[0]).db.entries[id], Run(w, steps).db.entries[id]);
    }
  }

  lemma SettledUnlocked(w: World, id: Id)
    requires Inv(w) && id in w.db.entries && Settled(w.db.entries[id])
    ensures !w.db.entries[id].locked
  {
    EntryOkIn(w, id);
  }

  lemma SameAgain(a: Entry, b: Entry, c: Entry)
    requires Same(a, b) && Same(b, c)
    ensures Same(a, c)
  {
  }

  lemma SettledOnce(w: World, s: Step, id: Id)
    requires Inv(w) && id in w.db.entries && Settled(w.db.entries[id])
    ensures id in Apply(w, s).db.entries && Settled(Apply(w, s).db.entries[id]) && Same(w.db.entries[id], Apply(w, s).db.entries[id])
  {
    EntryOkIn(w, id);
    StepMoves(w, s, id);
    SettledStep(w.db.entries[id], Apply(w, s).db.entries[id]);
  }

  /** Submitted work whose job was cancelled. */
  predicate Stranded(e: Entry) {
    InFlight(e.operation.state) && e.job.Some? && e.job.value.state.JobCancelled?
  }

  lemma StrandedStep(e: Entry, e': Entry)
    requires Stranded(e) && Moves(e, e')
    ensures e' == e
  {
  }

  /** Nobody can cancel, recheck, release, observe or expire it: it keeps its reservation for ever. */
  lemma {:induction false} StrandedForever(w: World, steps: seq<Step>, id: Id)
    requires Inv(w) && id in w.db.entries && Stranded(w.db.entries[id])
    ensures id in Run(w, steps).db.entries && Run(w, steps).db.entries[id] == w.db.entries[id]
    ensures w.db.entries[id].locked
    decreases |steps|
  {
    EntryOkIn(w, id);
    if steps != [] {
      StepMoves(w, steps[0], id);
      StrandedStep(w.db.entries[id], Apply(w, steps[0]).db.entries[id]);
      StepKeeps(w, steps[0]);
      StrandedForever(Apply(w, steps[0]), steps[1..], id);
    }
  }
}
