/**
 Who may cause what. Of all the steps of all the actors, only one kind cancels an operation, one reopens an
 unknown one, one signs it off and one creates it, and it does so exactly under the authority that its
 caller has at that moment.
 */
module Causes {
  import opened Options
  import opened Lifecycle
  import opened Receipts
  import opened Tables
  import opened Transactions
  import opened Leases
  import opened Protocol
  import opened ProtocolSteps
  import opened ProtocolHistory
  import M = Membership

  // ---- Authority, in terms of rows ----

  /** An enabled member whose role reaches the class and who was granted it, and reading, on the connection. */
  predicate Entitled(w: M.Workspace, user: M.User, connection: Id, wanted: M.Class) {
    && user in w.members && user !in w.disabled
    && M.Rank(w.members[user].role) >= (if wanted.Read? then 1 else 2)
    && M.Read in M.Granted(w, connection, user) && wanted in M.Granted(w, connection, user)
  }

  function ClassFor(high: bool): M.Class {
    if high then M.HighImpact else M.Operate
  }

  /** May control the operation: entitled to the class that its review asked for. */
  predicate MayControl(db: Store, actor: M.User, workspace: Id, id: Id) {
    && workspace in db.workspaces && id in db.entries && db.entries[id].operation.workspace == workspace
    && db.entries[id].operation.review in db.reviews
    && Entitled(db.workspaces[workspace], actor, db.entries[id].operation.connection,
                ClassFor(db.reviews[db.entries[id].operation.review].high))
  }

  /** May sign off the residual risk: an owner with the high-impact class who typed the reviewed name. */
  predicate MayRelease(db: Store, s: Step)
    requires s.OwnerRelease?
  {
    && MayControl(db, s.actor, s.workspace, s.id) && s.acknowledged && s.recent
    && db.workspaces[s.workspace].members[s.actor].role.Owner?
    && Entitled(db.workspaces[s.workspace], s.actor, db.entries[s.id].operation.connection, M.HighImpact)
    && s.typed == db.reviews[db.entries[s.id].operation.review].name
  }

  lemma ControlExactly(db: Store, actor: M.User, workspace: Id, id: Id)
    ensures ControlLoad(db, actor, workspace, id).Done? <==> MayControl(db, actor, workspace, id)
  {
  }

  // ---- Who changes an operation's state ----

  /** Nobody cancelled it, reopened it or signed it off. */
  predicate Uncontrolled(e: Entry, e': Entry) {
    && (e'.operation.state.Cancelled? ==> e.operation.state.Cancelled?)
    && (e.operation.state.Unknown? ==> e'.operation.state.Unknown?)
    && e'.resolved == e.resolved
  }

  ghost predicate UncontrolledAt(db: Store, db': Store, id: Id) {
    id in db.entries && id in db'.entries && Uncontrolled(db.entries[id], db'.entries[id])
  }

  lemma LeaseUncontrolled(w: World, s: Step, id: Id)
    requires (s.Take? || s.Extend?) && id in w.db.entries
    ensures UncontrolledAt(w.db, Apply(w, s).db, id)
  {
    var l := if s.Take? then Claimed(s.operation, s.worker, s.token) else WorkerOf(w, s.worker).claim;
    if s.Take? {
      if Claim(w.db, l, s.at).1.Done? {
        ClaimShape(w.db, l, s.at);
      }
    } else {
      if Renew(w.db, l, s.at).1.Done? {
        RenewShape(w.db, l, s.at);
      }
    }
  }

  lemma ReceiptUncontrolled(db: Store, l: Claimed, reply: Reply, delay: nat, id: Id)
    requires id in db.entries
    ensures UncontrolledAt(db, StoreReceipt(db, l, reply, delay).0, id)
  {
    ReceiptShape(db, l, reply, delay);
    if l.operation == id && db.entries[id].job.Some? {
      ReceiptSoundness(db.entries[id].operation.action, reply);
    }
  }

  lemma ObservationUncontrolled(db: Store, l: Claimed, from: OpState, sight: Observation, referenced: bool, delay: nat, id: Id)
    requires id in db.entries
    ensures UncontrolledAt(db, StoreObservation(db, l, from, Conclusion(sight, referenced), delay).0, id)
  {
    var to := Conclusion(sight, referenced);
    ObservationShape(db, l, from, to, delay);
    SettleMoves(db.entries[id], to);
  }

  lemma WorkerUncontrolled(w: World, s: Step, id: Id)
    requires OwnStep(s) && id in w.db.entries
    ensures UncontrolledAt(w.db, Apply(w, s).db, id)
  {
    match s
    case Take(_, _, _, _) => LeaseUncontrolled(w, s, id);
    case Extend(_, _, _) => LeaseUncontrolled(w, s, id);
    case CommitMarker(_, _, _, _) => MarkerStep(w, s, id);
    case CommitReceipt(me, delay) =>
      var x := WorkerOf(w, me);
      if x.pc.Sent? {
        ReceiptUncontrolled(w.db, x.claim, x.pc.reply, delay, id);
      }
    case CommitRejection(me) =>
      var x := WorkerOf(w, me);
      if x.pc.Rejecting? {
        RejectShape(w.db, x.claim, x.pc.cause);
      }
    case CommitObservation(me, delay) =>
      var x := WorkerOf(w, me);
      if x.pc.Observed? {
        ObservationUncontrolled(w.db, x.claim, x.pc.from, x.pc.sight, x.pc.referenced, delay, id);
      }
    case _ => LocalStepSame(w, s);
  }

  lemma UpkeepUncontrolled(db: Store, op: Id, id: Id)
    requires id in db.entries
    ensures UncontrolledAt(db, ExpireOne(db, op), id) && UncontrolledAt(db, PruneJob(db, op), id)
  {
    if op == id {
      SettleMoves(db.entries[id], Unknown);
    }
  }

  /** The one cause of each controlled change. */
  ghost predicate Accounted(w: World, s: Step, id: Id, e: Entry, e': Entry) {
    || Uncontrolled(e, e')
    || (s.UserCancel? && s.id == id && MayControl(w.db, s.actor, s.workspace, id)
        && e.operation.state.Queued? && e'.operation.state.Cancelled? && e'.resolved == e.resolved)
    || (s.UserRecheck? && s.id == id && MayControl(w.db, s.actor, s.workspace, id)
        && e.operation.state.Unknown? && e.locked && e'.operation.state.Reconciling? && e'.resolved == e.resolved)
    || (s.OwnerRelease? && s.id == id && MayRelease(w.db, s)
        && e.operation.state.Unknown? && e.locked && e'.operation == e.operation)
  }

  lemma CancelAccounted(w: World, s: Step, id: Id)
    requires s.UserCancel? && id in w.db.entries
    ensures id in Apply(w, s).db.entries && Accounted(w, s, id, w.db.entries[id], Apply(w, s).db.entries[id])
  {
    ControlExactly(w.db, s.actor, s.workspace, s.id);
    CancelShape(w.db, s.actor, s.workspace, s.id);
  }

  lemma RecheckAccounted(w: World, s: Step, id: Id)
    requires s.UserRecheck? && id in w.db.entries
    ensures id in Apply(w, s).db.entries && Accounted(w, s, id, w.db.entries[id], Apply(w, s).db.entries[id])
  {
    ControlExactly(w.db, s.actor, s.workspace, s.id);
    RecheckShape(w.db, s.actor, s.workspace, s.id);
  }

  lemma ReleaseAccounted(w: World, s: Step, id: Id)
    requires s.OwnerRelease? && id in w.db.entries
    ensures id in Apply(w, s).db.entries && Accounted(w, s, id, w.db.entries[id], Apply(w, s).db.entries[id])
  {
    ControlExactly(w.db, s.actor, s.workspace, s.id);
    ReleaseShape(w.db, s.actor, s.workspace, s.id, s.acknowledged, s.typed, s.recent);
  }

  /**
   Of all steps only a cancel, recheck or release by somebody entitled to it cancels, reopens or signs off an
   operation, and only from the state where that is meant.
   */
  lemma ControlsAccounted(w: World, s: Step, id: Id)
    requires id in w.db.entries
    ensures id in Apply(w, s).db.entries && Accounted(w, s, id, w.db.entries[id], Apply(w, s).db.entries[id])
  {
    if OwnStep(s) {
      WorkerUncontrolled(w, s, id);
    } else if QuietStep(s) {
      QuietStepSame(w, s);
    } else {
      match s
      case WriteConfirm(_, _, _, _, _, _, _, _) =>
        var c := ClientOf(w, s.client);
        if c.Confirming? {
          ConfirmShape(w.db, s.sv, c.request, c.hash, s.facts, s.recent, s.live, s.fault, s.others, s.id);
        }
      case DisableConnection(_, _, _) => DisableStep(w, s, id);
      case Expiry(op) => UpkeepUncontrolled(w.db, op, id);
      case DropJob(op) => UpkeepUncontrolled(w.db, op, id);
      case UserCancel(_, _, _) => CancelAccounted(w, s, id);
      case UserRecheck(_, _, _) => RecheckAccounted(w, s, id);
      case OwnerRelease(_, _, _, _, _, _) => ReleaseAccounted(w, s, id);
    }
  }

  // ---- What the controls achieve ----

  /** A cancellation takes effect exactly on a queued operation and for somebody entitled, and then frees target and worker. */
  lemma CancelExactly(db: Store, actor: M.User, workspace: Id, id: Id)
    requires id in db.entries && EntryOk(db.entries[id])
    ensures var e' := Cancel(db, actor, workspace, id).0.entries[id];
      if MayControl(db, actor, workspace, id) && db.entries[id].operation.state.Queued?
      then e'.operation.state.Cancelled? && !e'.locked && !HasActiveJob(e')
      else Cancel(db, actor, workspace, id).0 == db
  {
    ControlExactly(db, actor, workspace, id);
  }

  /** Rechecking gives a reserved unknown operation a full new budget for observation, and changes nothing else. */
  lemma RecheckExactly(db: Store, actor: M.User, workspace: Id, id: Id)
    requires id in db.entries && EntryOk(db.entries[id])
    ensures var e, e' := db.entries[id], Recheck(db, actor, workspace, id).0.entries[id];
      if MayControl(db, actor, workspace, id) && e.operation.state.Unknown? && e.locked
      then e'.operation.state.Reconciling? && e'.locked && Takeable(e', db.now)
        && e'.job.value.attempts == 0 && e'.job.value.deadline == db.now + RECHECK_SECONDS
      else Recheck(db, actor, workspace, id).0 == db
  {
    ControlExactly(db, actor, workspace, id);
  }

  /** A release takes effect exactly when it may, and then only gives up the reservation and stops the job. */
  lemma ReleaseExactly(w: World, s: Step)
    requires s.OwnerRelease? && s.id in w.db.entries && EntryOk(w.db.entries[s.id])
    ensures var e, e' := w.db.entries[s.id], Apply(w, s).db.entries[s.id];
      if MayRelease(w.db, s) && e.operation.state.Unknown? && !e.resolved
      then e'.resolved && !e'.locked && e'.operation == e.operation && e'.events == e.events && !HasActiveJob(e')
      else Apply(w, s) == w
  {
    ControlExactly(w.db, s.actor, s.workspace, s.id);
  }

  // ---- Who creates an operation ----

  /** The review is the actor's own, unused, in time, and current in credential, policy and switches. */
  predicate CurrentReview(db: Store, sv: Service, q: Request) {
    && q.review in db.reviews && q.workspace in db.workspaces
    && var r := db.reviews[q.review];
    && r.workspace == q.workspace && r.actor == q.actor && r.consumed.None? && db.now < r.expires
    && r.connection in db.connections
    && r.credential == db.connections[r.connection].credential
    && r.policy == Stamp(db.workspaces[q.workspace].policy, sv.switches)
  }

  /** The reviewed resource is still there, on an active connection that offers the action to the actor. */
  predicate StillOffered(db: Store, q: Request)
    requires q.review in db.reviews && q.workspace in db.workspaces
  {
    var r, w := db.reviews[q.review], db.workspaces[q.workspace];
    && r.resource in db.resources && db.resources[r.resource].workspace == q.workspace
    && db.resources[r.resource].connection == r.connection && db.resources[r.resource].kind == TargetKind(r.action)
    && r.connection in db.connections && db.connections[r.connection].workspace == q.workspace
    && db.connections[r.connection].active && r.action in db.connections[r.connection].verified
    && Entitled(w, q.actor, r.connection, ClassFor(r.high || SnapshotAction(r.action)))
  }

  /** Nobody used the identifier, the actor's key or the review. */
  ghost predicate Unused(db: Store, q: Request, id: Id) {
    && id !in db.entries
    && forall x :: x in db.entries ==>
         var o := db.entries[x].operation;
         o.review != q.review && !(o.workspace == q.workspace && o.actor == q.actor && o.key == q.key)
  }

  /** An operation on the reviewed resource's target holds its lock row. */
  ghost predicate Held(db: Store, q: Request) {
    && q.review in db.reviews && db.reviews[q.review].resource in db.resources
    && exists x :: x in db.entries && db.entries[x].locked && db.entries[x].operation.target == db.resources[db.reviews[q.review].resource]
  }

  /** The jobs of the workspace that wait or run. */
  function Outstanding(db: Store, workspace: Id): set<Id> {
    set x | x in db.entries && db.entries[x].operation.workspace == workspace && db.entries[x].job.Some?
            && (db.entries[x].job.value.state.JobQueued? || db.entries[x].job.value.state.JobRunning?)
  }

  /** Everything a request needs but a free target. */
  ghost predicate InOrder(db: Store, sv: Service, q: Request, hash: Digest, facts: Facts, recent: bool, others: nat, id: Id) {
    && CurrentReview(db, sv, q) && StillOffered(db, q) && Unused(db, q, id)
    && var r := db.reviews[q.review];
    && hash == r.hash && facts.fingerprint == r.fingerprint
    && (r.high ==> q.typed == r.name && recent)
    && |Outstanding(db, q.workspace)| + others < db.workspaces[q.workspace].settings.queueLimit
  }

  ghost predicate Acceptable(db: Store, sv: Service, q: Request, hash: Digest, facts: Facts, recent: bool, others: nat, id: Id) {
    InOrder(db, sv, q, hash, facts, recent, others, id) && !Held(db, q)
  }

  /** Exactly one operation was added, queued on the reviewed target with half an hour to run, and its review used up. */
  ghost predicate Created(db: Store, db': Store, q: Request, hash: Digest, id: Id)
    requires q.review in db.reviews && db.reviews[q.review].resource in db.resources
  {
    var r := db.reviews[q.review];
    && db' == db.(entries := db'.entries, reviews := db.reviews[q.review := r.(consumed := Some(id))])
    && db'.entries == db.entries[id :=
         Entry(Operation(q.workspace, q.actor, r.connection, r.resource, db.resources[r.resource], r.action, hash, q.key, q.review,
                         r.credential, r.policy, Queued, 1, None),
               [Event(1, None, Queued)], Some(Job(JobQueued, db.now, None, 0, db.now + 30 * 60, None)), true, false)]
  }

  lemma AuthorityRows(db: Store, sv: Service, actor: M.User, workspace: Id, resource: Id, action: Action, high: bool)
    ensures var a := Authority(db, sv, actor, workspace, resource, true, false);
      a.Some? && Authorized(a.value, action, high)
      <==> && workspace in db.workspaces && resource in db.resources
           && var t := db.resources[resource];
           && t.workspace == workspace && t.kind == TargetKind(action) && t.connection in db.connections
           && var c := db.connections[t.connection];
           && c.workspace == workspace && c.active && action in c.verified
           && Entitled(db.workspaces[workspace], actor, t.connection, ClassFor(high || SnapshotAction(action)))
  {
  }

  lemma ReviewChecked(db: Store, sv: Service, q: Request, recent: bool)
    requires q.review in db.reviews && q.workspace in db.workspaces && OwnReview(db, q)
    ensures var r := db.reviews[q.review];
      var a := Authority(db, sv, q.actor, q.workspace, r.resource, true, false);
      a.Some? && CheckReview(db, q, a.value, r, recent).Done?
      <==> CurrentReview(db, sv, q) && StillOffered(db, q) && (r.high ==> q.typed == r.name && recent)
  {
    var r := db.reviews[q.review];
    AuthorityRows(db, sv, q.actor, q.workspace, r.resource, r.action, r.high);
  }

  /** The last checks of an acceptance, in terms of rows. */
  lemma UnusedRows(db: Store, q: Request, id: Id)
    requires q.review in db.reviews && db.reviews[q.review].resource in db.resources
    ensures var target := db.resources[db.reviews[q.review].resource];
      && (Unused(db, q, id) <==> id !in db.entries && !(exists x :: x in db.entries && HasKey(db, x, q))
                                 && !(exists x :: x in db.entries && db.entries[x].operation.review == q.review))
      && (Held(db, q) <==> exists x :: x in db.entries && Reserves(db.entries[x], target))
      && ActiveJobs(db, q.workspace) == Outstanding(db, q.workspace)
  {
    var target := db.resources[db.reviews[q.review].resource];
    forall x | x in db.entries
      ensures HasKey(db, x, q) <==> var o := db.entries[x].operation; o.workspace == q.workspace && o.actor == q.actor && o.key == q.key
      ensures Reserves(db.entries[x], target) <==> db.entries[x].locked && db.entries[x].operation.target == target
    {
    }
  }

  /** With the resource live and readable, an acceptance creates an operation exactly for an acceptable request. */
  lemma AcceptsExactly(db: Store, sv: Service, q: Request, hash: Digest, facts: Facts, recent: bool, others: nat, id: Id)
    ensures var (db', answer) := ConfirmSecond(db, sv, q, hash, facts, recent, true, false, others, id);
      if Acceptable(db, sv, q, hash, facts, recent, others, id)
      then answer == Found(id, Queued) && Created(db, db', q, hash, id)
      else db' == db
  {
    if q.workspace in db.workspaces && OwnReview(db, q) {
      ReviewChecked(db, sv, q, recent);
      if db.reviews[q.review].resource in db.resources {
        UnusedRows(db, q, id);
      }
    }
  }

  /** A resource that is gone, or a failing read, creates nothing. */
  lemma NothingWithoutResource(db: Store, sv: Service, q: Request, hash: Digest, facts: Facts, recent: bool, live: bool, fault: bool,
                               others: nat, id: Id)
    requires !live || fault
    ensures ConfirmSecond(db, sv, q, hash, facts, recent, live, fault, others, id).0 == db
  {
  }

  /** Of all steps only a client's second transaction creates an operation, and only from an acceptable request. */
  lemma CreationAccounted(w: World, s: Step, id: Id)
    requires id !in w.db.entries && id in Apply(w, s).db.entries
    ensures s.WriteConfirm? && s.id == id && s.live && !s.fault && ClientOf(w, s.client).Confirming?
      && var c := ClientOf(w, s.client);
      && Reread(s.sv, c.seen, c.review, s.facts).Done?
      && Acceptable(w.db, s.sv, c.request, c.hash, s.facts, s.recent, s.others, id)
  {
    if OwnStep(s) {
      OwnStepFrame(w, s);
    } else if QuietStep(s) {
      QuietStepSame(w, s);
    } else if OutsideStep(s) {
      OutsideStepFrame(w, s);
    } else if s.DisableConnection? {
      DisableShape(w.db, s.actor, s.workspace, s.connection);
    } else {
      var c := ClientOf(w, s.client);
      if c.Confirming? {
        if s.live && !s.fault {
          AcceptsExactly(w.db, s.sv, c.request, c.hash, s.facts, s.recent, s.others, s.id);
        } else {
          NothingWithoutResource(w.db, s.sv, c.request, c.hash, s.facts, s.recent, s.live, s.fault, s.others, s.id);
        }
      }
    }
  }

  // ---- Who removes a review, and who changes a connection ----

  /** A review disappears only a week after it expired unused, and never while an operation refers to it. */
  lemma RemovalAccounted(w: World, s: Step, r: Id)
    requires r in w.db.reviews && r !in Apply(w, s).db.reviews
    ensures s.DropReviews? && w.db.reviews[r].consumed.None? && w.db.reviews[r].expires + 7 * 24 * 60 * 60 < w.db.now
      && forall id :: id in w.db.entries ==> w.db.entries[id].operation.review != r
  {
    if OwnStep(s) {
      OwnStepFrame(w, s);
    } else if OutsideStep(s) {
      OutsideStepFrame(w, s);
    }
  }

  lemma ConfirmConnections(w: World, s: Step)
    requires s.WriteConfirm?
    ensures Apply(w, s).db.connections == w.db.connections
  {
    var c := ClientOf(w, s.client);
    if c.Confirming? {
      ConfirmSame(w.db, s.sv, c.request, c.hash, s.facts, s.recent, s.live, s.fault, s.others, s.id);
    }
  }

  lemma ConfirmSame(db: Store, sv: Service, q: Request, hash: Digest, facts: Facts, recent: bool, live: bool, fault: bool, others: nat, id: Id)
    ensures ConfirmSecond(db, sv, q, hash, facts, recent, live, fault, others, id).0.connections == db.connections
  {
  }

  /** A connection's credential or activity is changed only by an enabled admin or owner of its workspace. */
  lemma ConnectionAccounted(w: World, s: Step, c: Id)
    requires c in w.db.connections && c in Apply(w, s).db.connections && Apply(w, s).db.connections[c] != w.db.connections[c]
    ensures (s.RotateCredential? || s.DisableConnection?) && s.connection == c && s.workspace == w.db.connections[c].workspace
      && s.workspace in w.db.workspaces
      && var ws := w.db.workspaces[s.workspace];
      s.actor in ws.members && s.actor !in ws.disabled && (ws.members[s.actor].role.Admin? || ws.members[s.actor].role.Owner?)
  {
    if OwnStep(s) {
      OwnStepFrame(w, s);
    } else if OutsideStep(s) {
      OutsideStepFrame(w, s);
    } else if s.WriteConfirm? {
      ConfirmConnections(w, s);
    }
  }
}
