/**
 Operations and their jobs: who still has work to do, what disabling a connection breaks, and how
 exhausted jobs are drained.
 */
module Coverage {
  import opened Batches
  import opened Options
  import opened Lifecycle
  import opened Receipts
  import opened Tables
  import opened Transactions
  import opened Protocol
  import opened ProtocolInvariant
  import opened ProtocolSteps
  import opened ProtocolHistory
  import opened Causes
  import opened Freshness
  import M = Membership

  /** A queued or running job never belongs to a finished or unknown operation, and an unknown one keeps its job row. */
  lemma JobsFollowOperations(w: World, steps: seq<Step>, id: Id)
    requires Initial(w) && id in Run(w, steps).db.entries
    ensures var e := Run(w, steps).db.entries[id];
            && (HasActiveJob(e) ==> Unsettled(e.operation.state))
            && (Unsettled(e.operation.state) || e.operation.state.Unknown? ==> e.job.Some?)
  {
    RunKeeps(w, steps);
    assert EntryOk(Run(w, steps).db.entries[id]);
  }

  ghost predicate AllCovered(w: World) {
    forall id :: id in w.db.entries ==> Covered(w.db.entries[id])
  }

  /** Only an acceptance adds an operation, with a queued job. */
  lemma AddedCovered(w: World, s: Step, id: Id)
    requires id !in w.db.entries && id in Apply(w, s).db.entries
    ensures s.WriteConfirm? && Covered(Apply(w, s).db.entries[id])
  {
    if s.WriteConfirm? {
      var c := ClientOf(w, s.client);
      if c.Confirming? {
        ConfirmShape(w.db, s.sv, c.request, c.hash, s.facts, s.recent, s.live, s.fault, s.others, s.id);
      }
    } else if OwnStep(s) {
      OwnStepFrame(w, s);
    } else if OutsideStep(s) {
      OutsideStepFrame(w, s);
    } else if s.DisableConnection? {
      DisableShape(w.db, s.actor, s.workspace, s.connection);
    } else {
      QuietStepSame(w, s);
    }
  }

  /** As long as no connection is disabled, every unsettled operation has its one queued or running job. */
  lemma {:induction false} UnsettledHaveJobs(w: World, steps: seq<Step>)
    requires Inv(w) && AllCovered(w) && (forall s :: s in steps ==> !s.DisableConnection?)
    ensures AllCovered(Run(w, steps))
    decreases |steps|
  {
    if steps != [] {
      var w1 := Apply(w, steps[0]);
      assert steps[0] in steps;
      forall id | id in w1.db.entries ensures Covered(w1.db.entries[id]) {
        if id in w.db.entries {
          StepMoves(w, steps[0], id);
        } else {
          AddedCovered(w, steps[0], id);
        }
      }
      StepKeeps(w, steps[0]);
      UnsettledHaveJobs(w1, steps[1..]);
    }
  }

  // ---- Disabling a connection ----

  /** The disable is authorized and changes the connection. */
  predicate Disables(db: Store, actor: M.User, workspace: Id, connection: Id) {
    && workspace in db.workspaces && connection in db.connections && db.connections[connection].workspace == workspace
    && M.LockAuthority(db.workspaces[workspace], actor).Done? && db.connections[connection].active
  }

  /** It takes an operation's job away exactly when that job is queued on this connection, submitted or not. */
  lemma DisableUncovers(db: Store, actor: M.User, workspace: Id, connection: Id, id: Id)
    requires id in db.entries && EntryOk(db.entries[id]) && Covered(db.entries[id])
    ensures var e := db.entries[id]; var db' := Disable(db, actor, workspace, connection).0;
            && id in db'.entries
            && (!Covered(db'.entries[id]) <==>
                 Disables(db, actor, workspace, connection) && e.operation.connection == connection
                 && e.job.Some? && e.job.value.state.JobQueued?)
            && (Stranded(db'.entries[id]) <==> !Covered(db'.entries[id]) && InFlight(e.operation.state))
  {
  }

  /**
   Submitted work that lost its job this way is never observed, expired, rechecked, cancelled or
   released again, keeps its reservation, and from then on a closed recovery gate cannot reopen.
   */
  lemma {:induction false} StrandedShutsGate(w: World, steps: seq<Step>, id: Id)
    requires Inv(w) && id in w.db.entries && Stranded(w.db.entries[id]) && !w.db.gate.open
    ensures id in Run(w, steps).db.entries && Run(w, steps).db.entries[id] == w.db.entries[id] && w.db.entries[id].locked
    ensures !Run(w, steps).db.gate.open
    decreases |steps|
  {
    StrandedForever(w, steps, id);
    if steps != [] {
      var w1 := Apply(w, steps[0]);
      if w1.db.gate.open {
        ReopeningIsSafe(w, steps[0]);
      }
      StepMoves(w, steps[0], id);
      StepKeeps(w, steps[0]);
      assert EntryOk(w.db.entries[id]);
      StrandedShutsGate(w1, steps[1..], id);
    }
  }

  // ---- Work that was never sent ----

  /** What becomes of queued work once its worker has inspected it. */
  function AfterInspection(db: Store, sv: Service, l: Claimed, live: bool, reading: Reading, facts: Facts): Store {
    var cause := InspectDispatch(db, sv, l, live, reading, facts);
    if cause.Done? then db else RejectUnsent(db, l, cause).0
  }

  /**
   Queued work that passes all its checks when they can be read is failed for good exactly when the read of the
   workspace row or of authority fails; a failing read of the operation leaves it as it is.
   */
  lemma FaultsFailExactly(db: Store, sv: Service, l: Claimed, live: bool, reading: Reading, facts: Facts)
    requires Loadable(db, l) && db.entries[l.operation].operation.state.Queued?
    requires InspectDispatch(db, sv, l, live, AllRead, facts).Done?
    ensures var db' := AfterInspection(db, sv, l, live, reading, facts);
            if reading.WorkspaceUnread? || reading.AuthorityUnread?
            then db'.entries[l.operation].operation.state.Failed? && !db'.entries[l.operation].locked && !HasActiveJob(db'.entries[l.operation])
            else db' == db
  {
    RejectShape(db, l, InspectDispatch(db, sv, l, live, reading, facts));
  }

  /** The actor may still do what was reviewed, under the versions it was reviewed with, and the process offers it. */
  predicate StillMeant(db: Store, sv: Service, o: Operation, r: Review, live: bool) {
    && live && o.workspace in db.workspaces && o.resource in db.resources && db.resources[o.resource].workspace == o.workspace
    && var c := db.resources[o.resource].connection;
    && c == o.connection && c in db.connections && db.connections[c].workspace == o.workspace && db.connections[c].active
    && db.connections[c].credential == r.credential && PolicyStamp(sv, db.workspaces[o.workspace].policy) == r.policy
    && db.resources[o.resource].kind == TargetKind(r.action) && r.action in db.connections[c].verified
    && (db.connections[c].family, r.action) in sv.permits
    && Entitled(db.workspaces[o.workspace], o.actor, c, ClassFor(r.high || SnapshotAction(r.action)))
  }

  /** What the process was started with, and the provider's fresh answer, still allow the reviewed action. */
  predicate StillOffers(db: Store, sv: Service, o: Operation, r: Review, facts: Facts)
    requires o.connection in db.connections
  {
    var f := db.connections[o.connection].family;
    && sv.enabled && (f, r.action) in sv.reviewers && (f, r.action) in sv.mutators
    && facts.allowed && facts.fingerprint == r.fingerprint != 0 && facts.high == r.high && facts.name == r.name
  }

  /** The provider could not be read, or answered with something that cannot be shown. */
  predicate Unusable(sv: Service, family: nat, action: Action, facts: Facts) {
    && sv.enabled && (family, action) in sv.reviewers
    && (!facts.readable || (SnapshotAction(action) && !facts.high)
        || (facts.allowed && facts.fingerprint != 0 && !ValidTargetName(facts.name)))
  }

  /**
   In general, queued work whose operation can be read fails unsent exactly when the workspace or authority cannot
   be read, when it is not meant any more, or when the provider can be read and does not offer it any more.
   */
  lemma UnsentFailsExactly(db: Store, sv: Service, l: Claimed, live: bool, reading: Reading, facts: Facts)
    requires Loadable(db, l) && db.entries[l.operation].operation.state.Queued? && !reading.OperationUnread?
    ensures var o := db.entries[l.operation].operation; var r := db.reviews[o.review]; var db' := AfterInspection(db, sv, l, live, reading, facts);
            if reading.WorkspaceUnread? || reading.AuthorityUnread? || !StillMeant(db, sv, o, r, live)
               || (!Unusable(sv, db.connections[o.connection].family, r.action, facts) && !StillOffers(db, sv, o, r, facts))
            then db'.entries[l.operation].operation.state.Failed? && !db'.entries[l.operation].locked
            else db' == db
  {
    var o := db.entries[l.operation].operation;
    var r := db.reviews[o.review];
    AuthorityRows(db, sv, o.actor, o.workspace, o.resource, r.action, r.high);
    RejectShape(db, l, InspectDispatch(db, sv, l, live, reading, facts));
  }

  // ---- Rechecks ----

  /** Whoever may control a reserved unknown operation finds its job, and a recheck reopens it for observation. */
  lemma RecheckFindsJob(db: Store, actor: M.User, workspace: Id, id: Id)
    requires ControlLoad(db, actor, workspace, id).Done? && EntryOk(db.entries[id])
    requires db.entries[id].operation.state.Unknown? && !db.entries[id].resolved
    ensures var (db', code) := Recheck(db, actor, workspace, id);
            && code.Done? && db'.entries[id].operation.state.Reconciling? && HasActiveJob(db'.entries[id]) && db'.entries[id].locked
            && db'.entries[id].job.value.attempts == 0 && db'.entries[id].job.value.deadline == db.now + RECHECK_SECONDS
  {
    assert db.entries[id].locked && db.entries[id].job.Some?;
    RecheckShape(db, actor, workspace, id);
  }

  // ---- Draining exhausted jobs ----

  function ExhaustedIds(db: Store): set<Id> {
    set id | id in db.entries && Exhausted(db.entries[id], db.now)
  }

  /** One call checkpoints its selection one operation at a time. */
  function ExpireEach(db: Store, ids: seq<Id>): Store
    decreases |ids|
  {
    if ids == [] then db else ExpireEach(ExpireOne(db, ids[0]), ids[1..])
  }

  lemma ExpireOneSettles(db: Store, id: Id)
    requires id in db.entries && Exhausted(db.entries[id], db.now)
    ensures ExhaustedIds(ExpireOne(db, id)) == ExhaustedIds(db) - {id}
    ensures ExpireOne(db, id).now == db.now
  {
    var db' := ExpireOne(db, id);
    assert !HasActiveJob(db'.entries[id]);
    forall x | x != id ensures x in ExhaustedIds(db') <==> x in ExhaustedIds(db) {
    }
  }

  lemma {:induction false} ExpireEachSettles(db: Store, ids: seq<Id>)
    requires forall i :: 0 <= i < |ids| ==> ids[i] in ExhaustedIds(db)
    requires forall i, j :: 0 <= i < j < |ids| ==> ids[i] < ids[j]
    ensures ExhaustedIds(ExpireEach(db, ids)) == ExhaustedIds(db) - Elements(ids)
    decreases |ids|
  {
    if ids != [] {
      ExpireOneSettles(db, ids[0]);
      var rest := ids[1..];
      forall i | 0 <= i < |rest| ensures rest[i] in ExhaustedIds(ExpireOne(db, ids[0])) {
        assert ids[0] < ids[i + 1];
      }
      ExpireEachSettles(ExpireOne(db, ids[0]), rest);
      assert Elements(ids) == {ids[0]} + Elements(rest);
    }
  }

  /** A sequence of calls, each over its own selection, with nothing in between. */
  ghost predicate Calls(db: Store, batches: seq<seq<Id>>)
    decreases |batches|
  {
    batches == [] || (Selection(batches[0], ExhaustedIds(db), EXPIRE_BATCH) && Calls(ExpireEach(db, batches[0]), batches[1..]))
  }

  function AfterCalls(db: Store, batches: seq<seq<Id>>): Store
    decreases |batches|
  {
    if batches == [] then db else AfterCalls(ExpireEach(db, batches[0]), batches[1..])
  }

  /** n exhausted jobs are drained by the first k calls exactly when 50 k >= n, that is, by the ceiling of n / 50 calls. */
  lemma {:induction false} Drains(db: Store, batches: seq<seq<Id>>)
    requires Calls(db, batches)
    ensures ExhaustedIds(AfterCalls(db, batches)) == {} <==> EXPIRE_BATCH * |batches| >= |ExhaustedIds(db)|
    decreases |batches|
  {
    if batches == [] {
      assert |ExhaustedIds(db)| == 0 <==> ExhaustedIds(db) == {};
    } else {
      var ids := batches[0];
      var left := ExhaustedIds(ExpireEach(db, ids));
      ExpireEachSettles(db, ids);
      SelectionLeaves(ids, ExhaustedIds(db), EXPIRE_BATCH);
      Drains(ExpireEach(db, ids), batches[1..]);
    }
  }

  /** Exhausted work that was never sent fails; submitted work becomes unknown and keeps its reservation. */
  lemma ExpiryOutcome(e: Entry, now: int)
    requires EntryOk(e) && Exhausted(e, now)
    ensures var e' := ExpireEntry(e, now);
            && !HasActiveJob(e')
            && (e.operation.state.Queued? ==> e'.operation.state.Failed? && !e'.locked)
            && (InFlight(e.operation.state) ==> e'.operation.state.Unknown? && e'.locked && !e'.resolved)
  {
  }
}
