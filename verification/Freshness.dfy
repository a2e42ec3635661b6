/**
 What a committed dispatching marker proves about the time since its review: no membership, grant
 or settings change in the workspace, no credential rotation, and an open recovery gate.
 */
module Freshness {
  import opened Options
  import opened Lifecycle
  import opened Receipts
  import opened Tables
  import opened Transactions
  import opened Protocol
  import opened ProtocolInvariant
  import opened ProtocolSteps
  import opened ProtocolHistory
  import opened Submission
  import M = Membership

  // ---- Authority counts its changes ----

  ghost predicate Known(db: Store, workspace: Id, connection: Id) {
    workspace in db.workspaces && connection in db.connections
  }

  /** Nothing a review depends on differs: members, grants, settings, credential, verified actions. */
  ghost predicate Unmoved(db: Store, db': Store, workspace: Id, connection: Id) {
    && Known(db, workspace, connection) && Known(db', workspace, connection)
    && M.SameAuthority(db.workspaces[workspace], db'.workspaces[workspace])
    && db'.workspaces[workspace].policy == db.workspaces[workspace].policy
    && db'.connections[connection].(active := true) == db.connections[connection].(active := true)
  }

  /** Each counter only grows, and while both stand still nothing moved. */
  ghost predicate Counted(db: Store, db': Store, workspace: Id, connection: Id) {
    && Known(db, workspace, connection) && Known(db', workspace, connection)
    && db.workspaces[workspace].policy <= db'.workspaces[workspace].policy
    && db.connections[connection].credential <= db'.connections[connection].credential
    && (db'.workspaces[workspace].policy == db.workspaces[workspace].policy
        && db'.connections[connection].credential == db.connections[connection].credential
        ==> Unmoved(db, db', workspace, connection))
  }

  /** The steps that can move a counter. */
  ghost predicate AuthorityStep(s: Step) {
    s.AuthorityChange? || s.RotateCredential? || s.DisableConnection?
  }

  lemma ConfirmAuthority(db: Store, sv: Service, q: Request, hash: Digest, facts: Facts, recent: bool, live: bool, fault: bool, others: nat, id: Id)
    ensures var db' := ConfirmSecond(db, sv, q, hash, facts, recent, live, fault, others, id).0;
            db'.workspaces == db.workspaces && db'.connections == db.connections
  {
  }

  lemma OtherStepAuthority(w: World, s: Step)
    requires !AuthorityStep(s)
    ensures Apply(w, s).db.workspaces == w.db.workspaces && Apply(w, s).db.connections == w.db.connections
  {
    if OwnStep(s) {
      OwnStepFrame(w, s);
    } else if OutsideStep(s) {
      OutsideStepFrame(w, s);
    } else {
      ClientStepAuthority(w, s);
    }
  }

  lemma ClientStepAuthority(w: World, s: Step)
    requires !AuthorityStep(s) && !OwnStep(s) && !OutsideStep(s)
    ensures Apply(w, s).db.workspaces == w.db.workspaces && Apply(w, s).db.connections == w.db.connections
  {
    match s
    case WriteConfirm(client, sv, facts, recent, live, fault, others, id) =>
      var c := ClientOf(w, client);
      if c.Confirming? {
        ConfirmAuthority(w.db, sv, c.request, c.hash, facts, recent, live, fault, others, id);
      }
    case WriteReview(client, sv, facts, recent, live, fault, review) =>
      var c := ClientOf(w, client);
      if c.Reviewing? {
        StoreReviewShape(w.db, sv, c.actor, c.workspace, c.resource, c.action, c.seen, facts, recent, live, fault, review);
      }
    case _ =>
  }

  lemma ChangeCounts(w: World, s: Step, workspace: Id, connection: Id)
    requires Known(w.db, workspace, connection) && s.AuthorityChange?
    ensures Counted(w.db, Apply(w, s).db, workspace, connection)
  {
    if s.workspace in w.db.workspaces {
      M.PolicyStep(w.db.workspaces[s.workspace], s.change);
    }
  }

  lemma ConnectionCounts(w: World, s: Step, workspace: Id, connection: Id)
    requires Known(w.db, workspace, connection) && (s.RotateCredential? || s.DisableConnection?)
    ensures Counted(w.db, Apply(w, s).db, workspace, connection)
  {
    if s.RotateCredential? {
      RotationCounts(w, s, workspace, connection);
    } else {
      DisablingCounts(w, s, workspace, connection);
    }
  }

  lemma RotationCounts(w: World, s: Step, workspace: Id, connection: Id)
    requires Known(w.db, workspace, connection) && s.RotateCredential?
    ensures Counted(w.db, Apply(w, s).db, workspace, connection)
  {
  }

  lemma DisablingCounts(w: World, s: Step, workspace: Id, connection: Id)
    requires Known(w.db, workspace, connection) && s.DisableConnection?
    ensures Counted(w.db, Apply(w, s).db, workspace, connection)
  {
  }

  lemma StepCounts(w: World, s: Step, workspace: Id, connection: Id)
    requires Known(w.db, workspace, connection)
    ensures Counted(w.db, Apply(w, s).db, workspace, connection)
  {
    if s.AuthorityChange? {
      ChangeCounts(w, s, workspace, connection);
    } else if AuthorityStep(s) {
      ConnectionCounts(w, s, workspace, connection);
    } else {
      OtherStepAuthority(w, s);
    }
  }

  lemma {:induction false} RunCounts(w: World, steps: seq<Step>, workspace: Id, connection: Id)
    requires Known(w.db, workspace, connection)
    ensures Counted(w.db, Run(w, steps).db, workspace, connection)
    decreases |steps|
  {
    if steps != [] {
      StepCounts(w, steps[0], workspace, connection);
      RunCounts(Apply(w, steps[0]), steps[1..], workspace, connection);
    }
  }

  /** Equal counters at both ends of a run pin everything at every point between. */
  lemma Pinned(w: World, steps: seq<Step>, workspace: Id, connection: Id, k: nat)
    requires Known(w.db, workspace, connection) && k <= |steps|
    requires var db' := Run(w, steps).db;
             && Known(db', workspace, connection)
             && db'.workspaces[workspace].policy == w.db.workspaces[workspace].policy
             && db'.connections[connection].credential == w.db.connections[connection].credential
    ensures Unmoved(w.db, Run(w, steps[..k]).db, workspace, connection)
  {
    var mid := Run(w, steps[..k]);
    assert Run(mid, steps[k..]) == Run(w, steps) by {
      RunSplits(w, steps[..k], steps[k..]);
      assert steps[..k] + steps[k..] == steps;
    }
    RunCounts(w, steps[..k], workspace, connection);
    RunCounts(mid, steps[k..], workspace, connection);
    Squeezed(w.db, mid.db, Run(w, steps).db, workspace, connection);
  }

  /** Counters that only grow and end where they began never moved. */
  lemma Squeezed(a: Store, b: Store, c: Store, workspace: Id, connection: Id)
    requires Counted(a, b, workspace, connection) && Counted(b, c, workspace, connection)
    requires c.workspaces[workspace].policy == a.workspaces[workspace].policy
    requires c.connections[connection].credential == a.connections[connection].credential
    ensures Unmoved(a, b, workspace, connection)
  {
  }

  // ---- Reviews are written once ----

  ghost predicate SameReview(r: Review, r': Review) {
    r' == r.(consumed := r'.consumed)
  }

  /** Fresh identifiers: no step of the run draws this review's again. */
  ghost predicate NeverDrawn(steps: seq<Step>, review: Id) {
    forall i :: 0 <= i < |steps| && steps[i].WriteReview? ==> steps[i].review != review
  }

  lemma ConfirmReviews(db: Store, sv: Service, q: Request, hash: Digest, facts: Facts, recent: bool, live: bool, fault: bool, others: nat, id: Id, review: Id)
    ensures var db' := ConfirmSecond(db, sv, q, hash, facts, recent, live, fault, others, id).0;
            && (review in db'.reviews <==> review in db.reviews)
            && (review in db.reviews ==> SameReview(db.reviews[review], db'.reviews[review]))
  {
  }

  lemma ClientStepReviews(w: World, s: Step, review: Id)
    requires !OwnStep(s) && !OutsideStep(s) && (s.WriteReview? ==> s.review != review)
    ensures review in Apply(w, s).db.reviews ==>
              review in w.db.reviews && SameReview(w.db.reviews[review], Apply(w, s).db.reviews[review])
  {
    match s
    case WriteConfirm(_, _, _, _, _, _, _, _) => ConfirmStepReviews(w, s, review);
    case WriteReview(_, _, _, _, _, _, _) => StoreStepReviews(w, s, review);
    case _ => RestStepReviews(w, s, review);
  }

  lemma ConfirmStepReviews(w: World, s: Step, review: Id)
    requires s.WriteConfirm?
    ensures review in Apply(w, s).db.reviews ==>
              review in w.db.reviews && SameReview(w.db.reviews[review], Apply(w, s).db.reviews[review])
  {
    var c := ClientOf(w, s.client);
    if c.Confirming? {
      ConfirmReviews(w.db, s.sv, c.request, c.hash, s.facts, s.recent, s.live, s.fault, s.others, s.id, review);
    }
  }

  lemma StoreStepReviews(w: World, s: Step, review: Id)
    requires s.WriteReview? && s.review != review
    ensures review in Apply(w, s).db.reviews ==> review in w.db.reviews && Apply(w, s).db.reviews[review] == w.db.reviews[review]
  {
  }

  lemma RestStepReviews(w: World, s: Step, review: Id)
    requires !OwnStep(s) && !OutsideStep(s) && !s.WriteReview? && !s.WriteConfirm?
    ensures review in Apply(w, s).db.reviews ==> review in w.db.reviews && Apply(w, s).db.reviews[review] == w.db.reviews[review]
  {
  }

  lemma StepReviews(w: World, s: Step, review: Id)
    requires s.WriteReview? ==> s.review != review
    ensures review in Apply(w, s).db.reviews ==>
              review in w.db.reviews && SameReview(w.db.reviews[review], Apply(w, s).db.reviews[review])
  {
    if OwnStep(s) {
      OwnStepFrame(w, s);
    } else if OutsideStep(s) {
      OutsideStepFrame(w, s);
    } else {
      ClientStepReviews(w, s, review);
    }
  }

  lemma {:induction false} RunReviews(w: World, steps: seq<Step>, review: Id)
    requires NeverDrawn(steps, review)
    ensures review in Run(w, steps).db.reviews ==>
              review in w.db.reviews && SameReview(w.db.reviews[review], Run(w, steps).db.reviews[review])
    decreases |steps|
  {
    if steps != [] {
      StepReviews(w, steps[0], review);
      assert NeverDrawn(steps[1..], review);
      RunReviews(Apply(w, steps[0]), steps[1..], review);
    }
  }

  // ---- Freshness of a marker ----

  lemma StoredReviewIsCurrent(db: Store, sv: Service, actor: M.User, workspace: Id, resource: Id, action: Action,
                              seen: View, facts: Facts, recent: bool, live: bool, fault: bool, review: Id)
    requires review !in db.reviews
    ensures var db' := StoreReview(db, sv, actor, workspace, resource, action, seen, facts, recent, live, fault, review).0;
            review in db'.reviews ==>
              var r := db'.reviews[review];
              && Known(db', r.workspace, r.connection)
              && r.policy.workspace == db'.workspaces[r.workspace].policy && r.policy == seen.stamp
              && r.credential == db'.connections[r.connection].credential && r.credential == seen.credential
  {
  }

  /** What the transaction that commits a marker has just compared. */
  lemma MarkerChecks(db: Store, sv: Service, l: Claimed, fingerprint: nat, live: bool, fault: bool)
    requires Mark(db, sv, l, fingerprint, live, fault).1.Done?
    ensures l.operation in db.entries && db.entries[l.operation].operation.review in db.reviews && db.gate.open
    ensures var o := db.entries[l.operation].operation; var r := db.reviews[o.review];
            && Known(db, o.workspace, o.connection) && db.connections[o.connection].active
            && db.workspaces[o.workspace].policy == r.policy.workspace && sv.switches == r.policy.switches
            && db.connections[o.connection].credential == r.credential
            && fingerprint == r.fingerprint
            && M.IsMember(db.workspaces[o.workspace], o.actor)
            && (if r.high || SnapshotAction(r.action) then M.HighImpact else M.Operate) in M.Granted(db.workspaces[o.workspace], o.connection, o.actor)
  {
  }

  /** The versions a review names are the current ones. */
  ghost predicate NamesCurrent(db: Store, r: Review) {
    && Known(db, r.workspace, r.connection)
    && db.workspaces[r.workspace].policy == r.policy.workspace && db.connections[r.connection].credential == r.credential
  }

  lemma StoredNamesCurrent(w: World, write: Step)
    requires write.WriteReview? && write.review !in w.db.reviews && write.review in Apply(w, write).db.reviews
    ensures NamesCurrent(Apply(w, write).db, Apply(w, write).db.reviews[write.review])
  {
    var c := ClientOf(w, write.client);
    StoredReviewIsCurrent(w.db, write.sv, c.actor, c.workspace, c.resource, c.action, c.seen, write.facts, write.recent, write.live, write.fault, write.review);
  }

  lemma MarkedNamesCurrent(w: World, mark: Step, id: Id)
    requires Inv(w) && mark.CommitMarker? && WorkerOf(w, mark.worker).claim.operation == id && MarksFor(w, mark, id)
    ensures w.db.gate.open && w.db.entries[id].operation.review in w.db.reviews
    ensures NamesCurrent(w.db, w.db.reviews[w.db.entries[id].operation.review])
  {
    var x := WorkerOf(w, mark.worker);
    MarkerChecks(w.db, mark.sv, x.claim, x.pc.fingerprint, mark.live, mark.fault);
    BoundIn(w, id);
  }

  /**
   When a dispatching marker commits, no membership, grant or settings change in the workspace and
   no credential rotation on the connection happened at any point since the review was stored.
   */
  lemma NothingChangedSinceReview(w: World, write: Step, steps: seq<Step>, mark: Step, k: nat)
    requires Inv(w) && write.WriteReview? && mark.CommitMarker? && k <= |steps|
    requires write.review !in w.db.reviews && write.review in Apply(w, write).db.reviews
    requires NeverDrawn(steps, write.review)
    requires var w2 := Run(Apply(w, write), steps); var id := WorkerOf(w2, mark.worker).claim.operation;
             MarksFor(w2, mark, id) && w2.db.entries[id].operation.review == write.review
    ensures var w1 := Apply(w, write); var r := w1.db.reviews[write.review];
            Unmoved(w1.db, Run(w1, steps[..k]).db, r.workspace, r.connection)
    ensures Run(Apply(w, write), steps).db.gate.open
  {
    StoredNamesCurrent(w, write);
    StepKeeps(w, write);
    UnmovedBetween(Apply(w, write), write.review, steps, mark, k);
  }

  lemma UnmovedBetween(w: World, review: Id, steps: seq<Step>, mark: Step, k: nat)
    requires Inv(w) && review in w.db.reviews && NamesCurrent(w.db, w.db.reviews[review]) && NeverDrawn(steps, review)
    requires mark.CommitMarker? && k <= |steps|
    requires var w2 := Run(w, steps); var id := WorkerOf(w2, mark.worker).claim.operation;
             MarksFor(w2, mark, id) && w2.db.entries[id].operation.review == review
    ensures var r := w.db.reviews[review]; Unmoved(w.db, Run(w, steps[..k]).db, r.workspace, r.connection)
    ensures Run(w, steps).db.gate.open
  {
    var w2, r := Run(w, steps), w.db.reviews[review];
    RunKeeps(w, steps);
    MarkedNamesCurrent(w2, mark, WorkerOf(w2, mark.worker).claim.operation);
    RunReviews(w, steps, review);
    Pinned(w, steps, r.workspace, r.connection, k);
  }

  lemma BoundIn(w: World, id: Id)
    requires Inv(w) && id in w.db.entries
    ensures Reviewed(w.db, id)
  {
  }

  /** The same for the gap inside a review: from its first read to the moment it is stored. */
  lemma NothingChangedWhileReviewing(w: World, steps: seq<Step>, sv: Service, actor: M.User, workspace: Id, resource: Id, action: Action,
                                     facts: Facts, recent: bool, live: bool, fault: bool, live': bool, fault': bool, review: Id, k: nat)
    requires k <= |steps| && Authority(w.db, sv, actor, workspace, resource, live, fault).Some?
    requires var seen := Authority(w.db, sv, actor, workspace, resource, live, fault).value; var w2 := Run(w, steps);
             && StoreReview(w2.db, sv, actor, workspace, resource, action, seen, facts, recent, live', fault', review).1.Done?
             && resource in w2.db.resources && w2.db.resources[resource] == w.db.resources[resource]
    ensures Unmoved(w.db, Run(w, steps[..k]).db, workspace, w.db.resources[resource].connection)
  {
    Pinned(w, steps, workspace, w.db.resources[resource].connection, k);
  }

  // ---- The recovery gate ----

  /** Every step from queued to dispatching is a marker, committed under a live lease while the gate is open. */
  lemma DispatchNeedsOpenGate(w: World, s: Step, id: Id)
    requires Inv(w) && MarksFor(w, s, id)
    ensures s.CommitMarker? && w.db.gate.open
    ensures WorkerOf(w, s.worker).claim.operation == id && LeaseLive(w.db, WorkerOf(w, s.worker).claim)
  {
    StepMoves(w, s, id);
    MarkerStep(w, s, id);
  }

  lemma ClientStepGate(w: World, s: Step)
    requires !OwnStep(s) && !OutsideStep(s) && !s.SetGate?
    ensures Apply(w, s).db.gate == w.db.gate
  {
    match s
    case WriteConfirm(client, sv, facts, recent, live, fault, others, id) =>
      var c := ClientOf(w, client);
      if c.Confirming? {
        ConfirmGate(w.db, sv, c.request, c.hash, facts, recent, live, fault, others, id);
      }
    case _ =>
  }

  lemma StepGate(w: World, s: Step)
    requires !s.SetGate?
    ensures Apply(w, s).db.gate == w.db.gate
  {
    if OwnStep(s) {
      OwnStepFrame(w, s);
    } else if OutsideStep(s) {
      OutsideStepFrame(w, s);
    } else {
      ClientStepGate(w, s);
    }
  }

  lemma ConfirmGate(db: Store, sv: Service, q: Request, hash: Digest, facts: Facts, recent: bool, live: bool, fault: bool, others: nat, id: Id)
    ensures ConfirmSecond(db, sv, q, hash, facts, recent, live, fault, others, id).0.gate == db.gate
  {
  }

  /** Only an operator with the current version reopens the gate, and only when nothing submitted is unresolved. */
  lemma ReopeningIsSafe(w: World, s: Step)
    requires !w.db.gate.open && Apply(w, s).db.gate.open
    ensures s.SetGate? && s.version == w.db.gate.version
    ensures forall id :: id in w.db.entries ==> !Unresolved(w.db.entries[id])
  {
    if !s.SetGate? {
      StepGate(w, s);
    }
  }

  lemma {:induction false} GateVersionGrows(w: World, steps: seq<Step>)
    ensures Run(w, steps).db.gate.version >= w.db.gate.version
    ensures Run(w, steps).db.gate.version == w.db.gate.version ==> Run(w, steps).db.gate == w.db.gate
    decreases |steps|
  {
    if steps != [] {
      if !steps[0].SetGate? {
        StepGate(w, steps[0]);
      }
      GateVersionGrows(Apply(w, steps[0]), steps[1..]);
    }
  }

  /** A version inspected before any other change of the gate is refused for ever after that change. */
  lemma StaleReopenRefused(w: World, change: Step, steps: seq<Step>, version: int)
    requires change.SetGate? && version <= w.db.gate.version && Apply(w, change).db.gate != w.db.gate
    ensures var db := Run(Apply(w, change), steps).db; SetRecovery(db, true, version) == (db, ErrStale)
  {
    GateVersionGrows(Apply(w, change), steps);
  }

  /** Submitted without a definite outcome, and nobody has signed it off. */
  predicate LeftOpen(e: Entry) {
    match e.operation.state
    case Dispatching => true
    case WaitingProvider => true
    case Reconciling => true
    case Unknown => e.locked
    case _ => false
  }

  /** The gate closes always, and opens exactly for the current version with nothing submitted left open. */
  lemma GateExactly(db: Store, open: bool, version: int)
    ensures var (db', code) := SetRecovery(db, open, version);
      && db' == db.(gate := db'.gate)
      && (code.Done? <==> !open || (version == db.gate.version && forall id :: id in db.entries ==> !LeftOpen(db.entries[id])))
      && db'.gate == (if code.Done? then Gate(open, db.gate.version + 1) else db.gate)
      && (!code.Done? ==> code == if version == db.gate.version then ErrRecovery else ErrStale)
  {
    assert forall id :: id in db.entries ==> Unresolved(db.entries[id]) == LeftOpen(db.entries[id]);
  }

  /** No step of these opens the gate. */
  ghost predicate NeverOpened(w: World, steps: seq<Step>)
    decreases |steps|
  {
    steps == [] || (!Apply(w, steps[0]).db.gate.open && NeverOpened(Apply(w, steps[0]), steps[1..]))
  }

  lemma {:induction false} ShutMarksNothing(w: World, steps: seq<Step>, id: Id)
    requires Inv(w) && !w.db.gate.open && NeverOpened(w, steps)
    ensures Markings(w, steps, id) == 0 && !Run(w, steps).db.gate.open
    decreases |steps|
  {
    if steps != [] {
      if MarksFor(w, steps[0], id) {
        DispatchNeedsOpenGate(w, steps[0], id);
      }
      StepKeeps(w, steps[0]);
      ShutMarksNothing(Apply(w, steps[0]), steps[1..], id);
    }
  }

  /** Once an operator shuts the gate nothing goes from queued to dispatching until a step opens it again. */
  lemma NothingDispatchedOnceShut(w: World, version: int, steps: seq<Step>, id: Id)
    requires Inv(w) && NeverOpened(Apply(w, SetGate(false, version)), steps)
    ensures Markings(Apply(w, SetGate(false, version)), steps, id) == 0
  {
    GateExactly(w.db, false, version);
    StepKeeps(w, SetGate(false, version));
    ShutMarksNothing(Apply(w, SetGate(false, version)), steps, id);
  }

  /** And the only step that opens it is a reopening at the current version with nothing submitted left open. */
  lemma OpensExactly(w: World, s: Step)
    requires !w.db.gate.open
    ensures Apply(w, s).db.gate.open <==>
            s.SetGate? && s.open && s.version == w.db.gate.version && forall id :: id in w.db.entries ==> !LeftOpen(w.db.entries[id])
  {
    if s.SetGate? {
      GateExactly(w.db, s.open, s.version);
    } else {
      StepGate(w, s);
    }
  }
}
