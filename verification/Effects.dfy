/**
 What every transaction on one operation achieves, in terms of its rows: exactly when it takes effect, everything
 it leaves behind, and what each refusal means.
 */
module Effects {
  import opened Options
  import opened Lifecycle
  import opened Receipts
  import opened Text
  import opened Tables
  import opened Rows
  import opened Transactions
  import opened Leases
  import opened Protocol
  import opened Causes
  import opened Coverage
  import opened Answers
  import M = Membership

  /** The caller keeps the lease of an operation whose review exists. */
  predicate Owner(db: Store, l: Claimed) {
    && l.operation in db.entries && Keeps(db.entries[l.operation], l, db.now)
    && db.entries[l.operation].operation.review in db.reviews
  }

  lemma OwnerLoads(db: Store, l: Claimed)
    ensures Loadable(db, l) <==> Owner(db, l)
  {
  }

  // ---- What may follow what, and what may be stored ----

  /** The moves of the lifecycle, one by one. */
  lemma MovesExactly(from: OpState, to: OpState)
    ensures Allowed(from, to) <==>
            (from, to) in {
              (Queued, Dispatching), (Queued, Cancelled), (Queued, Failed),
              (Dispatching, WaitingProvider), (Dispatching, Reconciling), (Dispatching, Succeeded), (Dispatching, Failed),
              (WaitingProvider, WaitingProvider), (WaitingProvider, Reconciling), (WaitingProvider, Succeeded), (WaitingProvider, Failed),
              (Reconciling, WaitingProvider), (Reconciling, Reconciling), (Reconciling, Succeeded), (Reconciling, Failed), (Reconciling, Unknown),
              (Unknown, Reconciling)}
  {
  }

  /** A letter or digit and then at most 127 letters, digits, dots, underscores, colons and dashes. */
  predicate ReferenceText(s: string) {
    && 1 <= |s| <= 128 && s[0] !in {'.', '_', ':', '-'}
    && forall i :: 0 <= i < |s| ==> 'A' <= s[i] <= 'Z' || 'a' <= s[i] <= 'z' || '0' <= s[i] <= '9' || s[i] in {'.', '_', ':', '-'}
  }

  /** A native reference is such a text; a snapshot's is one to three of them, separated by slashes. */
  lemma ReferencesInChars(s: string)
    ensures NativeReference(s) <==> ReferenceText(s)
    ensures SnapshotReference(s) <==> |Split(s, '/')| <= 3 && forall p :: p in Split(s, '/') ==> ReferenceText(p)
  {
    forall t ensures NativeReference(t) <==> ReferenceText(t) {
      forall i | 0 <= i < |t|
        ensures ReferenceChar(t[i]) <==>
                'A' <= t[i] <= 'Z' || 'a' <= t[i] <= 'z' || '0' <= t[i] <= '9' || t[i] in {'.', '_', ':', '-'}
      {
      }
    }
  }

  // ---- The read before dispatch ----

  /** One to 200 characters, none of them a control character. */
  predicate NameText(name: string) {
    1 <= |name| <= 200 && forall i :: 0 <= i < |name| ==> name[i] >= ' ' && !('\U{7f}' <= name[i] <= '\U{9f}')
  }

  lemma NamesInRows(name: string)
    ensures ValidTargetName(name) <==> NameText(name)
  {
  }

  /** Work goes on to dispatch exactly when all of it was read, it is still meant, and the provider still offers it. */
  lemma PassesExactly(db: Store, sv: Service, l: Claimed, live: bool, reading: Reading, facts: Facts)
    ensures InspectDispatch(db, sv, l, live, reading, facts).Done? <==>
            && reading.AllRead? && Owner(db, l)
            && var o := db.entries[l.operation].operation; var r := db.reviews[o.review];
            && o.state.Queued? && StillMeant(db, sv, o, r, live) && StillOffers(db, sv, o, r, facts)
            && facts.readable && (SnapshotAction(r.action) ==> facts.high) && NameText(facts.name)
  {
    OwnerLoads(db, l);
    NamesInRows(facts.name);
    if Owner(db, l) {
      var o := db.entries[l.operation].operation;
      var r := db.reviews[o.review];
      AuthorityRows(db, sv, o.actor, o.workspace, o.resource, r.action, r.high);
    }
  }

  // ---- The worker's commits ----

  /** A marker commits exactly for queued work that is still meant, under the caller's lease, with the gate open. */
  lemma MarksExactly(db: Store, sv: Service, l: Claimed, fingerprint: nat, live: bool, fault: bool)
    ensures var (db', code) := Mark(db, sv, l, fingerprint, live, fault);
      && (code.Done? <==>
            && Owner(db, l) && db.gate.open && !fault
            && var o := db.entries[l.operation].operation; var r := db.reviews[o.review];
            o.state.Queued? && StillMeant(db, sv, o, r, live) && fingerprint == r.fingerprint)
      && (!code.Done? ==> db' == db)
      && (code.Done? ==>
            && OthersSame(db, db', l.operation)
            && var e, e' := db.entries[l.operation], db'.entries[l.operation];
            Stepped(e, e', Dispatching) && e'.job == e.job && e'.operation.reference == e.operation.reference)
  {
    OwnerLoads(db, l);
    if Owner(db, l) {
      var o := db.entries[l.operation].operation;
      var r := db.reviews[o.review];
      AuthorityRows(db, sv, o.actor, o.workspace, o.resource, r.action, r.high);
    }
  }

  lemma MarkRefused(db: Store, sv: Service, l: Claimed, fingerprint: nat, live: bool, fault: bool)
    ensures
      match Mark(db, sv, l, fingerprint, live, fault).1
      case Done => true
      case ErrLease => !Owner(db, l)
      case ErrRecovery => !db.gate.open
      case ErrStale =>
        && Owner(db, l)
        && var o := db.entries[l.operation].operation; var r := db.reviews[o.review];
        !o.state.Queued? || fingerprint != r.fingerprint || !StillMeant(db, sv, o, r, live)
      case ErrDenied =>
        && Owner(db, l)
        && var o := db.entries[l.operation].operation;
        fault || !StillMeant(db, sv, o, db.reviews[o.review], live)
      case ErrUnsupported =>
        && Owner(db, l)
        && var o := db.entries[l.operation].operation;
        !StillMeant(db, sv, o, db.reviews[o.review], live)
      case _ => false
  {
  }

  /** Work is failed unsent exactly while it is queued, under the caller's lease, and for a reason that is definite. */
  lemma RejectsExactly(db: Store, l: Claimed, cause: Code)
    ensures var (db', code) := RejectUnsent(db, l, cause); var definite := cause == ErrDenied || cause == ErrStale || cause == ErrUnsupported;
      && code == (if !definite then cause else if !Owner(db, l) then ErrLease
                  else if !db.entries[l.operation].operation.state.Queued? then ErrState else Done)
      && if definite && code.Done?
         then
           && OthersSame(db, db', l.operation)
           && var e, e' := db.entries[l.operation], db'.entries[l.operation];
           Stepped(e, e', Failed) && Ended(e, e', JobFailed, db.now) && e'.operation.reference == e.operation.reference
         else db' == db
  {
    OwnerLoads(db, l);
  }

  /** The answer to a submission is stored exactly once, under the caller's lease: its reference, the next state and the job. */
  lemma StoresReceipt(db: Store, l: Claimed, reply: Reply, delay: nat)
    ensures var (db', code) := StoreReceipt(db, l, reply, delay);
      && code == (if !Owner(db, l) then ErrLease else if !db.entries[l.operation].operation.state.Dispatching? then ErrState else Done)
      && (!code.Done? ==> db' == db)
      && (code.Done? ==>
            && OthersSame(db, db', l.operation)
            && var e, e' := db.entries[l.operation], db'.entries[l.operation];
            if !reply.failed && reply.verdict.Rejected? && reply.reference == ""
            then Stepped(e, e', Failed) && Ended(e, e', JobFailed, db.now) && e'.operation.reference.None?
            else
              && Requeued(e, e', delay, db.now)
              && if !reply.failed && reply.verdict.Accepted? && StorableReference(e.operation.action, Some(reply.reference))
                 then Stepped(e, e', WaitingProvider) && e'.operation.reference == Some(reply.reference)
                 else Stepped(e, e', Reconciling) && e'.operation.reference.None?)
  {
    OwnerLoads(db, l);
    if Owner(db, l) {
      ReceiptSoundness(db.entries[l.operation].operation.action, reply);
      ReceiptReference(db.entries[l.operation].operation.action, reply);
    }
  }

  lemma ReceiptReference(action: Action, r: Reply)
    ensures var (to, reference) := ClassifyActionReceipt(action, r);
            reference == if to.WaitingProvider? then Some(r.reference) else None
  {
  }

  /** What an observation argues for: an outcome only on native evidence, and waiting only with a reference to wait for. */
  lemma ConcludesExactly(x: Observation, referenced: bool)
    ensures var to := Conclusion(x, referenced);
      && (to.Succeeded? <==> !x.failed && x.sight.SeenSucceeded? && x.native)
      && (to.Failed? <==> !x.failed && x.sight.SeenFailed? && x.native)
      && (to.Unknown? <==> !x.failed && x.sight.SeenUnknown?)
      && (to.WaitingProvider? <==> !x.failed && x.sight.Pending? && referenced)
      && (to.Succeeded? || to.Failed? || to.Unknown? || to.WaitingProvider? || to.Reconciling?)
  {
  }

  /** Through reconciling to unknown when it was not reconciling yet, and otherwise straight there. */
  predicate Settles(e: Entry, e': Entry, to: OpState) {
    var o, o' := e.operation, e'.operation;
    if to.Unknown? && !o.state.Reconciling?
    then
      && o' == o.(state := Unknown, sequence := o.sequence + 2)
      && e'.events == e.events + [Event(o.sequence + 1, Some(o.state), Reconciling), Event(o.sequence + 2, Some(Reconciling), Unknown)]
      && e'.locked == e.locked && e'.resolved == e.resolved
    else Stepped(e, e', to) && o'.reference == o.reference
  }

  lemma SettlesInRows(e: Entry, to: OpState)
    requires InFlight(e.operation.state)
    ensures Settles(e, Settle(e, to), to) && Settle(e, to).job == e.job
  {
    var o := e.operation;
    assert e.events + [Event(o.sequence + 1, Some(o.state), Reconciling)] + [Event(o.sequence + 2, Some(Reconciling), Unknown)]
      == e.events + [Event(o.sequence + 1, Some(o.state), Reconciling), Event(o.sequence + 2, Some(Reconciling), Unknown)];
  }

  /** An observation is stored exactly if the operation is still in the submitted state it was made in. */
  lemma StoresObservation(db: Store, l: Claimed, from: OpState, to: OpState, delay: nat)
    ensures var (db', code) := StoreObservation(db, l, from, to, delay);
      && code == (if !Owner(db, l) then ErrLease
                  else if db.entries[l.operation].operation.state == from && (from.Dispatching? || from.WaitingProvider? || from.Reconciling?)
                  then Done else ErrState)
      && (!code.Done? ==> db' == db)
      && (code.Done? ==>
            && OthersSame(db, db', l.operation)
            && var e, e' := db.entries[l.operation], db'.entries[l.operation];
            && Settles(e, e', to)
            && (if to.Succeeded? || to.Failed? || to.Unknown? then Ended(e, e', JobSucceeded, db.now) else Requeued(e, e', delay, db.now)))
  {
    OwnerLoads(db, l);
    if Owner(db, l) && InFlight(db.entries[l.operation].operation.state) {
      SettlesInRows(db.entries[l.operation], to);
    }
  }

  // ---- Reviews ----

  /** The provider's answer can be reviewed: read, allowed, and naming something that can be shown. */
  predicate Reviewable(sv: Service, family: nat, action: Action, facts: Facts) {
    && sv.enabled && (family, action) in sv.reviewers && (family, action) in sv.permits
    && facts.readable && (SnapshotAction(action) ==> facts.high) && facts.allowed && facts.fingerprint != 0 && NameText(facts.name)
  }

  /** What was seen before the provider was asked allowed the action in at least one of its two classes. */
  predicate SeenAllowed(seen: View, action: Action) {
    && seen.target.kind == TargetKind(action) && action in seen.verified
    && (seen.role.Operator? || seen.role.Admin? || seen.role.Owner?)
    && (M.HighImpact in seen.classes || (M.Operate in seen.classes && !SnapshotAction(action)))
  }

  /** The resource is live and the actor may act on it, under the versions that were seen before. */
  predicate StillSeen(db: Store, sv: Service, actor: M.User, workspace: Id, resource: Id, action: Action, high: bool, seen: View) {
    && workspace in db.workspaces && resource in db.resources
    && var t := db.resources[resource];
    && t.workspace == workspace && t.kind == TargetKind(action) && t.connection in db.connections
    && var c := db.connections[t.connection];
    && c.workspace == workspace && c.active && action in c.verified
    && c.credential == seen.credential && Stamp(db.workspaces[workspace].policy, sv.switches) == seen.stamp
    && Entitled(db.workspaces[workspace], actor, t.connection, ClassFor(high || SnapshotAction(action)))
  }

  /** The workspace's reviews that are unused and in time. */
  function WaitingReviews(db: Store, workspace: Id): set<Id> {
    set r | r in db.reviews && db.reviews[r].workspace == workspace && db.reviews[r].consumed.None? && db.now < db.reviews[r].expires
  }

  ghost predicate ReviewMeant(db: Store, sv: Service, actor: M.User, workspace: Id, resource: Id, action: Action,
                              seen: View, facts: Facts, recent: bool, live: bool, fault: bool, review: Id)
  {
    && SeenAllowed(seen, action) && Reviewable(sv, seen.family, action, facts) && (facts.high ==> recent)
    && live && !fault && StillSeen(db, sv, actor, workspace, resource, action, facts.high, seen)
    && |WaitingReviews(db, workspace)| < 100
    && review !in db.reviews && forall id :: id in db.entries ==> db.entries[id].operation.review != review
  }

  lemma SeenInRows(seen: View, action: Action)
    ensures MayReview(seen, action) <==> SeenAllowed(seen, action)
  {
  }

  lemma InspectsExactly(sv: Service, seen: View, action: Action, facts: Facts)
    ensures Inspect(sv, seen, action, facts).Done? <==> Reviewable(sv, seen.family, action, facts)
  {
    NamesInRows(facts.name);
  }

  /** A review is stored exactly if nothing it depends on changed while the provider was asked, and it says what was shown. */
  lemma StoresReview(db: Store, sv: Service, actor: M.User, workspace: Id, resource: Id, action: Action,
                     seen: View, facts: Facts, recent: bool, live: bool, fault: bool, review: Id)
    ensures var (db', code) := StoreReview(db, sv, actor, workspace, resource, action, seen, facts, recent, live, fault, review);
      && (code.Done? <==> ReviewMeant(db, sv, actor, workspace, resource, action, seen, facts, recent, live, fault, review))
      && db' == (if !code.Done? then db
                 else
                   var c := db.resources[resource].connection;
                   db.(reviews := db.reviews[review :=
                     Review(workspace, actor, c, resource, action, Digest(action, workspace, actor, c, resource, review), facts.fingerprint,
                            seen.credential, seen.stamp, facts.high, facts.name, db.now + 5 * 60, None)]))
  {
    SeenInRows(seen, action);
    InspectsExactly(sv, seen, action, facts);
    assert OpenReviews(db, workspace) == WaitingReviews(db, workspace);
    AuthorityRows(db, sv, actor, workspace, resource, action, facts.high);
  }

  /** What a refused review says. */
  lemma ReviewRefused(db: Store, sv: Service, actor: M.User, workspace: Id, resource: Id, action: Action,
                      seen: View, facts: Facts, recent: bool, live: bool, fault: bool, review: Id)
    ensures
      match StoreReview(db, sv, actor, workspace, resource, action, seen, facts, recent, live, fault, review).1
      case Done => true
      case ErrDenied => !SeenAllowed(seen, action)
      case ErrUnsupported => !sv.enabled || (seen.family, action) !in sv.reviewers || (seen.family, action) !in sv.permits
      case ErrProvider => !facts.readable || (SnapshotAction(action) && !facts.high) || !NameText(facts.name)
      case ErrRecent => facts.high && !recent
      case ErrNotFound => !live || fault || !StillSeen(db, sv, actor, workspace, resource, action, facts.high, seen)
      case ErrStale => !facts.allowed || facts.fingerprint == 0 || !StillSeen(db, sv, actor, workspace, resource, action, facts.high, seen)
      case ErrConflict => |WaitingReviews(db, workspace)| >= 100
      case ErrStore => review in db.reviews || exists id :: id in db.entries && db.entries[id].operation.review == review
      case _ => false
  {
    SeenInRows(seen, action);
    NamesInRows(facts.name);
    assert OpenReviews(db, workspace) == WaitingReviews(db, workspace);
    AuthorityRows(db, sv, actor, workspace, resource, action, facts.high);
  }

  // ---- User controls ----

  /** What somebody who asks to control an operation is told. */
  lemma ControlAnswers(db: Store, actor: M.User, workspace: Id, id: Id)
    ensures ControlLoad(db, actor, workspace, id) ==
            if MayControl(db, actor, workspace, id) then Done
            else if workspace in db.workspaces && id in db.entries && db.entries[id].operation.workspace == workspace
                    && db.entries[id].operation.review in db.reviews && Sees(db, actor, id) then ErrDenied
            else ErrNotFound
  {
  }

  /** A cancellation takes effect exactly for a queued operation and somebody entitled to it. */
  lemma Cancels(db: Store, actor: M.User, workspace: Id, id: Id)
    ensures var (db', code) := Cancel(db, actor, workspace, id);
      && (code.Done? <==> MayControl(db, actor, workspace, id) && db.entries[id].operation.state.Queued?)
      && (!code.Done? ==> db' == db && code == if MayControl(db, actor, workspace, id) then ErrState else ControlLoad(db, actor, workspace, id))
      && (code.Done? ==>
            && OthersSame(db, db', id)
            && var e, e' := db.entries[id], db'.entries[id];
            && Stepped(e, e', Cancelled) && e'.operation.reference == e.operation.reference
            && if e.job.Some? && (e.job.value.state.JobQueued? || e.job.value.state.JobRunning?)
               then Ended(e, e', JobCancelled, db.now) else e'.job == e.job)
  {
    ControlExactly(db, actor, workspace, id);
  }

  /** It is already being observed again, by a job in time. */
  predicate Rechecking(e: Entry, now: int) {
    && e.operation.state.Reconciling? && e.job.Some? && now < e.job.value.deadline
    && (e.job.value.state.JobQueued? || e.job.value.state.JobRunning?)
  }

  /** A recheck reopens exactly a reserved unknown operation, with a new job for five minutes; repeating it changes nothing. */
  lemma Rechecks(db: Store, actor: M.User, workspace: Id, id: Id)
    ensures var (db', code) := Recheck(db, actor, workspace, id);
      if !MayControl(db, actor, workspace, id) then db' == db && code == ControlLoad(db, actor, workspace, id)
      else
        var e := db.entries[id];
        if Rechecking(e, db.now) then db' == db && code.Done?
        else if !e.operation.state.Unknown? || !e.locked then db' == db && code == ErrState
        else if e.job.None? then db' == db && code == ErrStore
        else
          && code.Done? && OthersSame(db, db', id)
          && var e' := db'.entries[id];
          && Stepped(e, e', Reconciling) && e'.operation.reference == e.operation.reference
          && e'.job == Some(Job(JobQueued, db.now, None, 0, db.now + 5 * 60, None))
  {
    ControlExactly(db, actor, workspace, id);
  }

  /** A release gives up the reservation of an unknown operation, stops its job, and changes nothing else. */
  lemma Releases(db: Store, s: Step)
    requires s.OwnerRelease?
    ensures var (db', code) := ReleaseUnknown(db, s.actor, s.workspace, s.id, s.acknowledged, s.typed, s.recent);
      && (code.Done? <==> MayRelease(db, s) && db.entries[s.id].operation.state.Unknown? && !db.entries[s.id].resolved && db.entries[s.id].locked)
      && (!code.Done? ==> db' == db)
      && (code.Done? ==>
            && OthersSame(db, db', s.id)
            && var e, e' := db.entries[s.id], db'.entries[s.id];
            && e' == e.(resolved := true, locked := false, job := e'.job)
            && if e.job.Some? then Ended(e, e', JobCancelled, db.now) else e'.job == e.job)
  {
    ControlExactly(db, s.actor, s.workspace, s.id);
  }

  lemma ReleaseRefused(db: Store, s: Step)
    requires s.OwnerRelease?
    ensures
      match ReleaseUnknown(db, s.actor, s.workspace, s.id, s.acknowledged, s.typed, s.recent).1
      case Done => true
      case ErrInvalid =>
        !s.acknowledged || (MayControl(db, s.actor, s.workspace, s.id) && s.typed != db.reviews[db.entries[s.id].operation.review].name)
      case ErrRecent => !s.recent
      case ErrNotFound => ControlLoad(db, s.actor, s.workspace, s.id) == ErrNotFound
      case ErrDenied => ControlLoad(db, s.actor, s.workspace, s.id) == ErrDenied || (MayControl(db, s.actor, s.workspace, s.id) && !MayRelease(db, s))
      case ErrState =>
        && MayControl(db, s.actor, s.workspace, s.id)
        && (!db.entries[s.id].operation.state.Unknown? || db.entries[s.id].resolved || !db.entries[s.id].locked)
      case _ => false
  {
    ControlExactly(db, s.actor, s.workspace, s.id);
  }

  // ---- Maintenance ----

  /** A job nobody will finish: out of time or attempts, and under no lease that could still write. */
  predicate Hopeless(e: Entry, now: int) {
    && e.job.Some? && (e.job.value.state.JobQueued? || e.job.value.state.JobRunning?)
    && (e.job.value.deadline <= now || e.job.value.attempts >= 100)
    && (e.job.value.lease.None? || e.job.value.lease.value.expires <= now)
  }

  /** Expiry ends exactly a hopeless job: unsent work fails, submitted work becomes unknown. */
  lemma Expires(db: Store, id: Id)
    ensures var db' := ExpireOne(db, id);
      if id in db.entries && Hopeless(db.entries[id], db.now)
      then
        && OthersSame(db, db', id)
        && var e, e' := db.entries[id], db'.entries[id];
        && Ended(e, e', JobFailed, db.now)
        && (if e.operation.state.Queued? then Stepped(e, e', Failed) && e'.operation.reference == e.operation.reference
            else if e.operation.state.Dispatching? || e.operation.state.WaitingProvider? || e.operation.state.Reconciling? then Settles(e, e', Unknown)
            else e' == e.(job := e'.job))
      else db' == db
  {
    if id in db.entries && InFlight(db.entries[id].operation.state) {
      SettlesInRows(db.entries[id], Unknown);
    }
  }

  /** Exactly the chosen reviews that expired unused more than a week ago and that no operation names are dropped. */
  lemma DropsReviews(db: Store, chosen: set<Id>)
    ensures var db' := PruneReviews(db, chosen);
      && db' == db.(reviews := db'.reviews)
      && (forall r :: r in db'.reviews ==> r in db.reviews && db'.reviews[r] == db.reviews[r])
      && forall r :: r in db.reviews ==>
           (r !in db'.reviews <==>
              && r in chosen && db.reviews[r].consumed.None? && db.reviews[r].expires < db.now - 7 * 24 * 60 * 60
              && !exists id :: id in db.entries && db.entries[id].operation.review == r)
  {
  }

  /** Exactly the job of an operation that ended, completed more than a week ago, is dropped. */
  lemma DropsJob(db: Store, id: Id)
    ensures var db' := PruneJob(db, id);
      if id in db.entries
         && (db.entries[id].operation.state.Succeeded? || db.entries[id].operation.state.Failed? || db.entries[id].operation.state.Cancelled?)
         && db.entries[id].job.Some?
         && (db.entries[id].job.value.state.JobSucceeded? || db.entries[id].job.value.state.JobFailed? || db.entries[id].job.value.state.JobCancelled?)
         && db.entries[id].job.value.completed.Some? && db.entries[id].job.value.completed.value < db.now - 7 * 24 * 60 * 60
      then OthersSame(db, db', id) && db'.entries[id] == db.entries[id].(job := None)
      else db' == db
  {
  }

  // ---- Connections ----

  predicate Placed(db: Store, workspace: Id, connection: Id) {
    workspace in db.workspaces && connection in db.connections && db.connections[connection].workspace == workspace
  }

  /** A connection of this workspace that the actor, an enabled admin or owner, may change. */
  predicate MayConfigure(db: Store, actor: M.User, workspace: Id, connection: Id) {
    && Placed(db, workspace, connection)
    && var w := db.workspaces[workspace];
    actor in w.members && actor !in w.disabled && (w.members[actor].role.Admin? || w.members[actor].role.Owner?)
  }

  /** A rotation succeeds exactly from the version it read, and moves that one connection to the next. */
  lemma Rotates(db: Store, actor: M.User, workspace: Id, connection: Id, seen: int, verified: set<Action>)
    ensures var (db', code) := Rotate(db, actor, workspace, connection, seen, verified);
      && code == (if !Placed(db, workspace, connection) then ErrNotFound
                  else if !MayConfigure(db, actor, workspace, connection) then ErrDenied
                  else if db.connections[connection].credential != seen then ErrStale else Done)
      && db' == (if code.Done?
                 then db.(connections := db.connections[connection :=
                            db.connections[connection].(credential := db.connections[connection].credential + 1, verified := verified)])
                 else db)
  {
  }

  /** Disabling makes the connection inactive, cancels exactly its queued jobs, and moves no operation. */
  lemma Disables(db: Store, actor: M.User, workspace: Id, connection: Id)
    ensures var (db', code) := Disable(db, actor, workspace, connection);
      && code == (if !Placed(db, workspace, connection) then ErrNotFound
                  else if !MayConfigure(db, actor, workspace, connection) then ErrDenied else Done)
      && if code.Done? && db.connections[connection].active
         then
           && db' == db.(connections := db.connections[connection := db.connections[connection].(active := false)], entries := db'.entries)
           && db'.entries.Keys == db.entries.Keys
           && forall id :: id in db.entries ==>
                var e, e' := db.entries[id], db'.entries[id];
                if e.operation.connection == connection && e.job.Some? && e.job.value.state.JobQueued?
                then e' == e.(job := Some(e.job.value.(state := JobCancelled, completed := Some(db.now)))) else e' == e
         else db' == db
  {
  }

  /** Enabling, credentials and jobs aside, a change of authority touches one workspace. */
  lemma ChangesAuthority(db: Store, workspace: Id, c: M.Change)
    ensures var db' := ChangeAuthority(db, workspace, c);
      && db' == db.(workspaces := db'.workspaces) && db'.workspaces.Keys == db.workspaces.Keys
      && forall w :: w in db.workspaces ==> db'.workspaces[w] == if w == workspace then M.Apply(db.workspaces[w], c) else db.workspaces[w]
  {
  }
}
