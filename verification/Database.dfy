/**
 The tables as the source updates them: each transaction is a method that reads and rewrites
 separate rows of operations, events, jobs, locks and resolutions. Every method is proved to commit
 exactly what the transaction of the same name in module Transactions says, and to return its code.
 */
module Databases {
  import opened Batches
  import opened Options
  import opened Lifecycle
  import opened Receipts
  import opened Tables
  import opened Transactions
  import opened Consistency
  import opened Coverage
  import A = Acceptance
  import M = Membership

  lemma PutTwice(db: Store, id: Id, a: Entry, b: Entry)
    ensures Put(Put(db, id, a), id, b) == Put(db, id, b)
  {
    assert db.entries[id := a][id := b] == db.entries[id := b];
  }

  class Database {
    var now: int
    var workspaces: map<Id, M.Workspace>
    var connections: map<Id, Connection>
    var resources: map<Id, Target>
    var reviews: map<Id, Review>
    var operations: map<Id, Operation>
    var events: map<Id, seq<Event>>
    var jobs: map<Id, Job>
    /** The unique index of the lock table: one operation per target. */
    var locks: map<Target, Id>
    var resolutions: set<Id>
    var gate: Gate

    /** Rows refer to operations, and a lock row names its operation's own target. */
    ghost predicate Valid()
      reads this
    {
      && events.Keys == operations.Keys
      && jobs.Keys <= operations.Keys
      && resolutions <= operations.Keys
      && forall t :: t in locks ==> locks[t] in operations && operations[locks[t]].target == t
    }

    /** An installation before its first operation, its gate closed. */
    constructor (now: int, workspaces: map<Id, M.Workspace>, connections: map<Id, Connection>, resources: map<Id, Target>)
      ensures Valid() && Consistent(Snapshot())
      ensures Snapshot() == Store(now, workspaces, connections, resources, map[], map[], Gate(false, 1))
    {
      this.now, this.workspaces, this.connections, this.resources := now, workspaces, connections, resources;
      reviews, operations, events, jobs, locks, resolutions := map[], map[], map[], map[], map[], {};
      gate := Gate(false, 1);
    }

    predicate Locked(id: Id)
      reads this
      requires id in operations
    {
      operations[id].target in locks && locks[operations[id].target] == id
    }

    /** All rows of one operation, joined. */
    function Joined(id: Id): Entry
      reads this
      requires id in operations && id in events
    {
      Entry(operations[id], events[id], if id in jobs then Some(jobs[id]) else None, Locked(id), id in resolutions)
    }

    /** The committed state these rows represent. */
    function Snapshot(): Store
      reads this
      requires Valid()
    {
      Store(now, workspaces, connections, resources, reviews, map id | id in operations :: Joined(id), gate)
    }

    // ---- Building blocks ----

    /** A commit on the rows of one operation changes one entry of the snapshot. */
    twostate lemma OneRow(id: Id)
      requires old(Valid()) && Valid() && id in operations && operations.Keys == old(operations.Keys)
      requires now == old(now) && workspaces == old(workspaces) && connections == old(connections)
      requires resources == old(resources) && reviews == old(reviews) && gate == old(gate)
      requires forall x :: x in operations && x != id ==> Joined(x) == old(Joined(x))
      ensures Snapshot() == Put(old(Snapshot()), id, Joined(id))
    {
      assert Snapshot().entries == old(Snapshot().entries)[id := Joined(id)];
    }

    /** Deletes the lock row of an operation, if it has one. */
    method ReleaseTerminal(id: Id)
      requires Valid() && id in operations
      modifies this`locks
      ensures Valid()
      ensures Snapshot() == Put(old(Snapshot()), id, old(Joined(id)).(locked := false))
    {
      locks := map t | t in locks && locks[t] != id :: locks[t];
      OneRow(id);
    }

    /** The operation's row and its next event. */
    method WriteState(id: Id, to: OpState)
      requires Valid() && id in operations
      modifies this`operations, this`events
      ensures Valid() && operations.Keys == old(operations.Keys)
      ensures Snapshot() == Put(old(Snapshot()), id, Tables.Advance(old(Joined(id)), to).(locked := old(Locked(id))))
    {
      var o := operations[id];
      operations := operations[id := o.(state := to, sequence := o.sequence + 1)];
      events := events[id := events[id] + [Event(o.sequence + 1, Some(o.state), to)]];
      OneRow(id);
    }

    lemma JoinedAt(id: Id)
      requires Valid() && id in operations
      ensures id in Snapshot().entries && Snapshot().entries[id] == Joined(id)
    {
    }

    /** Moves one operation, appends its event, and deletes the lock row of a terminal one. */
    method Advance(id: Id, to: OpState) returns (code: Code)
      requires Valid() && id in operations
      modifies this`operations, this`events, this`locks
      ensures Valid() && operations.Keys == old(operations.Keys)
      ensures code == if Allowed(old(operations[id].state), to) then Done else ErrState
      ensures Snapshot() == if code.Done? then Put(old(Snapshot()), id, Tables.Advance(old(Joined(id)), to)) else old(Snapshot())
    {
      if !Allowed(operations[id].state, to) {
        return ErrState;
      }
      WriteState(id, to);
      if Terminal(to) {
        JoinedAt(id);
        ReleaseTerminal(id);
        PutTwice(old(Snapshot()), id, Tables.Advance(old(Joined(id)), to).(locked := old(Locked(id))), Tables.Advance(old(Joined(id)), to));
      }
      return Done;
    }

    /** The fenced hand-back of a job row. */
    method FinishJob(l: Claimed, to: JobState, next: int) returns (code: Code)
      requires Valid() && l.operation in operations
      modifies this`jobs
      ensures Valid()
      ensures code == if LiveIn(old(Joined(l.operation)), l, now) then Done else ErrLease
      ensures Snapshot() ==
              if code.Done? then Put(old(Snapshot()), l.operation, WithJob(old(Joined(l.operation)), Finished(old(jobs[l.operation]), to, next, now)))
              else old(Snapshot())
    {
      var id := l.operation;
      if id !in jobs || !LiveIn(Joined(id), l, now) {
        return ErrLease;
      }
      if to.JobQueued? {
        jobs := jobs[id := jobs[id].(state := to, nextRun := next, lease := None, completed := None)];
      } else {
        jobs := jobs[id := jobs[id].(state := to, lease := None, completed := Some(now))];
      }
      return Done;
    }

    // ---- Leases ----

    method ClaimJob(l: Claimed, at: int) returns (code: Code)
      requires Valid()
      modifies this`jobs
      ensures Valid() && (Snapshot(), code) == Claim(old(Snapshot()), l, at)
    {
      if l.operation !in jobs || !Claimable(jobs[l.operation], at) {
        return ErrLease;
      }
      var j := jobs[l.operation];
      jobs := jobs[l.operation := j.(state := JobRunning, attempts := j.attempts + 1,
                                     lease := Some(Lease(l.owner, l.token, Min(at + LEASE_SECONDS, j.deadline))))];
      OneRow(l.operation);
      return Done;
    }

    method RenewLease(l: Claimed, at: int) returns (code: Code)
      requires Valid()
      modifies this`jobs
      ensures Valid() && (Snapshot(), code) == Renew(old(Snapshot()), l, at)
    {
      if l.operation !in jobs || !LiveIn(Joined(l.operation), l, at) {
        return ErrLease;
      }
      var j := jobs[l.operation];
      jobs := jobs[l.operation := j.(lease := Some(Lease(l.owner, l.token, Min(at + LEASE_SECONDS, j.deadline))))];
      OneRow(l.operation);
      return Done;
    }

    // ---- The worker's transactions ----

    method CommitMarker(sv: Service, l: Claimed, fingerprint: nat, live: bool, fault: bool) returns (code: Code)
      requires Valid()
      modifies this`operations, this`events, this`locks
      ensures Valid() && (Snapshot(), code) == Mark(old(Snapshot()), sv, l, fingerprint, live, fault)
    {
      if !Loadable(Snapshot(), l) {
        return ErrLease;
      }
      var (o, r) := Loaded(Snapshot(), l);
      code := DispatchCheck(Snapshot(), sv, o, r, live, fault);
      if !code.Done? {
        return;
      }
      if !gate.open {
        return ErrRecovery;
      }
      if fingerprint != r.fingerprint {
        return ErrStale;
      }
      JoinedAt(l.operation);
      code := Advance(l.operation, Dispatching);
    }

    /** The two last statements of a worker's transaction: move the operation, hand the job back. */
    method AdvanceAndFinish(l: Claimed, to: OpState, job: JobState, delay: nat)
      requires Valid() && l.operation in operations && LiveIn(Joined(l.operation), l, now) && Allowed(operations[l.operation].state, to)
      modifies this`operations, this`events, this`locks, this`jobs
      ensures Valid()
      ensures Snapshot() == Put(old(Snapshot()), l.operation, HandBack(Tables.Advance(old(Joined(l.operation)), to), job, delay, now))
    {
      ghost var moved := Tables.Advance(Joined(l.operation), to);
      var next := Min(now + delay, jobs[l.operation].deadline);
      var code := Advance(l.operation, to);
      JoinedAt(l.operation);
      assert Joined(l.operation) == moved;
      code := FinishJob(l, job, next);
      PutTwice(old(Snapshot()), l.operation, moved, HandBack(moved, job, delay, now));
    }

    method RejectUnsentWork(l: Claimed, cause: Code) returns (code: Code)
      requires Valid()
      modifies this`operations, this`events, this`locks, this`jobs
      ensures Valid() && (Snapshot(), code) == RejectUnsent(old(Snapshot()), l, cause)
    {
      if !Definitive(cause) {
        return cause;
      }
      if !Loadable(Snapshot(), l) {
        return ErrLease;
      }
      JoinedAt(l.operation);
      if !operations[l.operation].state.Queued? {
        return ErrState;
      }
      AdvanceAndFinish(l, Failed, JobFailed, 0);
      return Done;
    }

    method WriteReference(id: Id, reference: Option<string>)
      requires Valid() && id in operations
      modifies this`operations
      ensures Valid() && operations.Keys == old(operations.Keys)
      ensures Snapshot() == Put(old(Snapshot()), id, WithReference(old(Joined(id)), reference))
    {
      operations := operations[id := operations[id].(reference := reference)];
      OneRow(id);
    }

    method CommitReceipt(l: Claimed, reply: Reply, delay: nat) returns (code: Code)
      requires Valid()
      modifies this`operations, this`events, this`locks, this`jobs
      ensures Valid() && (Snapshot(), code) == StoreReceipt(old(Snapshot()), l, reply, delay)
    {
      if !Loadable(Snapshot(), l) {
        return ErrLease;
      }
      JoinedAt(l.operation);
      if !operations[l.operation].state.Dispatching? {
        return ErrState;
      }
      var (to, reference) := ClassifyActionReceipt(operations[l.operation].action, reply);
      ReceiptSoundness(operations[l.operation].action, reply);
      ghost var e := Joined(l.operation);
      WriteReference(l.operation, reference);
      JoinedAt(l.operation);
      AdvanceAndFinish(l, to, if to.Failed? then JobFailed else JobQueued, delay);
      PutTwice(old(Snapshot()), l.operation, WithReference(e, reference),
               HandBack(Tables.Advance(WithReference(e, reference), to), if to.Failed? then JobFailed else JobQueued, delay, now));
      return Done;
    }

    /** A state an observation can argue for from here. */
    predicate Reaches(from: OpState, to: OpState) {
      Allowed(from, to) || (to.Unknown? && InFlight(from))
    }

    method CommitObservation(l: Claimed, from: OpState, to: OpState, delay: nat) returns (code: Code)
      requires Valid() && (InFlight(from) ==> Reaches(from, to))
      modifies this`operations, this`events, this`locks, this`jobs
      ensures Valid() && (Snapshot(), code) == StoreObservation(old(Snapshot()), l, from, to, delay)
    {
      if !Loadable(Snapshot(), l) {
        return ErrLease;
      }
      JoinedAt(l.operation);
      if operations[l.operation].state != from || !InFlight(from) {
        return ErrState;
      }
      ghost var e := Joined(l.operation);
      var job := if Final(to) then JobSucceeded else JobQueued;
      if (from.Dispatching? || from.WaitingProvider?) && to.Unknown? {
        code := Advance(l.operation, Reconciling);
        JoinedAt(l.operation);
        AdvanceAndFinish(l, to, job, delay);
        PutTwice(old(Snapshot()), l.operation, Tables.Advance(e, Reconciling),
                 HandBack(Tables.Advance(Tables.Advance(e, Reconciling), to), job, delay, now));
      } else {
        AdvanceAndFinish(l, to, job, delay);
      }
      return Done;
    }

    // ---- User controls ----

    method CancelOperation(actor: M.User, workspace: Id, id: Id) returns (code: Code)
      requires Valid()
      modifies this`operations, this`events, this`locks, this`jobs
      ensures Valid() && (Snapshot(), code) == Cancel(old(Snapshot()), actor, workspace, id)
    {
      code := ControlLoad(Snapshot(), actor, workspace, id);
      if !code.Done? {
        return;
      }
      JoinedAt(id);
      if !operations[id].state.Queued? {
        return ErrState;
      }
      ghost var moved := Tables.Advance(Joined(id), Cancelled);
      code := Advance(id, Cancelled);
      JoinedAt(id);
      if id in jobs && Active(jobs[id]) {
        WriteJob(id, CancelJob(jobs[id], now));
        PutTwice(old(Snapshot()), id, moved, WithJob(moved, CancelJob(old(jobs[id]), now)));
      }
    }

    method WriteJob(id: Id, j: Job)
      requires Valid() && id in operations
      modifies this`jobs
      ensures Valid() && Snapshot() == Put(old(Snapshot()), id, WithJob(old(Joined(id)), j))
    {
      jobs := jobs[id := j];
      OneRow(id);
    }

    method RecheckOperation(actor: M.User, workspace: Id, id: Id) returns (code: Code)
      requires Valid()
      modifies this`operations, this`events, this`locks, this`jobs
      ensures Valid() && (Snapshot(), code) == Recheck(old(Snapshot()), actor, workspace, id)
    {
      code := ControlLoad(Snapshot(), actor, workspace, id);
      if !code.Done? {
        return;
      }
      JoinedAt(id);
      var state := operations[id].state;
      if state.Reconciling? && id in jobs && Active(jobs[id]) && jobs[id].deadline > now {
        return Done;
      }
      if !state.Unknown? || !Locked(id) {
        return ErrState;
      }
      if id !in jobs {
        return ErrStore;
      }
      Reopen(id, Job(JobQueued, now, None, 0, now + RECHECK_SECONDS, None));
      return Done;
    }

    /** Back to observation, with a new attempt budget. */
    method Reopen(id: Id, job: Job)
      requires Valid() && id in operations && id in jobs && operations[id].state.Unknown?
      modifies this`operations, this`events, this`locks, this`jobs
      ensures Valid() && Snapshot() == Put(old(Snapshot()), id, WithJob(Tables.Advance(old(Joined(id)), Reconciling), job))
    {
      ghost var moved := Tables.Advance(Joined(id), Reconciling);
      var code := Advance(id, Reconciling);
      JoinedAt(id);
      WriteJob(id, job);
      PutTwice(old(Snapshot()), id, moved, WithJob(moved, job));
    }

    method InsertResolution(id: Id)
      requires Valid() && id in operations
      modifies this`resolutions
      ensures Valid() && Snapshot() == Put(old(Snapshot()), id, old(Joined(id)).(resolved := true))
    {
      resolutions := resolutions + {id};
      OneRow(id);
    }

    /** The resolution row goes in, the lock row and the job go out. */
    method Resolve(id: Id)
      requires Valid() && id in operations
      modifies this`resolutions, this`locks, this`jobs
      ensures Valid()
      ensures Snapshot() == Put(old(Snapshot()), id,
                var released := old(Joined(id)).(resolved := true, locked := false);
                if released.job.Some? then WithJob(released, CancelJob(released.job.value, now)) else released)
    {
      ghost var before, e := Snapshot(), Joined(id);
      InsertResolution(id);
      JoinedAt(id);
      ReleaseTerminal(id);
      JoinedAt(id);
      ghost var released := e.(resolved := true, locked := false);
      PutTwice(before, id, e.(resolved := true), released);
      if id in jobs {
        WriteJob(id, CancelJob(jobs[id], now));
        PutTwice(before, id, released, WithJob(released, CancelJob(e.job.value, now)));
      }
    }

    method ReleaseUnknownOperation(actor: M.User, workspace: Id, id: Id, acknowledged: bool, typed: string, recent: bool) returns (code: Code)
      requires Valid()
      modifies this`resolutions, this`locks, this`jobs
      ensures Valid() && (Snapshot(), code) == ReleaseUnknown(old(Snapshot()), actor, workspace, id, acknowledged, typed, recent)
    {
      if !acknowledged {
        return ErrInvalid;
      }
      if !recent {
        return ErrRecent;
      }
      code := ControlLoad(Snapshot(), actor, workspace, id);
      if !code.Done? {
        return;
      }
      JoinedAt(id);
      if !workspaces[workspace].members[actor].role.Owner? {
        return ErrDenied;
      }
      if !operations[id].state.Unknown? {
        return ErrState;
      }
      if M.HighImpact !in M.Granted(workspaces[workspace], operations[id].connection, actor) {
        return ErrDenied;
      }
      if reviews[operations[id].review].name != typed {
        return ErrInvalid;
      }
      if id in resolutions || !Locked(id) {
        return ErrState;
      }
      Resolve(id);
    }

    // ---- Review and acceptance ----

    method StoreActionReview(sv: Service, actor: M.User, workspace: Id, resource: Id, action: Action,
                             seen: View, facts: Facts, recent: bool, live: bool, fault: bool, review: Id) returns (code: Code)
      requires Valid()
      modifies this`reviews
      ensures Valid()
      ensures (Snapshot(), code) == StoreReview(old(Snapshot()), sv, actor, workspace, resource, action, seen, facts, recent, live, fault, review)
    {
      ghost var before := Snapshot();
      if !MayReview(seen, action) {
        return ErrDenied;
      }
      code := Inspect(sv, seen, action, facts);
      if !code.Done? {
        return;
      }
      if facts.high && !recent {
        return ErrRecent;
      }
      var current := Authority(Snapshot(), sv, actor, workspace, resource, live, fault);
      if current.None? {
        return ErrNotFound;
      }
      var a := current.value;
      if a.credential != seen.credential || a.stamp != seen.stamp || !Authorized(a, action, facts.high) {
        return ErrStale;
      }
      if |OpenReviews(Snapshot(), workspace)| >= REVIEWS_MAX {
        return ErrConflict;
      }
      if review in reviews || exists id :: id in Snapshot().entries && Snapshot().entries[id].operation.review == review {
        return ErrStore;
      }
      var hash := Digest(action, workspace, actor, a.connection, resource, review);
      var row := Review(workspace, actor, a.connection, resource, action, hash, facts.fingerprint,
                        a.credential, a.stamp, facts.high, facts.name, now + REVIEW_SECONDS, None);
      reviews := reviews[review := row];
      assert Snapshot().entries == before.entries;
    }

    /** The lookup by idempotency key. */
    method Lookup(q: Request, hash: Digest) returns (answer: Answer)
      requires Valid() && Consistent(Snapshot())
      ensures answer == Transactions.Resolve(Snapshot(), q, hash)
    {
      var db := Snapshot();
      if exists id :: id in db.entries && HasKey(db, id, q) && Readable(db, q.actor, id) {
        var id :| id in db.entries && HasKey(db, id, q) && Readable(db, q.actor, id);
        A.ResolveTaken(db, q, hash, id);
        return if db.entries[id].operation.hash != hash then Refused(ErrConflict) else Found(id, db.entries[id].operation.state);
      }
      return Proceed(hash);
    }

    /** Takes the target's lock row, unless another operation has it. */
    predicate Reserved(target: Target)
      reads this
    {
      target in locks
    }

    lemma ReservedAt(target: Target)
      requires Valid()
      ensures Reserved(target) <==> exists x :: x in Snapshot().entries && Reserves(Snapshot().entries[x], target)
    {
      if target in locks {
        JoinedAt(locks[target]);
        assert Reserves(Snapshot().entries[locks[target]], target);
      }
    }

    /** The operation with its job and first event, not yet reserved. */
    method InsertRows(id: Id, o: Operation, j: Job)
      requires Valid() && id !in operations
      modifies this`operations, this`jobs, this`events
      ensures Valid() && operations == old(operations)[id := o]
      ensures Snapshot() == Put(old(Snapshot()), id, Entry(o, [Event(1, None, Queued)], Some(j), false, false))
    {
      NotReserved(id);
      operations := operations[id := o];
      jobs := jobs[id := j];
      events := events[id := [Event(1, None, Queued)]];
      NewRow(id);
    }

    /** Nothing refers to an operation that does not exist. */
    lemma NotReserved(id: Id)
      requires Valid() && id !in operations
      ensures id !in resolutions && forall t :: t in locks ==> locks[t] != id
    {
    }

    /** The rows of a new operation add one entry to the snapshot. */
    twostate lemma NewRow(id: Id)
      requires old(Valid()) && Valid() && id !in old(operations) && operations.Keys == old(operations.Keys) + {id}
      requires now == old(now) && workspaces == old(workspaces) && connections == old(connections)
      requires resources == old(resources) && reviews == old(reviews) && gate == old(gate)
      requires forall x :: x in old(operations) ==> Joined(x) == old(Joined(x))
      ensures Snapshot() == Put(old(Snapshot()), id, Joined(id))
    {
      assert Snapshot().entries == old(Snapshot().entries)[id := Joined(id)];
    }

    method Reserve(id: Id)
      requires Valid() && id in operations && !Reserved(operations[id].target)
      modifies this`locks
      ensures Valid() && Snapshot() == Put(old(Snapshot()), id, old(Joined(id)).(locked := true))
    {
      locks := locks[operations[id].target := id];
      OneRow(id);
    }

    /** Inserts the operation, its lock row, its job and its first event, and consumes the review. */
    method InsertOperation(q: Request, hash: Digest, r: Review, target: Target, id: Id)
      requires Valid() && id !in operations && !Reserved(target) && q.review in reviews
      modifies this`operations, this`locks, this`jobs, this`events, this`reviews
      ensures Valid() && Snapshot() == Accept(old(Snapshot()), q, hash, r, target, id)
    {
      ghost var before := Snapshot();
      var o := Operation(q.workspace, q.actor, r.connection, r.resource, target, r.action, hash, q.key, q.review,
                         r.credential, r.policy, Queued, 1, None);
      var j := Job(JobQueued, now, None, 0, now + OPERATION_SECONDS, None);
      InsertRows(id, o, j);
      JoinedAt(id);
      Reserve(id);
      PutTwice(before, id, Entry(o, [Event(1, None, Queued)], Some(j), false, false), Entry(o, [Event(1, None, Queued)], Some(j), true, false));
      Consume(q.review, r.(consumed := Some(id)));
    }

    method Consume(review: Id, r: Review)
      requires Valid()
      modifies this`reviews
      ensures Valid() && Snapshot() == old(Snapshot()).(reviews := old(reviews)[review := r])
    {
      ghost var before := Snapshot();
      reviews := reviews[review := r];
      assert Snapshot().entries == before.entries;
    }

    method ConfirmOperation(sv: Service, q: Request, hash: Digest, facts: Facts, recent: bool, live: bool, fault: bool,
                            others: nat, id: Id) returns (answer: Answer)
      requires Valid() && Consistent(Snapshot())
      modifies this`operations, this`locks, this`jobs, this`events, this`reviews
      ensures Valid() && Consistent(Snapshot())
      ensures (Snapshot(), answer) == ConfirmSecond(old(Snapshot()), sv, q, hash, facts, recent, live, fault, others, id)
    {
      var db := Snapshot();
      ConfirmSecondKeeps(db, sv, q, hash, facts, recent, live, fault, others, id);
      if q.workspace !in workspaces {
        return Refused(ErrNotFound);
      }
      answer := Lookup(q, hash);
      if !answer.Proceed? {
        return;
      }
      if !OwnReview(db, q) {
        return Refused(ErrNotFound);
      }
      var r := reviews[q.review];
      var current := Authority(db, sv, q.actor, q.workspace, r.resource, live, fault);
      if current.None? {
        return Refused(ErrNotFound);
      }
      var a := current.value;
      var code := CheckReview(db, q, a, r, recent);
      if !code.Done? {
        return Refused(code);
      }
      if hash != r.hash || facts.fingerprint != r.fingerprint {
        return Refused(ErrStale);
      }
      if |ActiveJobs(db, q.workspace)| + others >= workspaces[q.workspace].settings.queueLimit {
        return Refused(ErrQuota);
      }
      if id in operations || (exists x :: x in db.entries && HasKey(db, x, q)) || (exists x :: x in db.entries && db.entries[x].operation.review == q.review) {
        return Refused(ErrStore);
      }
      ReservedAt(a.target);
      if Reserved(a.target) {
        return Refused(ErrBusy);
      }
      InsertOperation(q, hash, r, a.target, id);
      return Found(id, Queued);
    }

    // ---- Connections ----

    method RotateCredential(actor: M.User, workspace: Id, connection: Id, seen: int, verified: set<Action>) returns (code: Code)
      requires Valid()
      modifies this`connections
      ensures Valid() && (Snapshot(), code) == Rotate(old(Snapshot()), actor, workspace, connection, seen, verified)
    {
      if workspace !in workspaces || connection !in connections || connections[connection].workspace != workspace {
        return ErrNotFound;
      }
      if !M.LockAuthority(workspaces[workspace], actor).Done? {
        return ErrDenied;
      }
      if connections[connection].credential != seen {
        return ErrStale;
      }
      connections := connections[connection := connections[connection].(credential := seen + 1, verified := verified)];
      assert Snapshot().entries == old(Snapshot()).entries;
      return Done;
    }

    /** Disabling cancels every queued job of the connection. */
    method DisableConnection(actor: M.User, workspace: Id, connection: Id) returns (code: Code)
      requires Valid()
      modifies this`connections, this`jobs
      ensures Valid() && (Snapshot(), code) == Disable(old(Snapshot()), actor, workspace, connection)
    {
      if workspace !in workspaces || connection !in connections || connections[connection].workspace != workspace {
        return ErrNotFound;
      }
      if !M.LockAuthority(workspaces[workspace], actor).Done? {
        return ErrDenied;
      }
      if !connections[connection].active {
        return Done;
      }
      connections := connections[connection := connections[connection].(active := false)];
      jobs := map id | id in jobs ::
        if operations[id].connection == connection && jobs[id].state.JobQueued?
        then jobs[id].(state := JobCancelled, completed := Some(now)) else jobs[id];
      assert Snapshot().entries == Disable(old(Snapshot()), actor, workspace, connection).0.entries;
      return Done;
    }

    // ---- Recovery and maintenance ----

    method SetRecoveryGate(open: bool, version: int) returns (code: Code)
      requires Valid()
      modifies this`gate
      ensures Valid() && (Snapshot(), code) == SetRecovery(old(Snapshot()), open, version)
    {
      if open && version != gate.version {
        return ErrStale;
      }
      if open && exists id :: id in operations && Unresolved(Joined(id)) {
        ghost var id :| id in operations && Unresolved(Joined(id));
        JoinedAt(id);
        return ErrRecovery;
      }
      forall id | id in operations ensures Snapshot().entries[id] == Joined(id) {
        JoinedAt(id);
      }
      gate := Gate(open, gate.version + 1);
      assert Snapshot().entries == old(Snapshot()).entries;
      return Done;
    }

    /** The state part of a checkpoint: unsent work fails, submitted work passes through reconciling to unknown. */
    method CheckpointState(id: Id)
      requires Valid() && id in operations && Unsettled(operations[id].state)
      modifies this`operations, this`events, this`locks
      ensures Valid() && operations.Keys == old(operations.Keys)
      ensures Snapshot() == Put(old(Snapshot()), id,
                if old(operations[id].state).Queued? then Tables.Advance(old(Joined(id)), Failed) else Settle(old(Joined(id)), Unknown))
    {
      ghost var before, e := Snapshot(), Joined(id);
      var state := operations[id].state;
      if state.Dispatching? || state.WaitingProvider? {
        var code := Advance(id, Reconciling);
        JoinedAt(id);
        code := Advance(id, Unknown);
        PutTwice(before, id, Tables.Advance(e, Reconciling), Tables.Advance(Tables.Advance(e, Reconciling), Unknown));
      } else {
        var code := Advance(id, if state.Queued? then Failed else Unknown);
      }
    }

    /** One exhausted job in its own transaction; it is looked at again under the row locks. */
    method ExpireJob(id: Id)
      requires Valid() && (id in operations ==> EntryOk(Joined(id)))
      modifies this`operations, this`events, this`locks, this`jobs
      ensures Valid() && Snapshot() == ExpireOne(old(Snapshot()), id)
    {
      if id !in operations || !Exhausted(Joined(id), now) {
        return;
      }
      JoinedAt(id);
      ghost var before, e := Snapshot(), Joined(id);
      var job := jobs[id].(state := JobFailed, lease := None, completed := Some(now));
      CheckpointState(id);
      JoinedAt(id);
      WriteJob(id, job);
      PutTwice(before, id, if e.operation.state.Queued? then Tables.Advance(e, Failed) else Settle(e, Unknown), ExpireEntry(e, now));
    }

    method PruneActionReviews(chosen: set<Id>)
      requires Valid()
      modifies this`reviews
      ensures Valid() && Snapshot() == PruneReviews(old(Snapshot()), chosen)
    {
      var db := Snapshot();
      reviews := map r | r in reviews && !(r in chosen && PrunableReview(db, r)) :: reviews[r];
      assert Snapshot().entries == old(Snapshot()).entries;
    }

    method PruneTerminalJob(id: Id)
      requires Valid()
      modifies this`jobs
      ensures Valid() && Snapshot() == PruneJob(old(Snapshot()), id)
    {
      if id in operations && PrunableJob(Joined(id), now) {
        jobs := jobs - {id};
        OneRow(id);
      }
    }

    /** One call of the expiry job: at most fifty jobs, each in its own transaction. */
    method Expire() returns (ghost ids: seq<Id>)
      requires Valid() && Consistent(Snapshot())
      modifies this`operations, this`events, this`locks, this`jobs
      ensures Valid() && Consistent(Snapshot())
      ensures Selection(ids, ExhaustedIds(old(Snapshot())), EXPIRE_BATCH)
      ensures Snapshot() == ExpireEach(old(Snapshot()), ids)
    {
      ghost var before := Snapshot();
      var chosen := First(ExhaustedIds(Snapshot()), EXPIRE_BATCH);
      ids := chosen;
      var i := 0;
      assert chosen[..0] == [];
      while i < |chosen|
        invariant 0 <= i <= |chosen|
        invariant Valid() && Consistent(Snapshot())
        invariant Snapshot() == ExpireEach(before, chosen[..i])
      {
        if chosen[i] in operations {
          JoinedAt(chosen[i]);
        }
        ExpireOneKeeps(Snapshot(), chosen[i]);
        ExpireEachNext(before, chosen, i);
        ExpireJob(chosen[i]);
        i := i + 1;
      }
      assert chosen[..|chosen|] == chosen;
    }
  }

  lemma {:induction false} ExpireEachNext(db: Store, ids: seq<Id>, i: nat)
    requires i < |ids|
    ensures ExpireEach(db, ids[..i + 1]) == ExpireOne(ExpireEach(db, ids[..i]), ids[i])
    decreases i
  {
    if i == 0 {
      assert ids[..1][1..] == [];
    } else {
      assert ids[..i + 1][1..] == ids[1..][..i] && ids[..i][1..] == ids[1..][..i - 1];
      ExpireEachNext(ExpireOne(db, ids[0]), ids[1..], i - 1);
    }
  }
}
