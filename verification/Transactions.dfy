/**
 Every transaction of the operation protocol as one atomic step on the tables: the state it
 commits and the code it returns. A refused transaction commits nothing. What the source asks of
 the outside world between transactions (a provider read, a clock reading, a fresh identifier)
 arrives here as an argument.
 */
module Transactions {
  import opened Options
  import opened Lifecycle
  import opened Receipts
  import opened Tables
  import M = Membership

  /** What a process was started with: its switches, and which adapters it can build. */
  datatype Service = Service(
    enabled: bool, switches: int, permits: set<(nat, Action)>,
    reviewers: set<(nat, Action)>, mutators: set<(nat, Action)>)

  /** The answer of a fresh provider read. */
  datatype Facts = Facts(readable: bool, allowed: bool, fingerprint: nat, high: bool, name: string)

  /** Current authority of an actor over a resource. */
  datatype View = View(
    connection: Id, family: nat, credential: int, target: Target,
    role: M.Role, classes: set<M.Class>, verified: set<Action>, stamp: Stamp)

  const NAME_MAX := 200
  const KEY_MAX := 128

  function PolicyStamp(sv: Service, policy: int): Stamp {
    Stamp(policy, sv.switches)
  }

  /** `live` says that the resource is published and not tombstoned; `fault` is a failing read. */
  function Authority(db: Store, sv: Service, actor: M.User, workspace: Id, resource: Id, live: bool, fault: bool): Option<View>
  {
    if fault || !live || workspace !in db.workspaces || resource !in db.resources then None
    else
      var target, w := db.resources[resource], db.workspaces[workspace];
      if target.workspace != workspace || target.connection !in db.connections then None
      else
        var c, classes := db.connections[target.connection], M.Granted(w, target.connection, actor);
        if c.workspace != workspace || !c.active || !M.IsMember(w, actor) || M.Read !in classes then None
        else Some(View(target.connection, c.family, c.credential, target, w.members[actor].role, classes, c.verified,
                       PolicyStamp(sv, w.policy)))
  }

  predicate Authorized(a: View, action: Action, high: bool) {
    var wanted := if high || SnapshotAction(action) then M.HighImpact else M.Operate;
    a.target.kind == TargetKind(action) && M.WithinCeiling(a.role, wanted) && wanted in a.classes && action in a.verified
  }

  predicate Control(c: char) {
    c < ' ' || '\U{7f}' <= c <= '\U{9f}'
  }

  predicate ValidTargetName(name: string) {
    1 <= |name| <= NAME_MAX && forall i :: 0 <= i < |name| ==> !Control(name[i])
  }

  /** What a review or dispatch read makes of the provider's answer. */
  function Inspect(sv: Service, a: View, action: Action, facts: Facts): Code {
    if !sv.enabled || (a.family, action) !in sv.reviewers || (a.family, action) !in sv.permits then ErrUnsupported
    else if !facts.readable || (SnapshotAction(action) && !facts.high) then ErrProvider
    else if !facts.allowed || facts.fingerprint == 0 then ErrStale
    else if !ValidTargetName(facts.name) then ErrProvider
    else Done
  }

  /** The fresh read of a reviewed action: it must pass and still show what the review showed. */
  function Reread(sv: Service, a: View, r: Review, facts: Facts): Code {
    var i := Inspect(sv, a, r.action, facts);
    if !i.Done? then i
    else if facts.fingerprint != r.fingerprint || facts.high != r.high || facts.name != r.name then ErrStale
    else Done
  }

  // ---- Review and acceptance ----

  predicate MayReview(a: View, action: Action) {
    Authorized(a, action, false) || Authorized(a, action, true)
  }

  function OpenReviews(db: Store, workspace: Id): set<Id> {
    set r | r in db.reviews && db.reviews[r].workspace == workspace && db.reviews[r].consumed.None? && db.reviews[r].expires > db.now
  }

  /** Stores a review if authority is still what it was when `seen` was read. */
  function StoreReview(db: Store, sv: Service, actor: M.User, workspace: Id, resource: Id, action: Action,
                       seen: View, facts: Facts, recent: bool, live: bool, fault: bool, review: Id): (Store, Code)
  {
    if !MayReview(seen, action) then (db, ErrDenied)
    else if !Inspect(sv, seen, action, facts).Done? then (db, Inspect(sv, seen, action, facts))
    else if facts.high && !recent then (db, ErrRecent)
    else
      var current := Authority(db, sv, actor, workspace, resource, live, fault);
      if current.None? then (db, ErrNotFound)
      else
        var a := current.value;
        if a.credential != seen.credential || a.stamp != seen.stamp || !Authorized(a, action, facts.high) then (db, ErrStale)
        else if |OpenReviews(db, workspace)| >= REVIEWS_MAX then (db, ErrConflict)
        else if review in db.reviews || (exists id :: id in db.entries && db.entries[id].operation.review == review) then (db, ErrStore)
        else
          var hash := Digest(action, workspace, actor, a.connection, resource, review);
          var row := Review(workspace, actor, a.connection, resource, action, hash, facts.fingerprint,
                            a.credential, a.stamp, facts.high, facts.name, db.now + REVIEW_SECONDS, None);
          (db.(reviews := db.reviews[review := row]), Done)
  }

  predicate KeyChar(c: char) {
    ReferenceChar(c)
  }

  predicate ValidKey(key: string) {
    1 <= |key| <= KEY_MAX && forall i :: 0 <= i < |key| ==> KeyChar(key[i])
  }

  datatype Request = Request(workspace: Id, actor: M.User, key: string, review: Id, confirmed: bool, typed: string)

  datatype Answer = Found(operation: Id, state: OpState) | Proceed(hash: Digest) | Refused(code: Code)

  predicate HasKey(db: Store, id: Id, q: Request) {
    && id in db.entries
    && var o := db.entries[id].operation;
    o.workspace == q.workspace && o.actor == q.actor && o.key == q.key
  }

  /** The operations an actor may currently read. */
  predicate Readable(db: Store, actor: M.User, id: Id) {
    && id in db.entries
    && var o := db.entries[id].operation;
    && o.workspace in db.workspaces
    && M.IsMember(db.workspaces[o.workspace], actor)
    && M.Read in M.Granted(db.workspaces[o.workspace], o.connection, actor)
  }

  /** The lookup by idempotency key: a readable operation with this key, or nothing. */
  ghost function Resolve(db: Store, q: Request, hash: Digest): Answer {
    if exists id :: id in db.entries && HasKey(db, id, q) && Readable(db, q.actor, id) then
      var id :| id in db.entries && HasKey(db, id, q) && Readable(db, q.actor, id);
      if db.entries[id].operation.hash != hash then Refused(ErrConflict) else Found(id, db.entries[id].operation.state)
    else Proceed(hash)
  }

  function CheckReview(db: Store, q: Request, a: View, r: Review, recent: bool): Code {
    if r.consumed.Some? || r.expires <= db.now || r.connection != a.connection || r.credential != a.credential || r.policy != a.stamp then ErrStale
    else if !Authorized(a, r.action, r.high) then ErrDenied
    else if r.high && q.typed != r.name then ErrInvalid
    else if r.high && !recent then ErrRecent
    else Done
  }

  predicate OwnReview(db: Store, q: Request) {
    q.review in db.reviews && db.reviews[q.review].workspace == q.workspace && db.reviews[q.review].actor == q.actor
  }

  /** The first transaction of an acceptance: recover an earlier one, or check and let the caller inspect. */
  ghost function ConfirmFirst(db: Store, sv: Service, q: Request, recent: bool, live: bool, fault: bool): Answer {
    if !ValidKey(q.key) || !q.confirmed then Refused(ErrInvalid)
    else if q.workspace !in db.workspaces then Refused(ErrNotFound)
    else if !OwnReview(db, q) then Refused(ErrNotFound)
    else
      var r := db.reviews[q.review];
      var hash := Digest(r.action, q.workspace, q.actor, r.connection, r.resource, q.review);
      if hash != r.hash then Refused(ErrStale)
      else
        var earlier := Resolve(db, q, hash);
        if !earlier.Proceed? then earlier
        else
          var a := Authority(db, sv, q.actor, q.workspace, r.resource, live, fault);
          if a.None? then Refused(ErrNotFound)
          else
            var c := CheckReview(db, q, a.value, r, recent);
            if c.Done? then Proceed(hash) else Refused(c)
  }

  predicate Reserves(e: Entry, target: Target) {
    e.locked && e.operation.target == target
  }

  function ActiveJobs(db: Store, workspace: Id): set<Id> {
    set id | id in db.entries && db.entries[id].operation.workspace == workspace && HasActiveJob(db.entries[id])
  }

  /** The review, reservation, job and first event of a new operation, all in one commit. */
  function Accept(db: Store, q: Request, hash: Digest, r: Review, target: Target, id: Id): Store {
    var o := Operation(q.workspace, q.actor, r.connection, r.resource, target, r.action, hash, q.key, q.review,
                       r.credential, r.policy, Queued, 1, None);
    var j := Job(JobQueued, db.now, None, 0, db.now + OPERATION_SECONDS, None);
    db.(entries := db.entries[id := Entry(o, [Event(1, None, Queued)], Some(j), true, false)],
        reviews := db.reviews[q.review := r.(consumed := Some(id))])
  }

  /** The second transaction: everything is checked again, then written. `others` counts the workspace's refresh jobs. */
  ghost function ConfirmSecond(db: Store, sv: Service, q: Request, hash: Digest, facts: Facts, recent: bool, live: bool, fault: bool,
                         others: nat, id: Id): (Store, Answer)
  {
    if q.workspace !in db.workspaces then (db, Refused(ErrNotFound))
    else
      var earlier := Resolve(db, q, hash);
      if !earlier.Proceed? then (db, earlier)
      else if !OwnReview(db, q) then (db, Refused(ErrNotFound))
      else
        var r := db.reviews[q.review];
        var current := Authority(db, sv, q.actor, q.workspace, r.resource, live, fault);
        if current.None? then (db, Refused(ErrNotFound))
        else
          var a := current.value;
          var c := CheckReview(db, q, a, r, recent);
          if !c.Done? then (db, Refused(c))
          else if hash != r.hash || facts.fingerprint != r.fingerprint then (db, Refused(ErrStale))
          else if |ActiveJobs(db, q.workspace)| + others >= db.workspaces[q.workspace].settings.queueLimit then (db, Refused(ErrQuota))
          else if id in db.entries then (db, Refused(ErrStore))
          else if exists x :: x in db.entries && HasKey(db, x, q) then (db, Refused(ErrStore))
          else if exists x :: x in db.entries && db.entries[x].operation.review == q.review then (db, Refused(ErrStore))
          else if exists x :: x in db.entries && Reserves(db.entries[x], a.target) then (db, Refused(ErrBusy))
          else (Accept(db, q, hash, r, a.target, id), Found(id, Queued))
  }

  // ---- Leases ----

  /** Takes a due job, or one whose lease ran out; `at` is the claimer's clock reading before the query. */
  predicate Claimable(j: Job, at: int) {
    && j.deadline > at && j.attempts < ATTEMPTS_MAX
    && ((j.state.JobQueued? && j.nextRun <= at)
        || (j.state.JobRunning? && j.lease.Some? && j.lease.value.expires <= at))
  }

  function Claim(db: Store, l: Claimed, at: int): (Store, Code) {
    if l.operation !in db.entries || db.entries[l.operation].job.None? then (db, ErrLease)
    else
      var e := db.entries[l.operation];
      var j := e.job.value;
      if !Claimable(j, at) then (db, ErrLease)
      else
        var lease := Lease(l.owner, l.token, Min(at + LEASE_SECONDS, j.deadline));
        (Put(db, l.operation, WithJob(e, j.(state := JobRunning, lease := Some(lease), attempts := j.attempts + 1))), Done)
  }

  /** Extends a lease that has not run out at the holder's own clock reading. */
  function Renew(db: Store, l: Claimed, at: int): (Store, Code) {
    if l.operation !in db.entries || !LiveIn(db.entries[l.operation], l, at) then (db, ErrLease)
    else
      var e := db.entries[l.operation];
      var j := e.job.value;
      (Put(db, l.operation, WithJob(e, j.(lease := Some(Lease(l.owner, l.token, Min(at + LEASE_SECONDS, j.deadline)))))), Done)
  }

  // ---- The worker's transactions ----

  /** The local checks between a review and its dispatch; a failing read counts as a denial. */
  function DispatchCheck(db: Store, sv: Service, o: Operation, r: Review, live: bool, fault: bool): Code {
    var current := Authority(db, sv, o.actor, o.workspace, o.resource, live, fault);
    if current.None? then ErrDenied
    else
      var a := current.value;
      if !o.state.Queued? || a.connection != o.connection || a.credential != r.credential || a.stamp != r.policy then ErrStale
      else if !Authorized(a, r.action, r.high) then ErrDenied
      else if (a.family, r.action) !in sv.permits then ErrUnsupported
      else Done
  }

  /** The fenced read every worker transaction starts with. */
  predicate Loadable(db: Store, l: Claimed) {
    LeaseLive(db, l) && db.entries[l.operation].operation.review in db.reviews
  }

  function Loaded(db: Store, l: Claimed): (Operation, Review)
    requires Loadable(db, l)
  {
    var o := db.entries[l.operation].operation;
    (o, db.reviews[o.review])
  }

  /** Which of the reads before dispatch fails, if any: the workspace row, the operation's rows, or those of its authority. */
  datatype Reading = AllRead | WorkspaceUnread | OperationUnread | AuthorityUnread

  /**
   The read before dispatch, its provider answer compared with the review. A failing read of the workspace or of
   authority is reported as a denial, one of the operation as a store error.
   */
  function InspectDispatch(db: Store, sv: Service, l: Claimed, live: bool, reading: Reading, facts: Facts): Code {
    if reading.WorkspaceUnread? then ErrDenied
    else if reading.OperationUnread? then ErrStore
    else if !Loadable(db, l) then ErrLease
    else
      var (o, r) := Loaded(db, l);
      var c := DispatchCheck(db, sv, o, r, live, reading.AuthorityUnread?);
      if !c.Done? then c
      else
        var a := Authority(db, sv, o.actor, o.workspace, o.resource, live, reading.AuthorityUnread?).value;
        if !Reread(sv, a, r, facts).Done? then Reread(sv, a, r, facts)
        else if (a.family, r.action) !in sv.mutators then ErrUnsupported
        else Done
  }

  /** The codes that prove no submission may ever happen under this review. */
  predicate Definitive(c: Code) {
    c.ErrDenied? || c.ErrStale? || c.ErrUnsupported?
  }

  /** Commits the dispatching marker. */
  function Mark(db: Store, sv: Service, l: Claimed, fingerprint: nat, live: bool, fault: bool): (Store, Code) {
    if !Loadable(db, l) then (db, ErrLease)
    else
      var (o, r) := Loaded(db, l);
      var c := DispatchCheck(db, sv, o, r, live, fault);
      if !c.Done? then (db, c)
      else if !db.gate.open then (db, ErrRecovery)
      else if fingerprint != r.fingerprint then (db, ErrStale)
      else (Put(db, l.operation, Advance(db.entries[l.operation], Dispatching)), Done)
  }

  /** The entry with its job handed back, due again after `delay` but never past its deadline. */
  function HandBack(e: Entry, to: JobState, delay: nat, now: int): Entry
    requires e.job.Some?
  {
    var j := e.job.value;
    WithJob(e, Finished(j, to, Min(now + delay, j.deadline), now))
  }

  /** Fails work that was never sent. */
  function RejectUnsent(db: Store, l: Claimed, cause: Code): (Store, Code) {
    if !Definitive(cause) then (db, cause)
    else if !Loadable(db, l) then (db, ErrLease)
    else
      var e := db.entries[l.operation];
      if !e.operation.state.Queued? then (db, ErrState)
      else (Put(db, l.operation, HandBack(Advance(e, Failed), JobFailed, 0, db.now)), Done)
  }

  function WithReference(e: Entry, reference: Option<string>): Entry {
    e.(operation := e.operation.(reference := reference))
  }

  /** Stores the answer of the submission. */
  function StoreReceipt(db: Store, l: Claimed, reply: Reply, delay: nat): (Store, Code) {
    if !Loadable(db, l) then (db, ErrLease)
    else
      var e := db.entries[l.operation];
      if !e.operation.state.Dispatching? then (db, ErrState)
      else
        var (to, reference) := ClassifyActionReceipt(e.operation.action, reply);
        var moved := Advance(WithReference(e, reference), to);
        (Put(db, l.operation, HandBack(moved, if to.Failed? then JobFailed else JobQueued, delay, db.now)), Done)
  }

  datatype Sight = Pending | SeenSucceeded | SeenFailed | SeenUnknown | Unclear

  /** What one observation answered; `failed` when it could not be made. */
  datatype Observation = Observation(sight: Sight, native: bool, failed: bool)

  /** The state an observation argues for. */
  function Conclusion(x: Observation, referenced: bool): OpState {
    if x.failed then Reconciling
    else match x.sight
      case Pending => if referenced then WaitingProvider else Reconciling
      case SeenSucceeded => if x.native then Succeeded else Reconciling
      case SeenFailed => if x.native then Failed else Reconciling
      case SeenUnknown => Unknown
      case Unclear => Reconciling
  }

  /** A submitted operation that ends in unknown passes through reconciling. */
  function Settle(e: Entry, to: OpState): Entry {
    if to.Unknown? && (e.operation.state.Dispatching? || e.operation.state.WaitingProvider?)
    then Advance(Advance(e, Reconciling), Unknown)
    else Advance(e, to)
  }

  predicate Final(s: OpState) {
    s.Succeeded? || s.Failed? || s.Unknown?
  }

  function StoreObservation(db: Store, l: Claimed, from: OpState, to: OpState, delay: nat): (Store, Code) {
    if !Loadable(db, l) then (db, ErrLease)
    else
      var e := db.entries[l.operation];
      if e.operation.state != from || !InFlight(from) then (db, ErrState)
      else (Put(db, l.operation, HandBack(Settle(e, to), if Final(to) then JobSucceeded else JobQueued, delay, db.now)), Done)
  }

  // ---- User controls ----

  /** Who may control an operation. */
  function ControlLoad(db: Store, actor: M.User, workspace: Id, id: Id): Code {
    if workspace !in db.workspaces || id !in db.entries || db.entries[id].operation.workspace != workspace
       || db.entries[id].operation.review !in db.reviews || !Readable(db, actor, id) then ErrNotFound
    else
      var w, o := db.workspaces[workspace], db.entries[id].operation;
      var wanted := if db.reviews[o.review].high then M.HighImpact else M.Operate;
      if !M.WithinCeiling(w.members[actor].role, wanted) || wanted !in M.Granted(w, o.connection, actor) then ErrDenied
      else Done
  }

  function CancelJob(j: Job, now: int): Job {
    j.(state := JobCancelled, lease := None, completed := Some(now))
  }

  function Cancel(db: Store, actor: M.User, workspace: Id, id: Id): (Store, Code) {
    if !ControlLoad(db, actor, workspace, id).Done? then (db, ControlLoad(db, actor, workspace, id))
    else
      var e := db.entries[id];
      if !e.operation.state.Queued? then (db, ErrState)
      else
        var moved := Advance(e, Cancelled);
        (Put(db, id, if HasActiveJob(e) then WithJob(moved, CancelJob(e.job.value, db.now)) else moved), Done)
  }

  /** Reopens a reserved unknown operation for observation only. */
  function Recheck(db: Store, actor: M.User, workspace: Id, id: Id): (Store, Code) {
    if !ControlLoad(db, actor, workspace, id).Done? then (db, ControlLoad(db, actor, workspace, id))
    else
      var e := db.entries[id];
      if e.operation.state.Reconciling? && HasActiveJob(e) && e.job.value.deadline > db.now then (db, Done)
      else if !e.operation.state.Unknown? then (db, ErrState)
      else if !e.locked then (db, ErrState)
      else if e.job.None? then (db, ErrStore)
      else (Put(db, id, WithJob(Advance(e, Reconciling), Job(JobQueued, db.now, None, 0, db.now + RECHECK_SECONDS, None))), Done)
  }

  /** An owner signs off the residual risk: the operation stays unknown and gives up its reservation. */
  function ReleaseUnknown(db: Store, actor: M.User, workspace: Id, id: Id, acknowledged: bool, typed: string, recent: bool): (Store, Code) {
    if !acknowledged then (db, ErrInvalid)
    else if !recent then (db, ErrRecent)
    else if !ControlLoad(db, actor, workspace, id).Done? then (db, ControlLoad(db, actor, workspace, id))
    else
      var w, e := db.workspaces[workspace], db.entries[id];
      if !w.members[actor].role.Owner? then (db, ErrDenied)
      else if !e.operation.state.Unknown? then (db, ErrState)
      else if M.HighImpact !in M.Granted(w, e.operation.connection, actor) then (db, ErrDenied)
      else if db.reviews[e.operation.review].name != typed then (db, ErrInvalid)
      else if e.resolved || !e.locked then (db, ErrState)
      else
        var released := e.(resolved := true, locked := false);
        (Put(db, id, if e.job.Some? then WithJob(released, CancelJob(e.job.value, db.now)) else released), Done)
  }

  // ---- Maintenance ----

  /** Out of time or attempts, with no live lease that could still write. */
  predicate Exhausted(e: Entry, now: int) {
    && HasActiveJob(e)
    && var j := e.job.value;
    && (j.deadline <= now || j.attempts >= ATTEMPTS_MAX)
    && (j.lease.None? || j.lease.value.expires <= now)
  }

  /** Checkpoints one exhausted job: unsent work fails, submitted work becomes unknown and stays reserved. */
  function ExpireEntry(e: Entry, now: int): Entry
    requires Exhausted(e, now)
  {
    var s := e.operation.state;
    var moved := if s.Queued? then Advance(e, Failed) else if InFlight(s) then Settle(e, Unknown) else e;
    WithJob(moved, e.job.value.(state := JobFailed, lease := None, completed := Some(now)))
  }

  function ExpireOne(db: Store, id: Id): Store {
    if id in db.entries && Exhausted(db.entries[id], db.now)
    then Put(db, id, ExpireEntry(db.entries[id], db.now))
    else db
  }

  /** Submitted, without a definite outcome, and still reserved. */
  predicate Unresolved(e: Entry) {
    InFlight(e.operation.state) || (e.operation.state.Unknown? && e.locked)
  }

  /** Closing always works; reopening needs the inspected version and no unresolved submission. */
  function SetRecovery(db: Store, open: bool, version: int): (Store, Code) {
    if open && version != db.gate.version then (db, ErrStale)
    else if open && (exists id :: id in db.entries && Unresolved(db.entries[id])) then (db, ErrRecovery)
    else (db.(gate := Gate(open, db.gate.version + 1)), Done)
  }

  predicate PrunableReview(db: Store, r: Id) {
    && r in db.reviews && db.reviews[r].consumed.None?
    && db.reviews[r].expires < db.now - RETENTION_SECONDS
    && !(exists id :: id in db.entries && db.entries[id].operation.review == r)
  }

  function PruneReviews(db: Store, chosen: set<Id>): Store {
    db.(reviews := map r | r in db.reviews && !(r in chosen && PrunableReview(db, r)) :: db.reviews[r])
  }

  predicate PrunableJob(e: Entry, now: int) {
    && e.job.Some? && !Active(e.job.value)
    && e.job.value.completed.Some? && e.job.value.completed.value < now - RETENTION_SECONDS
    && Terminal(e.operation.state)
  }

  function PruneJob(db: Store, id: Id): Store {
    if id in db.entries && PrunableJob(db.entries[id], db.now)
    then Put(db, id, db.entries[id].(job := None))
    else db
  }

  // ---- Connection changes ----

  /** Stores the next credential version if no other rotation came first. */
  function Rotate(db: Store, actor: M.User, workspace: Id, connection: Id, seen: int, verified: set<Action>): (Store, Code) {
    if workspace !in db.workspaces || connection !in db.connections || db.connections[connection].workspace != workspace then (db, ErrNotFound)
    else if !M.LockAuthority(db.workspaces[workspace], actor).Done? then (db, ErrDenied)
    else if db.connections[connection].credential != seen then (db, ErrStale)
    else
      var c := db.connections[connection].(credential := seen + 1, verified := verified);
      (db.(connections := db.connections[connection := c]), Done)
  }

  /** What disabling a connection does to one of its operations: a queued job is cancelled. */
  function DisableEntry(e: Entry, connection: Id, now: int): Entry {
    if e.operation.connection == connection && e.job.Some? && e.job.value.state.JobQueued?
    then WithJob(e, e.job.value.(state := JobCancelled, completed := Some(now)))
    else e
  }

  function Disable(db: Store, actor: M.User, workspace: Id, connection: Id): (Store, Code) {
    if workspace !in db.workspaces || connection !in db.connections || db.connections[connection].workspace != workspace then (db, ErrNotFound)
    else if !M.LockAuthority(db.workspaces[workspace], actor).Done? then (db, ErrDenied)
    else if !db.connections[connection].active then (db, Done)
    else
      (db.(connections := db.connections[connection := db.connections[connection].(active := false)],
           entries := map id | id in db.entries :: DisableEntry(db.entries[id], connection, db.now)), Done)
  }

  function ChangeAuthority(db: Store, workspace: Id, c: M.Change): Store {
    if workspace in db.workspaces then db.(workspaces := db.workspaces[workspace := M.Apply(db.workspaces[workspace], c)]) else db
  }
}
