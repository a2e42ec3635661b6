/**
 The whole protocol as a state machine. A world is the committed tables together with what lives
 only in processes: each worker's place between its transactions, and each client's place in the
 gap between the two transactions of a review or an acceptance. Every actor takes one atomic step
 at a time, in any order, and a worker may crash at any point. `issued` and `trails` record what
 happened and steer nothing.
 */
module Protocol {
  import opened Options
  import opened Lifecycle
  import opened Receipts
  import opened Tables
  import opened Transactions
  import opened Consistency
  import M = Membership

  /** Where a worker stands. */
  datatype Pc =
    | Idle
    | Taken                                                  // claimed, lease not yet renewed
    | Ready                                                  // may start its work
    | Loaded                                                 // read a queued operation
    | Inspected(fingerprint: nat)                            // local checks and provider read passed
    | Rejecting(cause: Code)                                 // they failed for good
    | Marked                                                 // committed the dispatching marker itself
    | Sent(reply: Reply)                                     // submitted, answer not yet stored
    | Observing(from: OpState, referenced: bool)             // found a submitted operation
    | Observed(from: OpState, sight: Observation, referenced: bool)

  /** `until` is the local deadline of the worker's context. */
  datatype Worker = Worker(pc: Pc, claim: Claimed, until: int)

  datatype Client =
    | Away
    | Reviewing(actor: M.User, workspace: Id, resource: Id, action: Action, seen: View)
    | Confirming(request: Request, hash: Digest, seen: View, review: Review)

  /** The record of one operation: its marker's token, its submissions, the native evidence, the rechecks. */
  datatype Trail = Trail(marker: Option<Id>, replies: seq<Reply>, success: bool, failure: bool, rechecks: nat)

  datatype World = World(
    db: Store,
    workers: map<Id, Worker>,
    clients: map<Id, Client>,
    issued: map<Id, Claimed>,
    trails: map<Id, Trail>)

  datatype Step =
    | Tick(seconds: nat)
    // clients
    | ReadForReview(client: Id, sv: Service, actor: M.User, workspace: Id, resource: Id, action: Action, live: bool, fault: bool)
    | WriteReview(client: Id, sv: Service, facts: Facts, recent: bool, live: bool, fault: bool, review: Id)
    | ReadForConfirm(client: Id, sv: Service, request: Request, recent: bool, live: bool, fault: bool)
    | WriteConfirm(client: Id, sv: Service, facts: Facts, recent: bool, live: bool, fault: bool, others: nat, id: Id)
    | GiveUp(client: Id)
    // workers
    | Take(worker: Id, operation: Id, token: Id, at: int)
    | Extend(worker: Id, started: int, at: int)
    | Load(worker: Id)
    | Look(worker: Id, sv: Service, live: bool, reading: Reading, facts: Facts)
    | CommitMarker(worker: Id, sv: Service, live: bool, fault: bool)
    | Submit(worker: Id, reply: Reply)
    | CommitReceipt(worker: Id, delay: nat)
    | CommitRejection(worker: Id)
    | Observe(worker: Id, sight: Observation)
    | CommitObservation(worker: Id, delay: nat)
    | Crash(worker: Id)
    // users, owners and maintenance
    | UserCancel(actor: M.User, workspace: Id, id: Id)
    | UserRecheck(actor: M.User, workspace: Id, id: Id)
    | OwnerRelease(actor: M.User, workspace: Id, id: Id, acknowledged: bool, typed: string, recent: bool)
    | Expiry(id: Id)
    | SetGate(open: bool, version: int)
    | DropReviews(chosen: set<Id>)
    | DropJob(id: Id)
    | RotateCredential(actor: M.User, workspace: Id, connection: Id, seen: int, verified: set<Action>)
    | DisableConnection(actor: M.User, workspace: Id, connection: Id)
    | AuthorityChange(workspace: Id, change: M.Change)

  // ---- The steps ----

  function WorkerOf(w: World, id: Id): Worker {
    if id in w.workers then w.workers[id] else Worker(Idle, Claimed(0, id, 0), 0)
  }

  function ClientOf(w: World, id: Id): Client {
    if id in w.clients then w.clients[id] else Away
  }

  function AtPc(w: World, id: Id, pc: Pc): World {
    w.(workers := w.workers[id := WorkerOf(w, id).(pc := pc)])
  }

  function TrailOf(w: World, id: Id): Trail {
    if id in w.trails then w.trails[id] else Trail(None, [], false, false, 0)
  }

  function ReviewRead(w: World, s: Step): World
    requires s.ReadForReview?
  {
    var seen := Authority(w.db, s.sv, s.actor, s.workspace, s.resource, s.live, s.fault);
    if !ClientOf(w, s.client).Away? || seen.None? then w
    else w.(clients := w.clients[s.client := Reviewing(s.actor, s.workspace, s.resource, s.action, seen.value)])
  }

  function ReviewWrite(w: World, s: Step): World
    requires s.WriteReview?
  {
    var c := ClientOf(w, s.client);
    if !c.Reviewing? then w
    else
      w.(db := StoreReview(w.db, s.sv, c.actor, c.workspace, c.resource, c.action, c.seen, s.facts, s.recent, s.live, s.fault, s.review).0,
         clients := w.clients[s.client := Away])
  }

  ghost function ConfirmRead(w: World, s: Step): World
    requires s.ReadForConfirm?
  {
    var answer := ConfirmFirst(w.db, s.sv, s.request, s.recent, s.live, s.fault);
    if !ClientOf(w, s.client).Away? || !answer.Proceed? then w
    else
      var r := w.db.reviews[s.request.review];
      var seen := Authority(w.db, s.sv, s.request.actor, s.request.workspace, r.resource, s.live, s.fault).value;
      w.(clients := w.clients[s.client := Confirming(s.request, answer.hash, seen, r)])
  }

  ghost function ConfirmWrite(w: World, s: Step): World
    requires s.WriteConfirm?
  {
    var c := ClientOf(w, s.client);
    if !c.Confirming? then w
    else if !Reread(s.sv, c.seen, c.review, s.facts).Done? then w.(clients := w.clients[s.client := Away])
    else
      var (db, answer) := ConfirmSecond(w.db, s.sv, c.request, c.hash, s.facts, s.recent, s.live, s.fault, s.others, s.id);
      w.(db := db, clients := w.clients[s.client := Away],
         trails := if s.id in db.entries && s.id !in w.db.entries
                   then w.trails[s.id := Trail(None, [], false, false, 0)] else w.trails)
  }

  /** Tokens are fresh random values, and nobody reads a clock that is ahead. */
  function TakeJob(w: World, s: Step): World
    requires s.Take?
  {
    var claim := Claimed(s.operation, s.worker, s.token);
    var (db, code) := Claim(w.db, claim, s.at);
    if !WorkerOf(w, s.worker).pc.Idle? || s.token in w.issued || s.at > w.db.now || !code.Done? then w
    else w.(db := db, issued := w.issued[s.token := claim], workers := w.workers[s.worker := Worker(Taken, claim, s.at)])
  }

  /** The local deadline is anchored at a clock reading taken before the renewal was asked for. */
  function ExtendLease(w: World, s: Step): World
    requires s.Extend?
  {
    var x := WorkerOf(w, s.worker);
    var (db, code) := Renew(w.db, x.claim, s.at);
    if x.pc.Idle? || s.started > s.at || s.at > w.db.now || !code.Done? then w
    else
      var expires := db.entries[x.claim.operation].job.value.lease.value.expires;
      w.(db := db, workers := w.workers[s.worker :=
        Worker(if x.pc.Taken? then Ready else x.pc, x.claim, s.started + (expires - s.at))])
  }

  /** A worker that finds a submitted operation only ever observes it. */
  function LoadOperation(w: World, s: Step): World
    requires s.Load?
  {
    var x := WorkerOf(w, s.worker);
    if !x.pc.Ready? then w
    else if !Loadable(w.db, x.claim) then AtPc(w, s.worker, Idle)
    else
      var o := w.db.entries[x.claim.operation].operation;
      if o.state.Queued? then AtPc(w, s.worker, Loaded)
      else if InFlight(o.state) then AtPc(w, s.worker, Observing(o.state, o.reference.Some?))
      else AtPc(w, s.worker, Idle)
  }

  function LookBeforeDispatch(w: World, s: Step): World
    requires s.Look?
  {
    var x := WorkerOf(w, s.worker);
    if !x.pc.Loaded? then w
    else
      var c := InspectDispatch(w.db, s.sv, x.claim, s.live, s.reading, s.facts);
      if c.Done? then AtPc(w, s.worker, Inspected(s.facts.fingerprint))
      else if Definitive(c) then AtPc(w, s.worker, Rejecting(c))
      else AtPc(w, s.worker, Idle)
  }

  function MarkDispatching(w: World, s: Step): World
    requires s.CommitMarker?
  {
    var x := WorkerOf(w, s.worker);
    if !x.pc.Inspected? then w
    else
      var (db, code) := Mark(w.db, s.sv, x.claim, x.pc.fingerprint, s.live, s.fault);
      if !code.Done? then AtPc(w, s.worker, Idle)
      else
        var t := TrailOf(w, x.claim.operation).(marker := Some(x.claim.token));
        AtPc(w, s.worker, Marked).(db := db, trails := w.trails[x.claim.operation := t])
  }

  /** The one call that may have an effect. Nothing in the database fences it. */
  function SubmitOnce(w: World, s: Step): World
    requires s.Submit?
  {
    var x := WorkerOf(w, s.worker);
    if !x.pc.Marked? then w
    else
      var t := TrailOf(w, x.claim.operation);
      AtPc(w, s.worker, Sent(s.reply)).(trails := w.trails[x.claim.operation := t.(replies := t.replies + [s.reply])])
  }

  function KeepReceipt(w: World, s: Step): World
    requires s.CommitReceipt?
  {
    var x := WorkerOf(w, s.worker);
    if !x.pc.Sent? then w
    else AtPc(w, s.worker, Idle).(db := StoreReceipt(w.db, x.claim, x.pc.reply, s.delay).0)
  }

  function KeepRejection(w: World, s: Step): World
    requires s.CommitRejection?
  {
    var x := WorkerOf(w, s.worker);
    if !x.pc.Rejecting? then w
    else AtPc(w, s.worker, Idle).(db := RejectUnsent(w.db, x.claim, x.pc.cause).0)
  }

  function MakeObservation(w: World, s: Step): World
    requires s.Observe?
  {
    var x := WorkerOf(w, s.worker);
    if !x.pc.Observing? then w
    else
      var t := TrailOf(w, x.claim.operation);
      var to := Conclusion(s.sight, x.pc.referenced);
      AtPc(w, s.worker, Observed(x.pc.from, s.sight, x.pc.referenced)).(
        trails := w.trails[x.claim.operation := t.(success := t.success || to.Succeeded?, failure := t.failure || to.Failed?)])
  }

  function KeepObservation(w: World, s: Step): World
    requires s.CommitObservation?
  {
    var x := WorkerOf(w, s.worker);
    if !x.pc.Observed? then w
    else AtPc(w, s.worker, Idle).(db := StoreObservation(w.db, x.claim, x.pc.from, Conclusion(x.pc.sight, x.pc.referenced), s.delay).0)
  }

  function RecheckOperation(w: World, s: Step): World
    requires s.UserRecheck?
  {
    var db := Recheck(w.db, s.actor, s.workspace, s.id).0;
    var reopened := s.id in w.db.entries && w.db.entries[s.id].operation.state.Unknown? && db.entries[s.id].operation.state.Reconciling?;
    var t := TrailOf(w, s.id);
    w.(db := db, trails := if reopened then w.trails[s.id := t.(rechecks := t.rechecks + 1)] else w.trails)
  }

  ghost function Apply(w: World, s: Step): World {
    match s
    case Tick(seconds) => w.(db := w.db.(now := w.db.now + seconds))
    case ReadForReview(_, _, _, _, _, _, _, _) => ReviewRead(w, s)
    case WriteReview(_, _, _, _, _, _, _) => ReviewWrite(w, s)
    case ReadForConfirm(_, _, _, _, _, _) => ConfirmRead(w, s)
    case WriteConfirm(_, _, _, _, _, _, _, _) => ConfirmWrite(w, s)
    case GiveUp(client) => w.(clients := w.clients[client := Away])
    case Take(_, _, _, _) => TakeJob(w, s)
    case Extend(_, _, _) => ExtendLease(w, s)
    case Load(_) => LoadOperation(w, s)
    case Look(_, _, _, _, _) => LookBeforeDispatch(w, s)
    case CommitMarker(_, _, _, _) => MarkDispatching(w, s)
    case Submit(_, _) => SubmitOnce(w, s)
    case CommitReceipt(_, _) => KeepReceipt(w, s)
    case CommitRejection(_) => KeepRejection(w, s)
    case Observe(_, _) => MakeObservation(w, s)
    case CommitObservation(_, _) => KeepObservation(w, s)
    case Crash(worker) => AtPc(w, worker, Idle)
    case UserCancel(actor, workspace, id) => w.(db := Cancel(w.db, actor, workspace, id).0)
    case UserRecheck(_, _, _) => RecheckOperation(w, s)
    case OwnerRelease(actor, workspace, id, ack, typed, recent) => w.(db := ReleaseUnknown(w.db, actor, workspace, id, ack, typed, recent).0)
    case Expiry(id) => w.(db := ExpireOne(w.db, id))
    case SetGate(open, version) => w.(db := SetRecovery(w.db, open, version).0)
    case DropReviews(chosen) => w.(db := PruneReviews(w.db, chosen))
    case DropJob(id) => w.(db := PruneJob(w.db, id))
    case RotateCredential(actor, workspace, connection, seen, verified) => w.(db := Rotate(w.db, actor, workspace, connection, seen, verified).0)
    case DisableConnection(actor, workspace, connection) => w.(db := Disable(w.db, actor, workspace, connection).0)
    case AuthorityChange(workspace, change) => w.(db := ChangeAuthority(w.db, workspace, change))
  }

  ghost function Run(w: World, steps: seq<Step>): World
    decreases |steps|
  {
    if steps == [] then w else Run(Apply(w, steps[0]), steps[1..])
  }

  lemma {:induction false} RunSplits(w: World, a: seq<Step>, b: seq<Step>)
    ensures Run(w, a + b) == Run(Run(w, a), b)
    decreases |a|
  {
    if a == [] {
      assert a + b == b;
    } else {
      assert (a + b)[1..] == a[1..] + b;
      RunSplits(Apply(w, a[0]), a[1..], b);
    }
  }

  /** An installation before its first operation: no reviews, no workers, the gate closed. */
  ghost predicate Initial(w: World) {
    && w.db.entries == map[] && w.db.reviews == map[]
    && w.workers == map[] && w.clients == map[] && w.issued == map[] && w.trails == map[]
    && !w.db.gate.open
    && forall ws :: ws in w.db.workspaces ==> M.Inv(w.db.workspaces[ws])
  }

  // ---- What every reachable world satisfies ----

  const EVENTS_PER_BUDGET := 203

  /** Events this claim may still append: two, or one once it has committed the marker. */
  function ClaimRoom(e: Entry, t: Trail): nat {
    if e.job.None? || e.job.value.lease.None? then 0
    else if t.marker == Some(e.job.value.lease.value.token) then 1 else 2
  }

  /** Events the current attempt budget may still append. */
  function Room(e: Entry, t: Trail): nat {
    if HasActiveJob(e) && e.job.value.attempts <= ATTEMPTS_MAX
    then 2 * (ATTEMPTS_MAX - e.job.value.attempts) + 2 + ClaimRoom(e, t)
    else if e.operation.state.Queued? then 1 else 0
  }

  /** Every outcome is backed by what the provider was asked and what it answered. */
  ghost predicate EvidenceFor(e: Entry, t: Trail) {
    var s := e.operation.state;
    && ((s.Queued? || s.Cancelled?) ==> t.marker.None?)
    && ((InFlight(s) || s.Unknown? || s.Succeeded?) ==> t.marker.Some?)
    && |t.replies| <= 1
    && (t.marker.None? ==> t.replies == [])
    && (s.Succeeded? ==> t.success)
    && (s.Failed? ==> t.marker.None? || t.failure || (|t.replies| == 1 && DefiniteRejection(t.replies[0])))
  }

  ghost predicate OperationOk(e: Entry, t: Trail) {
    && EvidenceFor(e, t)
    && |e.events| + Room(e, t) <= EVENTS_PER_BUDGET * (t.rechecks + 1)
  }

  /** The current lease and the marker were handed out under their tokens. */
  ghost predicate TokensOk(id: Id, e: Entry, t: Trail, issued: map<Id, Claimed>) {
    && (e.job.Some? && e.job.value.lease.Some? ==>
         var l := e.job.value.lease.value; l.token in issued && issued[l.token] == Claimed(id, l.owner, l.token))
    && (t.marker.Some? ==> t.marker.value in issued && issued[t.marker.value].operation == id)
  }

  predicate HasLease(e: Entry, l: Claimed) {
    e.job.Some? && e.job.value.lease.Some? && e.job.value.lease.value.token == l.token
  }

  /** Before it committed a marker, or when it never will. */
  predicate Unmarked(pc: Pc) {
    !pc.Marked? && !pc.Sent?
  }

  ghost predicate PcOk(x: Worker, t: Trail) {
    && (Unmarked(x.pc) ==> t.marker != Some(x.claim.token))
    && (x.pc.Marked? ==> t.marker == Some(x.claim.token) && t.replies == [])
    && (x.pc.Sent? ==> t.marker == Some(x.claim.token) && t.replies == [x.pc.reply])
    && (x.pc.Observing? ==> t.marker.Some?)
    && (x.pc.Observed? ==> t.marker.Some?
                           && (Conclusion(x.pc.sight, x.pc.referenced).Succeeded? ==> t.success)
                           && (Conclusion(x.pc.sight, x.pc.referenced).Failed? ==> t.failure))
  }

  /** While a marker's worker is inside its local deadline, its lease is the job's and the operation waits for it. */
  ghost predicate TimingOk(x: Worker, e: Entry, now: int) {
    && (HasLease(e, x.claim) ==> x.until <= e.job.value.lease.value.expires)
    && (x.pc.Marked? && HasLease(e, x.claim) ==> e.operation.state.Dispatching?)
    && (x.pc.Marked? && now < x.until ==> HasLease(e, x.claim))
  }

  ghost predicate WorkerOk(id: Id, x: Worker, w: World) {
    !x.pc.Idle? ==>
      && x.claim.owner == id
      && x.claim.token in w.issued && w.issued[x.claim.token] == x.claim
      && x.claim.operation in w.db.entries && x.claim.operation in w.trails
      && PcOk(x, w.trails[x.claim.operation])
      && TimingOk(x, w.db.entries[x.claim.operation], w.db.now)
  }

  /** What the processes and the record may rely on. */
  ghost predicate Live(w: World) {
    && w.trails.Keys == w.db.entries.Keys
    && (forall id :: id in w.db.entries ==> OperationOk(w.db.entries[id], w.trails[id]) && TokensOk(id, w.db.entries[id], w.trails[id], w.issued))
    && (forall t :: t in w.issued ==> w.issued[t].token == t && w.issued[t].operation in w.db.entries)
    && (forall id :: id in w.workers ==> WorkerOk(id, w.workers[id], w))
  }

  ghost predicate Inv(w: World) {
    Consistent(w.db) && Live(w)
  }
}
