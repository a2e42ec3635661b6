/**
 What an undisturbed worker achieves: nothing in the protocol's many guards keeps a due operation from being
 dispatched, or a submitted one from being settled as it is observed.
 */
module Progress {
  import opened Options
  import opened Lifecycle
  import opened Receipts
  import opened Tables
  import opened Transactions
  import opened Leases
  import opened Protocol
  import opened ProtocolSteps
  import opened Submission
  import opened Coverage

  /** An idle worker, a token nobody holds, and a job that is due or was abandoned. */
  ghost predicate Due(w: World, me: Id, id: Id, token: Id) {
    && WorkerOf(w, me).pc.Idle? && token !in w.issued
    && id in w.db.entries && Takeable(w.db.entries[id], w.db.now)
    && w.db.entries[id].operation.review in w.db.reviews
  }

  /** What every check before dispatch asks for, of the rows and of the provider's answer. */
  ghost predicate Dispatchable(db: Store, sv: Service, o: Operation, facts: Facts) {
    && o.review in db.reviews && db.gate.open
    && var r := db.reviews[o.review];
    && DispatchCheck(db, sv, o, r, true, false).Done?
    && var a := Authority(db, sv, o.actor, o.workspace, o.resource, true, false).value;
    && Inspect(sv, a, r.action, facts).Done? && (a.family, r.action) in sv.mutators
    && facts.fingerprint == r.fingerprint && facts.high == r.high && facts.name == r.name
  }

  function Leased(e: Entry, l: Claimed, now: int): Entry
    requires e.job.Some?
  {
    var j := e.job.value;
    WithJob(e, j.(state := JobRunning, attempts := j.attempts + 1, lease := Some(Lease(l.owner, l.token, Min(now + LEASE_SECONDS, j.deadline)))))
  }

  /** The world once the worker has claimed the job and renewed its lease. */
  function Holding(w: World, me: Id, id: Id, token: Id): World
    requires id in w.db.entries && w.db.entries[id].job.Some?
  {
    var claim := Claimed(id, me, token);
    var until := Min(w.db.now + LEASE_SECONDS, w.db.entries[id].job.value.deadline);
    w.(db := Put(w.db, id, Leased(w.db.entries[id], claim, w.db.now)), issued := w.issued[token := claim],
       workers := w.workers[me := Worker(Ready, claim, until)])
  }

  function TakenBy(w: World, me: Id, id: Id, token: Id): World
    requires id in w.db.entries && w.db.entries[id].job.Some?
  {
    var claim := Claimed(id, me, token);
    w.(db := Put(w.db, id, Leased(w.db.entries[id], claim, w.db.now)), issued := w.issued[token := claim],
       workers := w.workers[me := Worker(Taken, claim, w.db.now)])
  }

  lemma TakeApplied(w: World, me: Id, id: Id, token: Id)
    requires Due(w, me, id, token)
    ensures Apply(w, Take(me, id, token, w.db.now)) == TakenBy(w, me, id, token)
  {
    ClaimsExactly(w.db, Claimed(id, me, token), w.db.now);
  }

  lemma RenewSame(db: Store, l: Claimed)
    requires l.operation in db.entries && LiveIn(db.entries[l.operation], l, db.now)
    requires var j := db.entries[l.operation].job.value; j.lease.value.expires == Min(db.now + LEASE_SECONDS, j.deadline)
    ensures Renew(db, l, db.now) == (db, Done)
  {
    var e := db.entries[l.operation];
    assert WithJob(e, e.job.value.(lease := Some(e.job.value.lease.value))) == e;
    assert db.entries[l.operation := e] == db.entries;
  }

  lemma ExtendApplied(w: World, me: Id, l: Claimed)
    requires WorkerOf(w, me).pc.Taken? && WorkerOf(w, me).claim == l
    requires l.operation in w.db.entries && LiveIn(w.db.entries[l.operation], l, w.db.now)
    requires var j := w.db.entries[l.operation].job.value; j.lease.value.expires == Min(w.db.now + LEASE_SECONDS, j.deadline)
    ensures Apply(w, Extend(me, w.db.now, w.db.now))
      == w.(workers := w.workers[me := Worker(Ready, l, w.db.entries[l.operation].job.value.lease.value.expires)])
  {
    RenewSame(w.db, l);
  }

  lemma RunTwo(w: World, a: Step, b: Step, w1: World, w2: World)
    requires Apply(w, a) == w1 && Apply(w1, b) == w2
    ensures Run(w, [a, b]) == w2
  {
    assert [a, b][1..] == [b];
    assert Run(w1, [b]) == Run(w2, []);
  }

  lemma RunThree(w: World, a: Step, b: Step, c: Step, w1: World, w2: World)
    requires Apply(w, a) == w1 && Run(w1, [b, c]) == w2
    ensures Run(w, [a, b, c]) == w2
  {
    assert [a, b, c][1..] == [b, c];
  }

  lemma ThreeSteps(w: World, a: Step, b: Step, c: Step, w1: World, w2: World)
    requires Apply(w, a) == w1 && Apply(w1, b) == w2
    ensures Run(w, [a, b, c]) == Apply(w2, c)
  {
    RunTwo(w1, b, c, w2, Apply(w2, c));
    RunThree(w, a, b, c, w1, Apply(w2, c));
  }

  lemma RenewApplied(w: World, me: Id, id: Id, token: Id)
    requires Due(w, me, id, token)
    ensures Apply(TakenBy(w, me, id, token), Extend(me, w.db.now, w.db.now)) == Holding(w, me, id, token)
  {
    ExtendApplied(TakenBy(w, me, id, token), me, Claimed(id, me, token));
  }

  lemma LeaseTaken(w: World, me: Id, id: Id, token: Id)
    requires Due(w, me, id, token)
    ensures Run(w, [Take(me, id, token, w.db.now), Extend(me, w.db.now, w.db.now)]) == Holding(w, me, id, token)
  {
    TakeApplied(w, me, id, token);
    RenewApplied(w, me, id, token);
    RunTwo(w, Take(me, id, token, w.db.now), Extend(me, w.db.now, w.db.now), TakenBy(w, me, id, token), Holding(w, me, id, token));
  }

  /** The world once the worker has committed the marker under that lease. */
  function MarkedBy(w: World, me: Id, id: Id, token: Id): World
    requires id in w.db.entries && w.db.entries[id].job.Some?
  {
    var h := Holding(w, me, id, token);
    AtPc(h, me, Marked).(
      db := Put(h.db, id, Advance(h.db.entries[id], Dispatching)),
      trails := h.trails[id := TrailOf(h, id).(marker := Some(token))])
  }

  lemma ChecksPass(w: World, me: Id, id: Id, token: Id, sv: Service, facts: Facts)
    requires Due(w, me, id, token) && Dispatchable(w.db, sv, w.db.entries[id].operation, facts)
    ensures var h, claim := Holding(w, me, id, token), Claimed(id, me, token);
      && Loadable(h.db, claim) && Dispatchable(h.db, sv, h.db.entries[id].operation, facts)
      && InspectDispatch(h.db, sv, claim, true, AllRead, facts).Done?
      && Mark(h.db, sv, claim, facts.fingerprint, true, false) == (Put(h.db, id, Advance(h.db.entries[id], Dispatching)), Done)
  {
    var h, claim := Holding(w, me, id, token), Claimed(id, me, token);
    var o := w.db.entries[id].operation;
    assert h.db.entries[id].operation == o;
    assert Authority(h.db, sv, o.actor, o.workspace, o.resource, true, false)
      == Authority(w.db, sv, o.actor, o.workspace, o.resource, true, false);
  }

  lemma Looks(w: World, me: Id, id: Id, token: Id, sv: Service, facts: Facts)
    requires Due(w, me, id, token) && Dispatchable(w.db, sv, w.db.entries[id].operation, facts)
    requires w.db.entries[id].operation.state.Queued?
    ensures var h := Holding(w, me, id, token);
      && Apply(h, Load(me)) == AtPc(h, me, Loaded)
      && Apply(AtPc(h, me, Loaded), Look(me, sv, true, AllRead, facts)) == AtPc(h, me, Inspected(facts.fingerprint))
  {
    ChecksPass(w, me, id, token, sv, facts);
    var h := Holding(w, me, id, token);
    assert AtPc(AtPc(h, me, Loaded), me, Inspected(facts.fingerprint)) == AtPc(h, me, Inspected(facts.fingerprint));
  }

  lemma MarksOnce(w: World, me: Id, id: Id, token: Id, sv: Service, facts: Facts)
    requires Due(w, me, id, token) && Dispatchable(w.db, sv, w.db.entries[id].operation, facts)
    ensures Apply(AtPc(Holding(w, me, id, token), me, Inspected(facts.fingerprint)), CommitMarker(me, sv, true, false)) == MarkedBy(w, me, id, token)
  {
    ChecksPass(w, me, id, token, sv, facts);
    var h := Holding(w, me, id, token);
    assert AtPc(AtPc(h, me, Inspected(facts.fingerprint)), me, Marked) == AtPc(h, me, Marked);
  }

  lemma Marks(w: World, me: Id, id: Id, token: Id, sv: Service, facts: Facts)
    requires Due(w, me, id, token) && Dispatchable(w.db, sv, w.db.entries[id].operation, facts)
    requires w.db.entries[id].operation.state.Queued?
    ensures Run(Holding(w, me, id, token), [Load(me), Look(me, sv, true, AllRead, facts), CommitMarker(me, sv, true, false)])
      == MarkedBy(w, me, id, token)
  {
    Looks(w, me, id, token, sv, facts);
    MarksOnce(w, me, id, token, sv, facts);
    var h := Holding(w, me, id, token);
    ThreeSteps(h, Load(me), Look(me, sv, true, AllRead, facts), CommitMarker(me, sv, true, false),
               AtPc(h, me, Loaded), AtPc(h, me, Inspected(facts.fingerprint)));
  }

  /** The row after the answer to the one submission was stored. */
  function Answered(e: Entry, l: Claimed, reply: Reply, delay: nat, now: int): Entry
    requires e.job.Some?
  {
    var (to, reference) := ClassifyActionReceipt(e.operation.action, reply);
    HandBack(Advance(WithReference(Advance(Leased(e, l, now), Dispatching), reference), to),
             if to.Failed? then JobFailed else JobQueued, delay, now)
  }

  lemma Answers(w: World, me: Id, id: Id, token: Id, reply: Reply, delay: nat)
    requires Due(w, me, id, token) && w.db.entries[id].operation.state.Queued?
    ensures var w' := Run(MarkedBy(w, me, id, token), [Submit(me, reply), CommitReceipt(me, delay)]);
      && w'.db == Put(w.db, id, Answered(w.db.entries[id], Claimed(id, me, token), reply, delay, w.db.now))
      && WorkerOf(w', me).pc.Idle? && w'.issued == w.issued[token := Claimed(id, me, token)]
  {
    var m := MarkedBy(w, me, id, token);
    var m' := Apply(m, Submit(me, reply));
    assert m'.db == m.db && m'.issued == m.issued && WorkerOf(m', me) == WorkerOf(m, me).(pc := Sent(reply));
    KeepsAnswer(w, m', me, id, token, reply, delay);
    RunTwo(m, Submit(me, reply), CommitReceipt(me, delay), m', Apply(m', CommitReceipt(me, delay)));
  }

  lemma KeepsAnswer(w: World, m: World, me: Id, id: Id, token: Id, reply: Reply, delay: nat)
    requires Due(w, me, id, token) && m.db == MarkedBy(w, me, id, token).db
    requires WorkerOf(m, me).pc == Sent(reply) && WorkerOf(m, me).claim == Claimed(id, me, token)
    ensures var w' := Apply(m, CommitReceipt(me, delay));
      && w'.db == Put(w.db, id, Answered(w.db.entries[id], Claimed(id, me, token), reply, delay, w.db.now))
      && WorkerOf(w', me).pc.Idle? && w'.issued == m.issued
  {
    assert Loadable(m.db, Claimed(id, me, token));
  }

  /** The schedule of one worker that dispatches and stores the answer. */
  function DispatchSchedule(me: Id, id: Id, token: Id, now: int, sv: Service, facts: Facts, reply: Reply, delay: nat): seq<Step> {
    [Take(me, id, token, now), Extend(me, now, now)]
    + ([Load(me), Look(me, sv, true, AllRead, facts), CommitMarker(me, sv, true, false)] + [Submit(me, reply), CommitReceipt(me, delay)])
  }

  /** A due, queued operation that every check still supports is submitted and its answer stored, by one worker in one lease. */
  lemma UndisturbedDispatch(w: World, me: Id, id: Id, token: Id, sv: Service, facts: Facts, reply: Reply, delay: nat)
    requires Due(w, me, id, token) && Dispatchable(w.db, sv, w.db.entries[id].operation, facts)
    requires w.db.entries[id].operation.state.Queued?
    ensures var w' := Run(w, DispatchSchedule(me, id, token, w.db.now, sv, facts, reply, delay));
      && w'.db == Put(w.db, id, Answered(w.db.entries[id], Claimed(id, me, token), reply, delay, w.db.now))
      && WorkerOf(w', me).pc.Idle? && w'.issued == w.issued[token := Claimed(id, me, token)]
  {
    var a := [Take(me, id, token, w.db.now), Extend(me, w.db.now, w.db.now)];
    var b := [Load(me), Look(me, sv, true, AllRead, facts), CommitMarker(me, sv, true, false)];
    var c := [Submit(me, reply), CommitReceipt(me, delay)];
    RunSplits(w, a, b + c);
    RunSplits(Holding(w, me, id, token), b, c);
    LeaseTaken(w, me, id, token);
    Marks(w, me, id, token, sv, facts);
    Answers(w, me, id, token, reply, delay);
  }

  // ---- Settling ----

  /** It has reached this state, and with an outcome it has given up its target. */
  ghost predicate Concluded(w: World, id: Id, to: OpState) {
    id in w.db.entries && w.db.entries[id].operation.state == to && (Terminal(to) ==> !w.db.entries[id].locked)
  }

  function SettleSchedule(me: Id, id: Id, token: Id, now: int, sight: Observation, delay: nat): seq<Step> {
    [Take(me, id, token, now), Extend(me, now, now)] + [Load(me), Observe(me, sight), CommitObservation(me, delay)]
  }

  /** The row after an observation was stored under a new lease. */
  function Settled(e: Entry, l: Claimed, sight: Observation, delay: nat, now: int): Entry
    requires e.job.Some?
  {
    var to := Conclusion(sight, e.operation.reference.Some?);
    HandBack(Settle(Leased(e, l, now), to), if Final(to) then JobSucceeded else JobQueued, delay, now)
  }

  lemma LooksAt(w: World, me: Id, id: Id, token: Id, sight: Observation)
    requires Due(w, me, id, token) && InFlight(w.db.entries[id].operation.state)
    ensures var h, o := Holding(w, me, id, token), w.db.entries[id].operation;
      && Apply(h, Load(me)) == AtPc(h, me, Observing(o.state, o.reference.Some?))
      && var h2 := Apply(AtPc(h, me, Observing(o.state, o.reference.Some?)), Observe(me, sight));
      h2.db == h.db && WorkerOf(h2, me).pc == Observed(o.state, sight, o.reference.Some?) && WorkerOf(h2, me).claim == Claimed(id, me, token)
  {
    assert Loadable(Holding(w, me, id, token).db, Claimed(id, me, token));
  }

  lemma CommitsSight(w: World, me: Id, id: Id, token: Id, h: World, sight: Observation, delay: nat)
    requires Due(w, me, id, token) && InFlight(w.db.entries[id].operation.state)
    requires h.db == Holding(w, me, id, token).db
    requires var o := w.db.entries[id].operation;
      WorkerOf(h, me).pc == Observed(o.state, sight, o.reference.Some?) && WorkerOf(h, me).claim == Claimed(id, me, token)
    ensures Apply(h, CommitObservation(me, delay)).db
      == Put(w.db, id, Settled(w.db.entries[id], Claimed(id, me, token), sight, delay, w.db.now))
  {
    assert Loadable(h.db, Claimed(id, me, token));
  }

  /** A worker that holds the lease of a submitted operation observes it and stores the result. */
  lemma Settles(w: World, me: Id, id: Id, token: Id, sight: Observation, delay: nat)
    requires Due(w, me, id, token) && InFlight(w.db.entries[id].operation.state)
    ensures Run(Holding(w, me, id, token), [Load(me), Observe(me, sight), CommitObservation(me, delay)]).db
      == Put(w.db, id, Settled(w.db.entries[id], Claimed(id, me, token), sight, delay, w.db.now))
  {
    var h, o := Holding(w, me, id, token), w.db.entries[id].operation;
    var h1 := AtPc(h, me, Observing(o.state, o.reference.Some?));
    LooksAt(w, me, id, token, sight);
    var h2 := Apply(h1, Observe(me, sight));
    CommitsSight(w, me, id, token, h2, sight, delay);
    ThreeSteps(h, Load(me), Observe(me, sight), CommitObservation(me, delay), h1, h2);
  }

  /** A due, submitted operation is moved to what its observation argues for. */
  lemma UndisturbedSettlement(w: World, me: Id, id: Id, token: Id, sight: Observation, delay: nat)
    requires Due(w, me, id, token) && InFlight(w.db.entries[id].operation.state)
    ensures Concluded(Run(w, SettleSchedule(me, id, token, w.db.now, sight, delay)), id,
                      Conclusion(sight, w.db.entries[id].operation.reference.Some?))
  {
    RunSplits(w, [Take(me, id, token, w.db.now), Extend(me, w.db.now, w.db.now)], [Load(me), Observe(me, sight), CommitObservation(me, delay)]);
    LeaseTaken(w, me, id, token);
    Settles(w, me, id, token, sight, delay);
    SettleReaches(w.db.entries[id], Claimed(id, me, token), sight, delay, w.db.now);
  }

  lemma SettleReaches(e: Entry, l: Claimed, sight: Observation, delay: nat, now: int)
    requires e.job.Some?
    ensures var e' := Settled(e, l, sight, delay, now);
      e'.operation.state == Conclusion(sight, e.operation.reference.Some?) && (Terminal(e'.operation.state) ==> !e'.locked)
  {
  }

  /** Whatever was run before, a wait and then one settling worker bring a due, submitted operation to its conclusion. */
  lemma SettlesAfter(w: World, a: seq<Step>, me: Id, id: Id, token: Id, now: int, sight: Observation, delay: nat)
    requires var w' := After(Run(w, a), delay);
      Due(w', me, id, token) && InFlight(w'.db.entries[id].operation.state) && now == w'.db.now
    ensures Concluded(Run(w, a + ([Tick(delay)] + SettleSchedule(me, id, token, now, sight, delay))), id,
                      Conclusion(sight, Run(w, a).db.entries[id].operation.reference.Some?))
  {
    UndisturbedSettlement(After(Run(w, a), delay), me, id, token, sight, delay);
    LaterThen(w, a, delay, SettleSchedule(me, id, token, now, sight, delay));
  }

  /**
   The whole way: an accepted operation that is due and still supported, an accepting provider, and an observed
   success end in success with the target free, within two leases.
   */
  lemma WayToSuccess(w: World, me: Id, id: Id, first: Id, second: Id, sv: Service, facts: Facts, reply: Reply, delay: nat, a: seq<Step>)
    requires Due(w, me, id, first) && first != second && second !in w.issued
    requires Dispatchable(w.db, sv, w.db.entries[id].operation, facts) && w.db.entries[id].operation.state.Queued?
    requires !reply.failed && reply.verdict.Accepted? && NativeReference(reply.reference)
    requires var j := w.db.entries[id].job.value; j.attempts + 1 < ATTEMPTS_MAX && w.db.now + delay < j.deadline
    requires a == DispatchSchedule(me, id, first, w.db.now, sv, facts, reply, delay)
    ensures var b := SettleSchedule(me, id, second, w.db.now + delay, Observation(SeenSucceeded, true, false), delay);
      Concluded(Run(w, a + ([Tick(delay)] + b)), id, Succeeded)
  {
    var w2 := Later(w, me, id, first, sv, facts, reply, delay);
    DueAgain(w, w2, me, id, first, second, reply, delay);
    SettlesAfter(w, a, me, id, second, w.db.now + delay, Observation(SeenSucceeded, true, false), delay);
  }

  /** The world after the dispatch and the wait until the job is due again. */
  lemma Later(w: World, me: Id, id: Id, token: Id, sv: Service, facts: Facts, reply: Reply, delay: nat) returns (w': World)
    requires Due(w, me, id, token) && Dispatchable(w.db, sv, w.db.entries[id].operation, facts)
    requires w.db.entries[id].operation.state.Queued?
    ensures w' == After(Run(w, DispatchSchedule(me, id, token, w.db.now, sv, facts, reply, delay)), delay)
    ensures w'.db == Put(w.db, id, Answered(w.db.entries[id], Claimed(id, me, token), reply, delay, w.db.now)).(now := w.db.now + delay)
    ensures WorkerOf(w', me).pc.Idle? && w'.issued == w.issued[token := Claimed(id, me, token)]
  {
    UndisturbedDispatch(w, me, id, token, sv, facts, reply, delay);
    w' := After(Run(w, DispatchSchedule(me, id, token, w.db.now, sv, facts, reply, delay)), delay);
  }

  function After(w: World, delay: nat): World {
    w.(db := w.db.(now := w.db.now + delay))
  }

  lemma DueAgain(w: World, w': World, me: Id, id: Id, first: Id, second: Id, reply: Reply, delay: nat)
    requires Due(w, me, id, first) && first != second && second !in w.issued
    requires !reply.failed && reply.verdict.Accepted? && NativeReference(reply.reference)
    requires var j := w.db.entries[id].job.value; j.attempts + 1 < ATTEMPTS_MAX && w.db.now + delay < j.deadline
    requires w'.db == Put(w.db, id, Answered(w.db.entries[id], Claimed(id, me, first), reply, delay, w.db.now)).(now := w.db.now + delay)
    requires WorkerOf(w', me).pc.Idle? && w'.issued == w.issued[first := Claimed(id, me, first)]
    ensures Due(w', me, id, second)
    ensures w'.db.now == w.db.now + delay && w'.db.entries[id].operation.state.WaitingProvider? && w'.db.entries[id].operation.reference.Some?
  {
    AcceptedWaits(w.db.entries[id], Claimed(id, me, first), reply, delay, w.db.now);
  }

  lemma LaterThen(w: World, a: seq<Step>, delay: nat, b: seq<Step>)
    ensures Run(w, a + ([Tick(delay)] + b)) == Run(After(Run(w, a), delay), b)
  {
    RunSplits(w, a, [Tick(delay)] + b);
    assert ([Tick(delay)] + b)[1..] == b;
  }

  lemma AcceptedWaits(e: Entry, l: Claimed, reply: Reply, delay: nat, now: int)
    requires e.job.Some? && !reply.failed && reply.verdict.Accepted? && NativeReference(reply.reference)
    requires e.job.value.attempts + 1 < ATTEMPTS_MAX && now + delay < e.job.value.deadline
    ensures var e' := Answered(e, l, reply, delay, now);
      && e'.operation == e.operation.(state := WaitingProvider, sequence := e.operation.sequence + 2, reference := Some(reply.reference))
      && Takeable(e', now + delay)
  {
    NativeIsOnePart(reply.reference);
  }

  // ---- Failing unsent ----

  ghost predicate Reached(w: World, id: Id, to: OpState) {
    id in w.db.entries && w.db.entries[id].operation.state == to
  }

  function RejectSchedule(me: Id, id: Id, token: Id, now: int, sv: Service, live: bool, facts: Facts): seq<Step> {
    [Take(me, id, token, now), Extend(me, now, now)] + [Load(me), Look(me, sv, live, AllRead, facts), CommitRejection(me)]
  }

  lemma LooksInVain(h: World, me: Id, l: Claimed, sv: Service, live: bool, facts: Facts, cause: Code)
    requires WorkerOf(h, me).pc.Ready? && WorkerOf(h, me).claim == l && Loadable(h.db, l) && h.db.entries[l.operation].operation.state.Queued?
    requires cause == InspectDispatch(h.db, sv, l, live, AllRead, facts) && Definitive(cause)
    ensures Apply(h, Load(me)) == AtPc(h, me, Loaded)
    ensures Apply(AtPc(h, me, Loaded), Look(me, sv, live, AllRead, facts)) == AtPc(AtPc(h, me, Loaded), me, Rejecting(cause))
  {
  }

  lemma RejectSteps(h: World, me: Id, l: Claimed, sv: Service, live: bool, facts: Facts, cause: Code)
    requires WorkerOf(h, me).pc.Ready? && WorkerOf(h, me).claim == l && Loadable(h.db, l) && h.db.entries[l.operation].operation.state.Queued?
    requires cause == InspectDispatch(h.db, sv, l, live, AllRead, facts) && Definitive(cause)
    ensures Run(h, [Load(me), Look(me, sv, live, AllRead, facts), CommitRejection(me)]).db == RejectUnsent(h.db, l, cause).0
  {
    var h1, h2 := AtPc(h, me, Loaded), AtPc(AtPc(h, me, Loaded), me, Rejecting(cause));
    LooksInVain(h, me, l, sv, live, facts, cause);
    Rejects(h2, me, l, cause);
    ThreeSteps(h, Load(me), Look(me, sv, live, AllRead, facts), CommitRejection(me), h1, h2);
  }

  lemma Rejects(h: World, me: Id, l: Claimed, cause: Code)
    requires WorkerOf(h, me).pc == Rejecting(cause) && WorkerOf(h, me).claim == l
    ensures Apply(h, CommitRejection(me)).db == RejectUnsent(h.db, l, cause).0
  {
  }

  /** The reviewed action is not meant any more, or its provider can be read and does not offer it any more. */
  predicate Withdrawn(db: Store, sv: Service, o: Operation, live: bool, facts: Facts)
    requires o.review in db.reviews
  {
    var r := db.reviews[o.review];
    !StillMeant(db, sv, o, r, live) || (!Unusable(sv, db.connections[o.connection].family, r.action, facts) && !StillOffers(db, sv, o, r, facts))
  }

  lemma HoldingWithdrawn(w: World, me: Id, id: Id, token: Id, sv: Service, live: bool, facts: Facts)
    requires Due(w, me, id, token) && w.db.entries[id].operation.state.Queued?
    requires Withdrawn(w.db, sv, w.db.entries[id].operation, live, facts)
    ensures var h, l := Holding(w, me, id, token), Claimed(id, me, token);
      && Loadable(h.db, l) && h.db.entries[id].operation == w.db.entries[id].operation
      && Withdrawn(h.db, sv, h.db.entries[id].operation, live, facts)
  {
  }

  lemma WithdrawnIsDefinitive(db: Store, sv: Service, l: Claimed, live: bool, facts: Facts)
    requires Loadable(db, l) && db.entries[l.operation].operation.state.Queued?
    requires Withdrawn(db, sv, db.entries[l.operation].operation, live, facts)
    ensures Definitive(InspectDispatch(db, sv, l, live, AllRead, facts))
    ensures var e := AfterInspection(db, sv, l, live, AllRead, facts).entries[l.operation]; e.operation.state.Failed? && !e.locked
  {
    UnsentFailsExactly(db, sv, l, live, AllRead, facts);
  }

  /** Due, queued work that is not meant or not offered any more is failed without a submission, and its target freed. */
  lemma UndisturbedRejection(w: World, me: Id, id: Id, token: Id, sv: Service, live: bool, facts: Facts)
    requires Due(w, me, id, token) && w.db.entries[id].operation.state.Queued?
    requires Withdrawn(w.db, sv, w.db.entries[id].operation, live, facts)
    ensures var w' := Run(w, RejectSchedule(me, id, token, w.db.now, sv, live, facts));
      Reached(w', id, Failed) && !w'.db.entries[id].locked
  {
    var h, l := Holding(w, me, id, token), Claimed(id, me, token);
    RunSplits(w, [Take(me, id, token, w.db.now), Extend(me, w.db.now, w.db.now)],
              [Load(me), Look(me, sv, live, AllRead, facts), CommitRejection(me)]);
    LeaseTaken(w, me, id, token);
    HoldingWithdrawn(w, me, id, token, sv, live, facts);
    WithdrawnIsDefinitive(h.db, sv, l, live, facts);
    RejectSteps(h, me, l, sv, live, facts, InspectDispatch(h.db, sv, l, live, AllRead, facts));
    RejectShape(h.db, l, InspectDispatch(h.db, sv, l, live, AllRead, facts));
  }

  // ---- Work whose holder crashed ----

  /** The operation whose lease this worker holds: nobody else can finish it while the lease lasts. */
  ghost predicate HeldBy(w: World, holder: Id, id: Id) {
    && !WorkerOf(w, holder).pc.Idle? && WorkerOf(w, holder).claim.operation == id
    && id in w.db.entries && HasLease(w.db.entries[id], WorkerOf(w, holder).claim)
  }

  /** After the wait its lease has run out, with time and attempts left. */
  ghost predicate RunsOut(e: Entry, now: int, wait: nat) {
    && e.job.Some? && e.job.value.lease.Some? && e.job.value.attempts < 100
    && e.job.value.lease.value.expires <= now + wait < e.job.value.deadline
  }

  /** Whoever is idle once the holder is gone. */
  ghost predicate FreeAfter(w: World, holder: Id, me: Id, token: Id) {
    (me == holder || WorkerOf(w, me).pc.Idle?) && token !in w.issued
  }

  lemma LeasedRow(db: Store, id: Id)
    requires Consistent(db) && id in db.entries && db.entries[id].job.Some? && db.entries[id].job.value.lease.Some?
    ensures db.entries[id].job.value.state.JobRunning? && db.entries[id].operation.review in db.reviews
  {
    assert EntryOk(db.entries[id]) && Reviewed(db, id);
  }

  lemma GoneIsDue(w: World, holder: Id, me: Id, id: Id, token: Id, wait: nat)
    requires id in w.db.entries && RunsOut(w.db.entries[id], w.db.now, wait) && FreeAfter(w, holder, me, token)
    requires w.db.entries[id].job.value.state.JobRunning? && w.db.entries[id].operation.review in w.db.reviews
    ensures Due(After(Apply(w, Crash(holder)), wait), me, id, token)
    ensures After(Apply(w, Crash(holder)), wait).db == w.db.(now := w.db.now + wait)
  {
  }

  /** A crash leaves the job to whoever is idle once the lease has run out. */
  lemma AbandonedIsDue(w: World, holder: Id, me: Id, id: Id, token: Id, wait: nat)
    requires Consistent(w.db) && HeldBy(w, holder, id) && RunsOut(w.db.entries[id], w.db.now, wait) && FreeAfter(w, holder, me, token)
    ensures var w' := After(Run(w, [Crash(holder)]), wait);
      Due(w', me, id, token) && w'.db == w.db.(now := w.db.now + wait)
  {
    LeasedRow(w.db, id);
    GoneIsDue(w, holder, me, id, token, wait);
    RunSingle(w, Crash(holder));
  }

  lemma RunSingle(w: World, s: Step)
    ensures Run(w, [s]) == Apply(w, s)
  {
    assert [s][1..] == [];
  }

  /**
   A submitted operation whose holder crashed is not lost: once its lease has run out, any idle worker takes it
   over and brings it to what its observation argues for.
   */
  lemma CrashedWorkIsSettled(w: World, db: Store, holder: Id, me: Id, id: Id, token: Id, wait: nat, sight: Observation, delay: nat)
    requires Consistent(w.db) && HeldBy(w, holder, id) && RunsOut(w.db.entries[id], w.db.now, wait) && FreeAfter(w, holder, me, token)
    requires db == w.db.(now := w.db.now + wait) && InFlight(db.entries[id].operation.state)
    ensures Concluded(Run(w, [Crash(holder)] + ([Tick(wait)] + SettleSchedule(me, id, token, db.now, sight, delay))), id,
                      Conclusion(sight, db.entries[id].operation.reference.Some?))
  {
    AbandonedIsDue(w, holder, me, id, token, wait);
    CrashSettles(w, [Crash(holder)], After(Run(w, [Crash(holder)]), wait), db, me, id, token, wait, db.now, sight, delay);
  }

  lemma CrashSettles(w: World, a: seq<Step>, later: World, db: Store, me: Id, id: Id, token: Id, wait: nat, now: int, sight: Observation, delay: nat)
    requires later == After(Run(w, a), wait) && later.db == db && db.now == now
    requires Due(later, me, id, token) && InFlight(db.entries[id].operation.state)
    ensures Concluded(Run(w, a + ([Tick(wait)] + SettleSchedule(me, id, token, now, sight, delay))), id,
                      Conclusion(sight, db.entries[id].operation.reference.Some?))
  {
    UndisturbedSettlement(later, me, id, token, sight, delay);
    LaterThen(w, a, wait, SettleSchedule(me, id, token, now, sight, delay));
  }

  lemma AnsweredState(e: Entry, l: Claimed, reply: Reply, delay: nat, now: int)
    requires e.job.Some?
    ensures Answered(e, l, reply, delay, now).operation.state == ClassifyActionReceipt(e.operation.action, reply).0
  {
  }

  /** Work that its holder had not dispatched yet when it crashed is dispatched by the next worker. */
  lemma CrashedWorkIsDispatched(w: World, db: Store, holder: Id, me: Id, id: Id, token: Id, wait: nat,
                                sv: Service, facts: Facts, reply: Reply, delay: nat)
    requires Consistent(w.db) && HeldBy(w, holder, id) && RunsOut(w.db.entries[id], w.db.now, wait) && FreeAfter(w, holder, me, token)
    requires db == w.db.(now := w.db.now + wait)
    requires Dispatchable(db, sv, db.entries[id].operation, facts) && db.entries[id].operation.state.Queued?
    ensures Reached(Run(w, [Crash(holder)] + ([Tick(wait)] + DispatchSchedule(me, id, token, db.now, sv, facts, reply, delay))), id,
                    ClassifyActionReceipt(db.entries[id].operation.action, reply).0)
  {
    AbandonedIsDue(w, holder, me, id, token, wait);
    Redispatches(w, [Crash(holder)], After(Run(w, [Crash(holder)]), wait), db, me, id, token, wait, db.now, sv, facts, reply, delay);
  }

  lemma Redispatches(w: World, a: seq<Step>, later: World, db: Store, me: Id, id: Id, token: Id, wait: nat, now: int,
                     sv: Service, facts: Facts, reply: Reply, delay: nat)
    requires later == After(Run(w, a), wait) && later.db == db && db.now == now
    requires Due(later, me, id, token) && Dispatchable(db, sv, db.entries[id].operation, facts) && db.entries[id].operation.state.Queued?
    ensures Reached(Run(w, a + ([Tick(wait)] + DispatchSchedule(me, id, token, now, sv, facts, reply, delay))), id,
                    ClassifyActionReceipt(db.entries[id].operation.action, reply).0)
  {
    Dispatches(later, db, me, id, token, sv, facts, reply, delay);
    LaterThen(w, a, wait, DispatchSchedule(me, id, token, now, sv, facts, reply, delay));
  }

  lemma Dispatches(w: World, db: Store, me: Id, id: Id, token: Id, sv: Service, facts: Facts, reply: Reply, delay: nat)
    requires w.db == db && Due(w, me, id, token) && Dispatchable(db, sv, db.entries[id].operation, facts)
    requires db.entries[id].operation.state.Queued?
    ensures Reached(Run(w, DispatchSchedule(me, id, token, db.now, sv, facts, reply, delay)), id,
                    ClassifyActionReceipt(db.entries[id].operation.action, reply).0)
  {
    UndisturbedDispatch(w, me, id, token, sv, facts, reply, delay);
    AnsweredState(db.entries[id], Claimed(id, me, token), reply, delay, db.now);
  }
}
