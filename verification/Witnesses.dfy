/**
 Runs from an installation before its first operation that end where the code and its documentation part: a
 submitted operation without a job, and a key whose operation its actor can no longer read.
 */
module Witnesses {
  import opened Options
  import opened Lifecycle
  import opened Receipts
  import opened Tables
  import opened Transactions
  import opened Protocol
  import opened ProtocolInvariant
  import opened ProtocolSteps
  import opened ProtocolHistory
  import opened Submission
  import opened Causes
  import opened Progress
  import opened Acceptance
  import M = Membership

  // ---- The installation ----

  const SV := Service(true, 0, {(1, PowerOn)}, {(1, PowerOn)}, {(1, PowerOn)})
  const HERE := Target(1, 1, Server, 1, 1)
  const THERE := Target(1, 2, Server, 1, 2)

  /** One workspace with one owner, and what it granted itself on connection 1. */
  function Town(policy: int, mine: set<M.Class>): M.Workspace {
    M.Workspace(policy, map[1 := M.Member(M.Owner, 1)], map[(1, 1) := mine, (2, 1) := {M.Read, M.Operate}], map[],
                M.Settings("w", 10, 180), {})
  }

  function Site(town: M.Workspace, reviews: map<Id, Review>, entries: map<Id, Entry>): Store {
    Store(0, map[1 := town], map[1 := Connection(1, 1, true, 1, {PowerOn}), 2 := Connection(1, 1, true, 1, {PowerOn})],
          map[1 := HERE, 2 := THERE], reviews, entries, Gate(true, 2))
  }

  function Place(db: Store, client: Client): World {
    World(db, map[], map[1 := client], map[], map[])
  }

  function Start(): World {
    World(Site(Town(1, {M.Read, M.Operate}), map[], map[]).(gate := Gate(false, 1)), map[], map[], map[], map[])
  }

  lemma StartIsInitial()
    ensures Initial(Start())
  {
    assert 1 in M.EnabledOwners(Start().db.workspaces[1]);
  }

  // ---- One review and one acceptance on connection 1 ----

  const ASKED := Digest(PowerOn, 1, 1, 1, 1, 1)
  const SHOWN := Facts(true, true, 7, false, "a")
  const FIRST := Transactions.Request(1, 1, "k", 1, true, "")

  function FirstReview(consumed: Option<Id>): Review {
    Review(1, 1, 1, 1, PowerOn, ASKED, 7, 1, Stamp(1, 0), false, "a", REVIEW_SECONDS, consumed)
  }

  function Seen(connection: Id, target: Target, policy: int): View {
    View(connection, 1, 1, target, M.Owner, {M.Read, M.Operate}, {PowerOn}, Stamp(policy, 0))
  }

  function FirstOperation(): Operation {
    Operation(1, 1, 1, 1, HERE, PowerOn, ASKED, "k", 1, 1, Stamp(1, 0), Queued, 1, None)
  }

  function FirstEntry(): Entry {
    Entry(FirstOperation(), [Event(1, None, Queued)], Some(Job(JobQueued, 0, None, 0, OPERATION_SECONDS, None)), true, false)
  }

  const GRANTED := {M.Read, M.Operate}

  /** The worlds on the way to the first accepted operation. */
  function Opened(): World {
    Start().(db := Site(Town(1, GRANTED), map[], map[]))
  }

  function Looking(): World {
    Place(Site(Town(1, GRANTED), map[], map[]), Reviewing(1, 1, 1, PowerOn, Seen(1, HERE, 1)))
  }

  function Stored(): World {
    Place(Site(Town(1, GRANTED), map[1 := FirstReview(None)], map[]), Away)
  }

  function Asking(): World {
    Place(Site(Town(1, GRANTED), map[1 := FirstReview(None)], map[]), Confirming(FIRST, ASKED, Seen(1, HERE, 1), FirstReview(None)))
  }

  function Accepted(): World {
    Place(Site(Town(1, GRANTED), map[1 := FirstReview(Some(1))], map[1 := FirstEntry()]), Away).(
      trails := map[1 := Trail(None, [], false, false, 0)])
  }

  const ACCEPTING: seq<Step> := [
    SetGate(true, 1), ReadForReview(1, SV, 1, 1, 1, PowerOn, true, false), WriteReview(1, SV, SHOWN, true, true, false, 1),
    ReadForConfirm(1, SV, FIRST, true, true, false), WriteConfirm(1, SV, SHOWN, true, true, false, 0, 1)]

  lemma GateOpens()
    ensures Apply(Start(), SetGate(true, 1)) == Opened()
  {
  }

  lemma SeenHere(db: Store, policy: int)
    requires db == Site(Town(policy, GRANTED), db.reviews, db.entries)
    ensures Authority(db, SV, 1, 1, 1, true, false) == Some(Seen(1, HERE, policy))
  {
  }

  lemma ReviewRead1()
    ensures Apply(Opened(), ReadForReview(1, SV, 1, 1, 1, PowerOn, true, false)) == Looking()
  {
    SeenHere(Opened().db, 1);
  }

  lemma NameShown(name: string)
    requires name == "a" || name == "b"
    ensures ValidTargetName(name)
  {
  }

  lemma ReviewWritten1()
    ensures Apply(Looking(), WriteReview(1, SV, SHOWN, true, true, false, 1)) == Stored()
  {
    var db := Looking().db;
    SeenHere(db, 1);
    NameShown("a");
    assert OpenReviews(db, 1) == {};
  }

  lemma KeyFits()
    ensures ValidKey("k")
  {
  }

  lemma ConfirmRead1()
    ensures Apply(Stored(), ReadForConfirm(1, SV, FIRST, true, true, false)) == Asking()
  {
    SeenHere(Stored().db, 1);
    KeyFits();
  }

  lemma ConfirmWritten1()
    ensures Apply(Asking(), WriteConfirm(1, SV, SHOWN, true, true, false, 0, 1)) == Accepted()
  {
    var db := Asking().db;
    NameShown("a");
    FirstIsAcceptable();
    AcceptsExactly(db, SV, FIRST, ASKED, SHOWN, true, 0, 1);
  }

  lemma FirstIsAcceptable()
    ensures Acceptable(Asking().db, SV, FIRST, ASKED, SHOWN, true, 0, 1)
  {
    assert ActiveJobs(Asking().db, 1) == {};
  }

  lemma RunOne(w: World, steps: seq<Step>, s: Step, w1: World, w2: World)
    requires Run(w, steps) == w1 && Apply(w1, s) == w2
    ensures Run(w, steps + [s]) == w2
  {
    RunSplits(w, steps, [s]);
    assert Run(Apply(w1, s), []) == w2;
  }

  lemma FirstAccepted()
    ensures Run(Start(), ACCEPTING) == Accepted()
  {
    GateOpens();
    ReviewRead1();
    ReviewWritten1();
    ConfirmRead1();
    ConfirmWritten1();
    RunFour(Start(), ACCEPTING[..4], Opened(), Looking(), Stored(), Asking());
    RunOne(Start(), ACCEPTING[..4], ACCEPTING[4], Asking(), Accepted());
    assert ACCEPTING[..4] + [ACCEPTING[4]] == ACCEPTING;
  }

  // ---- Submitted work without a job ----

  const ANSWER := Reply(Verdict.Accepted, "r", false)

  /** One worker dispatches the operation; then its connection is disabled while its job waits to be run again. */
  function Stranding(): seq<Step> {
    ACCEPTING + (DispatchSchedule(5, 1, 9, 0, SV, SHOWN, ANSWER, 0) + [DisableConnection(1, 1, 1)])
  }

  lemma AcceptedIsDue()
    ensures Due(Accepted(), 5, 1, 9) && Dispatchable(Accepted().db, SV, FirstOperation(), SHOWN)
  {
    SeenHere(Accepted().db, 1);
    NameShown("a");
  }

  lemma AnswerStored()
    ensures var e := Answered(FirstEntry(), Claimed(1, 5, 9), ANSWER, 0, 0);
      && e.operation == FirstOperation().(state := WaitingProvider, sequence := 3, reference := Some("r"))
      && e.job.Some? && e.job.value.state.JobQueued? && e.locked
  {
    assert NativeReference("r");
  }

  lemma DisableStrands(w: World)
    requires w.db.workspaces == Accepted().db.workspaces && w.db.connections == Accepted().db.connections
    requires 1 in w.db.entries && InFlight(w.db.entries[1].operation.state) && w.db.entries[1].operation.connection == 1
    requires w.db.entries[1].job.Some? && w.db.entries[1].job.value.state.JobQueued?
    ensures var w' := Apply(w, DisableConnection(1, 1, 1)); 1 in w'.db.entries && Stranded(w'.db.entries[1])
  {
  }

  /** From an empty installation submitted work can lose its job for good: nothing ever settles it or frees its target. */
  lemma WorkCanBeStranded(more: seq<Step>)
    ensures Initial(Start())
    ensures var w := Run(Start(), Stranding());
      && 1 in w.db.entries && Stranded(w.db.entries[1]) && w.db.entries[1].locked
      && 1 in Run(w, more).db.entries && Run(w, more).db.entries[1] == w.db.entries[1]
  {
    StartIsInitial();
    Strands();
    RunKeeps(Start(), Stranding());
    StrandedForever(Run(Start(), Stranding()), more, 1);
    StrandedLocked(Run(Start(), Stranding()));
  }

  lemma Strands()
    ensures var w := Run(Start(), Stranding()); 1 in w.db.entries && Stranded(w.db.entries[1])
  {
    FirstAccepted();
    AcceptedIsDue();
    AnswerStored();
    var d := DispatchSchedule(5, 1, 9, 0, SV, SHOWN, ANSWER, 0);
    UndisturbedDispatch(Accepted(), 5, 1, 9, SV, SHOWN, ANSWER, 0);
    StrandsAfter(d);
  }

  lemma StrandsAfter(d: seq<Step>)
    requires Run(Start(), ACCEPTING) == Accepted()
    requires var w := Run(Accepted(), d);
             && w.db.workspaces == Accepted().db.workspaces && w.db.connections == Accepted().db.connections
             && 1 in w.db.entries && InFlight(w.db.entries[1].operation.state) && w.db.entries[1].operation.connection == 1
             && w.db.entries[1].job.Some? && w.db.entries[1].job.value.state.JobQueued?
    ensures var w := Run(Start(), ACCEPTING + (d + [DisableConnection(1, 1, 1)])); 1 in w.db.entries && Stranded(w.db.entries[1])
  {
    var w := Run(Accepted(), d);
    RunSplits(Start(), ACCEPTING, d + [DisableConnection(1, 1, 1)]);
    DisableStrands(w);
    RunOne(Accepted(), d, DisableConnection(1, 1, 1), w, Apply(w, DisableConnection(1, 1, 1)));
  }

  lemma StrandedLocked(w: World)
    requires Inv(w) && 1 in w.db.entries && Stranded(w.db.entries[1])
    ensures w.db.entries[1].locked
  {
    assert EntryOk(w.db.entries[1]);
  }

  // ---- A key its actor can no longer read ----

  const OTHER := Digest(PowerOn, 1, 1, 2, 2, 2)
  const SECOND := Transactions.Request(1, 1, "k", 2, true, "")
  const SHOWN_THERE := Facts(true, true, 8, false, "b")

  function SecondReview(): Review {
    Review(1, 1, 2, 2, PowerOn, OTHER, 8, 1, Stamp(2, 0), false, "b", REVIEW_SECONDS, None)
  }

  function CancelledEntry(): Entry {
    Entry(FirstOperation().(state := Cancelled, sequence := 2), [Event(1, None, Queued), Event(2, Some(Queued), Cancelled)],
          Some(Job(JobCancelled, 0, None, 0, OPERATION_SECONDS, Some(0))), false, false)
  }

  function Given(town: M.Workspace, reviews: map<Id, Review>, client: Client): World {
    Place(Site(town, reviews, map[1 := CancelledEntry()]), client).(trails := map[1 := Trail(None, [], false, false, 0)])
  }

  const USED: map<Id, Review> := map[1 := FirstReview(Some(1))]

  function Withdrawn(): World {
    Given(Town(2, {}), USED, Away)
  }

  function LookingThere(): World {
    Given(Town(2, {}), USED, Reviewing(1, 1, 2, PowerOn, Seen(2, THERE, 2)))
  }

  function StoredThere(): World {
    Given(Town(2, {}), USED[2 := SecondReview()], Away)
  }

  const HIDING: seq<Step> := [
    UserCancel(1, 1, 1), AuthorityChange(1, M.Grant(1, 1, true, 1, {})),
    ReadForReview(1, SV, 1, 1, 2, PowerOn, true, false), WriteReview(1, SV, SHOWN_THERE, true, true, false, 2)]

  lemma CancelledHere()
    ensures Apply(Accepted(), UserCancel(1, 1, 1)) == Given(Town(1, GRANTED), USED, Away)
  {
    var e := FirstEntry();
    assert e.events + [Event(2, Some(Queued), Cancelled)] == CancelledEntry().events;
    assert WithJob(Advance(e, Cancelled), CancelJob(e.job.value, 0)) == CancelledEntry();
    assert ControlLoad(Accepted().db, 1, 1, 1).Done?;
    assert map[1 := e][1 := CancelledEntry()] == map[1 := CancelledEntry()];
  }

  lemma TownWithdraws()
    ensures M.Apply(Town(1, GRANTED), M.Grant(1, 1, true, 1, {})) == Town(2, {})
  {
    assert Town(1, GRANTED).grants[(1, 1) := {}] == Town(2, {}).grants;
  }

  lemma TownChanges(w: World, change: M.Change, town: M.Workspace)
    requires w.db.workspaces == map[1 := town]
    ensures Apply(w, AuthorityChange(1, change)) == w.(db := w.db.(workspaces := map[1 := M.Apply(town, change)]))
  {
  }

  lemma GrantWithdrawn()
    ensures Apply(Given(Town(1, GRANTED), USED, Away), AuthorityChange(1, M.Grant(1, 1, true, 1, {}))) == Withdrawn()
  {
    TownWithdraws();
    TownChanges(Given(Town(1, GRANTED), USED, Away), M.Grant(1, 1, true, 1, {}), Town(1, GRANTED));
  }

  lemma SeenThere(db: Store)
    requires db == Site(Town(2, {}), db.reviews, db.entries)
    ensures Authority(db, SV, 1, 1, 2, true, false) == Some(Seen(2, THERE, 2))
  {
  }

  lemma ReviewRead2()
    ensures Apply(Withdrawn(), ReadForReview(1, SV, 1, 1, 2, PowerOn, true, false)) == LookingThere()
  {
    SeenThere(Withdrawn().db);
  }

  lemma ReviewWritten2()
    ensures Apply(LookingThere(), WriteReview(1, SV, SHOWN_THERE, true, true, false, 2)) == StoredThere()
  {
    SeenThere(LookingThere().db);
    NameShown("b");
    assert OpenReviews(LookingThere().db, 1) == {};
  }

  lemma KeyHidden()
    ensures Run(Start(), ACCEPTING + HIDING) == StoredThere()
  {
    FirstAccepted();
    CancelledHere();
    GrantWithdrawn();
    ReviewRead2();
    ReviewWritten2();
    RunFour(Accepted(), HIDING, Given(Town(1, GRANTED), USED, Away), Withdrawn(), LookingThere(), StoredThere());
    RunSplits(Start(), ACCEPTING, HIDING);
  }

  lemma RunFour(w: World, steps: seq<Step>, w1: World, w2: World, w3: World, w4: World)
    requires |steps| == 4 && Apply(w, steps[0]) == w1 && Apply(w1, steps[1]) == w2 && Apply(w2, steps[2]) == w3 && Apply(w3, steps[3]) == w4
    ensures Run(w, steps) == w4
  {
    assert steps[1..][1..] == steps[2..] && steps[2..][1..] == steps[3..] && steps[3..][1..] == [];
    assert Run(w4, []) == w4;
    assert Run(w3, steps[3..]) == Run(w4, []);
    assert Run(w2, steps[2..]) == Run(w3, steps[3..]);
    assert Run(w1, steps[1..]) == Run(w2, steps[2..]);
  }

  /** The documented answer to a duplicate key with another intent is a conflict; after this run it is a store error. */
  lemma HiddenKeyIsNoConflict()
    ensures Initial(Start())
    ensures var db := Run(Start(), ACCEPTING + HIDING).db;
      && HasKey(db, 1, SECOND) && db.entries[1].operation.review != SECOND.review
      && ConfirmFirst(db, SV, SECOND, true, true, false) == Proceed(OTHER)
      && ConfirmSecond(db, SV, SECOND, OTHER, SHOWN_THERE, true, true, false, 0, 2) == (db, Refused(ErrStore))
  {
    StartIsInitial();
    KeyHidden();
    RunKeeps(Start(), ACCEPTING + HIDING);
    HiddenKeyAnswers(StoredThere().db);
  }

  lemma HiddenKeyAnswers(db: Store)
    requires db == StoredThere().db && Consistent(db)
    ensures ConfirmFirst(db, SV, SECOND, true, true, false) == Proceed(OTHER)
    ensures ConfirmSecond(db, SV, SECOND, OTHER, SHOWN_THERE, true, true, false, 0, 2) == (db, Refused(ErrStore))
  {
    SeenThere(db);
    KeyFits();
    assert ActiveJobs(db, 1) == {};
    ResolveTaken(db, SECOND, OTHER, 1);
    ReusedKeyStoreError(db, SV, SECOND, SHOWN_THERE, true, true, false, 0, 2, 1);
  }
}
