/**
 Idempotent acceptance. An acceptance is two transactions with an unlocked gap between them; these
 lemmas hold for every interleaving, because they are about every reachable state.
 */
module Acceptance {
  import opened Options
  import opened Lifecycle
  import opened Receipts
  import opened Tables
  import opened Transactions
  import opened Protocol
  import opened ProtocolInvariant
  import opened ProtocolSteps
  import opened ProtocolHistory
  import M = Membership

  /** At most one operation per workspace, actor and key, and at most one per review. */
  lemma OnePerKeyAndReview(w: World, steps: seq<Step>, a: Id, b: Id)
    requires Initial(w) && a in Run(w, steps).db.entries && b in Run(w, steps).db.entries
    requires var x, y := Run(w, steps).db.entries[a].operation, Run(w, steps).db.entries[b].operation;
             SameKey(x, y) || x.review == y.review
    ensures a == b
  {
    RunKeeps(w, steps);
    var db := Run(w, steps).db;
    assert Reviewed(db, a) && Reviewed(db, b);
    assert a != b ==> Apart(db.entries[a], db.entries[b]);
  }

  /** A review that an operation consumed is never pruned or handed to another operation. */
  lemma ConsumedReviewKept(w: World, steps: seq<Step>, id: Id)
    requires Inv(w) && id in w.db.entries
    ensures var db := Run(w, steps).db; var r := w.db.entries[id].operation.review;
            r in db.reviews && db.reviews[r].consumed == Some(id)
  {
    RunContinues(w, steps, id);
    RunKeeps(w, steps);
    assert Reviewed(Run(w, steps).db, id);
  }

  ghost predicate Repeats(q: Request, o: Operation) {
    q.workspace == o.workspace && q.actor == o.actor && q.key == o.key && q.review == o.review && q.confirmed && ValidKey(q.key)
  }

  lemma KeyIsUnique(db: Store, q: Request, id: Id, other: Id)
    requires Consistent(db) && HasKey(db, id, q) && HasKey(db, other, q)
    ensures other == id
  {
    assert other != id ==> Apart(db.entries[id], db.entries[other]);
  }

  /** What the lookup finds once the key is taken: that operation, if the actor can still read it. */
  lemma ResolveTaken(db: Store, q: Request, hash: Digest, id: Id)
    requires Consistent(db) && HasKey(db, id, q)
    ensures Resolve(db, q, hash) ==
            if !Readable(db, q.actor, id) then Proceed(hash)
            else if db.entries[id].operation.hash != hash then Refused(ErrConflict)
            else Found(id, db.entries[id].operation.state)
  {
    forall x | x in db.entries && HasKey(db, x, q) ensures x == id {
      KeyIsUnique(db, q, id, x);
    }
  }

  lemma RepeatAnswer(db: Store, id: Id, q: Request, sv: Service, recent: bool, live: bool, fault: bool)
    requires id in db.entries && HasKey(db, id, q) && ValidKey(q.key) && q.confirmed
    requires OwnReview(db, q) && db.reviews[q.review].consumed.Some?
    requires var r := db.reviews[q.review];
             && r.hash == Digest(r.action, q.workspace, q.actor, r.connection, r.resource, q.review)
             && Resolve(db, q, r.hash) == if Readable(db, q.actor, id) then Found(id, db.entries[id].operation.state) else Proceed(r.hash)
    ensures var answer := ConfirmFirst(db, sv, q, recent, live, fault);
            if Readable(db, q.actor, id) then answer == Found(id, db.entries[id].operation.state)
            else answer == Refused(ErrNotFound) || answer == Refused(ErrStale)
  {
  }

  /**
   Repeating a request at any later time, after its review was consumed and expired, returns the
   same operation with its current state exactly when the actor can still read it; otherwise it is
   refused, and either way nothing is created.
   */
  lemma RepeatRecovers(w: World, steps: seq<Step>, id: Id, q: Request, sv: Service, recent: bool, live: bool, fault: bool)
    requires Inv(w) && id in w.db.entries && Repeats(q, w.db.entries[id].operation)
    ensures var db := Run(w, steps).db; var answer := ConfirmFirst(db, sv, q, recent, live, fault);
            && id in db.entries
            && (if Readable(db, q.actor, id) then answer == Found(id, db.entries[id].operation.state)
                else answer == Refused(ErrNotFound) || answer == Refused(ErrStale))
  {
    RunContinues(w, steps, id);
    RunKeeps(w, steps);
    RepeatNow(Run(w, steps).db, id, q, sv, recent, live, fault);
  }

  lemma RepeatNow(db: Store, id: Id, q: Request, sv: Service, recent: bool, live: bool, fault: bool)
    requires Consistent(db) && id in db.entries && Repeats(q, db.entries[id].operation)
    ensures var answer := ConfirmFirst(db, sv, q, recent, live, fault);
            if Readable(db, q.actor, id) then answer == Found(id, db.entries[id].operation.state)
            else answer == Refused(ErrNotFound) || answer == Refused(ErrStale)
  {
    assert Reviewed(db, id) && ReviewOk(db, q.review);
    ResolveTaken(db, q, db.reviews[q.review].hash, id);
    RepeatAnswer(db, id, q, sv, recent, live, fault);
  }

  /** Whatever happens in the gap, the second transaction never adds a second operation under a taken key. */
  lemma TakenKeyCreatesNothing(db: Store, sv: Service, q: Request, hash: Digest, facts: Facts, recent: bool, live: bool, fault: bool, others: nat, id: Id, taken: Id)
    requires Consistent(db) && HasKey(db, taken, q)
    ensures var (db', answer) := ConfirmSecond(db, sv, q, hash, facts, recent, live, fault, others, id);
            && db' == db
            && (answer.Found? ==> answer.operation == taken && db.entries[taken].operation.hash == hash && Readable(db, q.actor, taken))
  {
    ResolveTaken(db, q, hash, taken);
  }

  /** Nor under a consumed review, with whatever key. */
  lemma ConsumedReviewCreatesNothing(db: Store, sv: Service, q: Request, hash: Digest, facts: Facts, recent: bool, live: bool, fault: bool, others: nat, id: Id, consumer: Id)
    requires Consistent(db) && consumer in db.entries && db.entries[consumer].operation.review == q.review
    ensures ConfirmSecond(db, sv, q, hash, facts, recent, live, fault, others, id).0 == db
  {
    assert Reviewed(db, consumer);
  }

  /** The race in the gap: a second client that also passed its checks finds the first one's operation. */
  lemma RacersAgree(w: World, steps: seq<Step>, id: Id, q: Request, sv: Service, hash: Digest, facts: Facts, recent: bool, live: bool, fault: bool,
                    others: nat, made: Id)
    requires Inv(w) && id in w.db.entries && Repeats(q, w.db.entries[id].operation) && hash == w.db.entries[id].operation.hash
    ensures var db := Run(w, steps).db;
            id in db.entries && ConfirmSecond(db, sv, q, hash, facts, recent, live, fault, others, made).0 == db
    ensures var db := Run(w, steps).db;
            Readable(db, q.actor, id) ==>
              ConfirmSecond(db, sv, q, hash, facts, recent, live, fault, others, made).1 == Found(id, db.entries[id].operation.state)
  {
    RunContinues(w, steps, id);
    RunKeeps(w, steps);
    var db := Run(w, steps).db;
    TakenKeyCreatesNothing(db, sv, q, hash, facts, recent, live, fault, others, made, id);
    ResolveTaken(db, q, hash, id);
  }

  /** A request whose own review exists and which passes the checks before the lookup. */
  ghost predicate WellFormed(db: Store, q: Request) {
    ValidKey(q.key) && q.confirmed && q.workspace in db.workspaces && OwnReview(db, q)
  }

  /**
   A taken key used for another review. It is reported as a conflict if and only if the actor can
   still read the operation that took it; otherwise the request goes on, and the unique index stops it.
   */
  lemma ReusedKeyConflicts(db: Store, sv: Service, q: Request, recent: bool, live: bool, fault: bool, taken: Id)
    requires Consistent(db) && HasKey(db, taken, q) && db.entries[taken].operation.review != q.review && WellFormed(db, q)
    ensures ConfirmFirst(db, sv, q, recent, live, fault) == Refused(ErrConflict) <==> Readable(db, q.actor, taken)
  {
    assert ReviewOk(db, q.review) && Reviewed(db, taken) && ReviewOk(db, db.entries[taken].operation.review);
    ResolveTaken(db, q, db.reviews[q.review].hash, taken);
  }

  lemma ReusedKeyStoreError(db: Store, sv: Service, q: Request, facts: Facts, recent: bool, live: bool, fault: bool, others: nat, id: Id, taken: Id)
    requires Consistent(db) && HasKey(db, taken, q) && WellFormed(db, q) && !Readable(db, q.actor, taken) && id !in db.entries
    requires var r := db.reviews[q.review]; var a := Authority(db, sv, q.actor, q.workspace, r.resource, live, fault);
             && a.Some? && CheckReview(db, q, a.value, r, recent).Done? && facts.fingerprint == r.fingerprint
             && |ActiveJobs(db, q.workspace)| + others < db.workspaces[q.workspace].settings.queueLimit
    ensures ConfirmSecond(db, sv, q, db.reviews[q.review].hash, facts, recent, live, fault, others, id) == (db, Refused(ErrStore))
  {
    ResolveTaken(db, q, db.reviews[q.review].hash, taken);
  }
}
