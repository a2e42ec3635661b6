/** Every transaction keeps the tables consistent. */
module Consistency {
  import opened Options
  import opened Lifecycle
  import opened Receipts
  import opened Tables
  import opened Transactions
  import M = Membership

  lemma StoreReviewKeeps(db: Store, sv: Service, actor: M.User, workspace: Id, resource: Id, action: Action,
                         seen: View, facts: Facts, recent: bool, live: bool, fault: bool, review: Id)
    requires Consistent(db)
    ensures Consistent(StoreReview(db, sv, actor, workspace, resource, action, seen, facts, recent, live, fault, review).0)
  {
    var (db', code) := StoreReview(db, sv, actor, workspace, resource, action, seen, facts, recent, live, fault, review);
    if code.Done? {
      forall id | id in db'.entries ensures Reviewed(db', id) {
        assert Reviewed(db, id);
      }
      forall r | r in db'.reviews ensures ReviewOk(db', r) {
        assert r != review ==> ReviewOk(db, r);
      }
    }
  }

  lemma AcceptReviewed(db: Store, q: Request, hash: Digest, r: Review, target: Target, id: Id, x: Id)
    requires q.review in db.reviews && r == db.reviews[q.review] && r.consumed.None? && hash == r.hash
    requires r.workspace == q.workspace && r.actor == q.actor && id !in db.entries
    requires x in db.entries ==> Reviewed(db, x)
    requires x in db.entries || x == id
    ensures Reviewed(Accept(db, q, hash, r, target, id), x)
  {
  }

  lemma AcceptReviewOk(db: Store, q: Request, hash: Digest, r: Review, target: Target, id: Id, v: Id)
    requires q.review in db.reviews && r == db.reviews[q.review] && id !in db.entries
    requires v in db.reviews && ReviewOk(db, v)
    ensures ReviewOk(Accept(db, q, hash, r, target, id), v)
  {
  }

  lemma AcceptedApart(db: Store, q: Request, hash: Digest, r: Review, target: Target, id: Id, x: Id)
    requires id !in db.entries && x in db.entries && !HasKey(db, x, q) && !Reserves(db.entries[x], target)
    ensures var db' := Accept(db, q, hash, r, target, id);
            Apart(db'.entries[x], db'.entries[id]) && Apart(db'.entries[id], db'.entries[x])
  {
  }

  lemma AcceptKeeps(db: Store, q: Request, hash: Digest, r: Review, target: Target, id: Id)
    requires Consistent(db)
    requires q.review in db.reviews && r == db.reviews[q.review] && r.consumed.None? && hash == r.hash
    requires r.workspace == q.workspace && r.actor == q.actor
    requires id !in db.entries
    requires target.workspace == q.workspace && target.connection == r.connection
    requires forall x :: x in db.entries ==> !HasKey(db, x, q) && !Reserves(db.entries[x], target)
    ensures Consistent(Accept(db, q, hash, r, target, id))
  {
    var db' := Accept(db, q, hash, r, target, id);
    forall x | x in db'.entries ensures EntryOk(db'.entries[x]) && Reviewed(db', x) {
      AcceptReviewed(db, q, hash, r, target, id, x);
    }
    forall v | v in db'.reviews ensures ReviewOk(db', v) {
      AcceptReviewOk(db, q, hash, r, target, id, v);
    }
    forall a, b | a in db'.entries && b in db'.entries && a != b ensures Apart(db'.entries[a], db'.entries[b]) {
      if a == id {
        AcceptedApart(db, q, hash, r, target, id, b);
      } else if b == id {
        AcceptedApart(db, q, hash, r, target, id, a);
      } else {
        assert Apart(db.entries[a], db.entries[b]);
      }
    }
  }

  lemma ConfirmSecondKeeps(db: Store, sv: Service, q: Request, hash: Digest, facts: Facts, recent: bool, live: bool, fault: bool,
                           others: nat, id: Id)
    requires Consistent(db)
    ensures Consistent(ConfirmSecond(db, sv, q, hash, facts, recent, live, fault, others, id).0)
  {
    var (db', answer) := ConfirmSecond(db, sv, q, hash, facts, recent, live, fault, others, id);
    if db' != db {
      var r := db.reviews[q.review];
      var a := Authority(db, sv, q.actor, q.workspace, r.resource, live, fault).value;
      assert a.target.workspace == q.workspace && a.target.connection == a.connection;
      AcceptKeeps(db, q, hash, r, a.target, id);
    }
  }

  lemma ClaimKeeps(db: Store, l: Claimed, at: int)
    requires Consistent(db)
    ensures Consistent(Claim(db, l, at).0)
  {
    if Claim(db, l, at).1.Done? {
      PutKeeps(db, l.operation, Claim(db, l, at).0.entries[l.operation]);
    }
  }

  lemma RenewKeeps(db: Store, l: Claimed, at: int)
    requires Consistent(db)
    ensures Consistent(Renew(db, l, at).0)
  {
    if Renew(db, l, at).1.Done? {
      PutKeeps(db, l.operation, Renew(db, l, at).0.entries[l.operation]);
    }
  }

  lemma MarkOk(e: Entry)
    requires EntryOk(e) && e.operation.state.Queued? && HasActiveJob(e)
    ensures EntryOk(Advance(e, Dispatching))
  {
    AdvanceOk(e, Dispatching, e.job.value);
    assert WithJob(Advance(e, Dispatching), e.job.value) == Advance(e, Dispatching);
  }

  lemma MarkKeeps(db: Store, sv: Service, l: Claimed, fingerprint: nat, live: bool, fault: bool)
    requires Consistent(db)
    ensures Consistent(Mark(db, sv, l, fingerprint, live, fault).0)
  {
    if Mark(db, sv, l, fingerprint, live, fault).1.Done? {
      var e := db.entries[l.operation];
      MarkOk(e);
      PutKeeps(db, l.operation, Advance(e, Dispatching));
    }
  }

  lemma RejectUnsentKeeps(db: Store, l: Claimed, cause: Code)
    requires Consistent(db)
    ensures Consistent(RejectUnsent(db, l, cause).0)
  {
    if Definitive(cause) && RejectUnsent(db, l, cause).1.Done? {
      var e := db.entries[l.operation];
      var e' := HandBack(Advance(e, Failed), JobFailed, 0, db.now);
      AdvanceOk(e, Failed, e'.job.value);
      PutKeeps(db, l.operation, e');
    }
  }

  lemma ReceiptOk(e: Entry, reply: Reply, delay: nat, now: int)
    requires EntryOk(e) && e.operation.state.Dispatching? && HasActiveJob(e)
    ensures var (to, reference) := ClassifyActionReceipt(e.operation.action, reply);
            EntryOk(HandBack(Advance(WithReference(e, reference), to), if to.Failed? then JobFailed else JobQueued, delay, now))
  {
    var (to, reference) := ClassifyActionReceipt(e.operation.action, reply);
    ReceiptSoundness(e.operation.action, reply);
    var e1 := WithReference(e, reference);
    var e2 := HandBack(Advance(e1, to), if to.Failed? then JobFailed else JobQueued, delay, now);
    AdvanceOk(e1, to, e2.job.value);
  }

  lemma StoreReceiptKeeps(db: Store, l: Claimed, reply: Reply, delay: nat)
    requires Consistent(db)
    ensures Consistent(StoreReceipt(db, l, reply, delay).0)
  {
    if StoreReceipt(db, l, reply, delay).1.Done? {
      ReceiptOk(db.entries[l.operation], reply, delay, db.now);
      PutKeeps(db, l.operation, StoreReceipt(db, l, reply, delay).0.entries[l.operation]);
    }
  }

  /** An observation never argues for a state its operation cannot reach. */
  lemma ConclusionAllowed(from: OpState, x: Observation, referenced: bool)
    requires InFlight(from)
    ensures var to := Conclusion(x, referenced);
            && (Allowed(from, to) || (to.Unknown? && Allowed(from, Reconciling) && Allowed(Reconciling, to)))
            && !to.Queued? && !to.Dispatching? && !to.Cancelled?
  {
  }

  lemma SettleOk(e: Entry, to: OpState, j: Job)
    requires EntryOk(e) && InFlight(e.operation.state) && HasActiveJob(e)
    requires to.Unknown? || Allowed(e.operation.state, to)
    requires JobRow(j) && (Active(j) <==> Unsettled(to))
    ensures EntryOk(WithJob(Settle(e, to), j))
  {
    if to.Unknown? && !e.operation.state.Reconciling? {
      var mid := Advance(e, Reconciling);
      AdvanceOk(e, Reconciling, e.job.value);
      assert WithJob(mid, e.job.value) == mid;
      AdvanceOk(mid, to, j);
    } else {
      AdvanceOk(e, to, j);
    }
  }

  lemma StoreObservationKeeps(db: Store, l: Claimed, from: OpState, x: Observation, referenced: bool, delay: nat)
    requires Consistent(db)
    ensures Consistent(StoreObservation(db, l, from, Conclusion(x, referenced), delay).0)
  {
    var to := Conclusion(x, referenced);
    if StoreObservation(db, l, from, to, delay).1.Done? {
      var e := db.entries[l.operation];
      ConclusionAllowed(from, x, referenced);
      var e' := HandBack(Settle(e, to), if Final(to) then JobSucceeded else JobQueued, delay, db.now);
      SettleOk(e, to, e'.job.value);
      PutKeeps(db, l.operation, e');
    }
  }

  lemma CancelOk(e: Entry, now: int)
    requires EntryOk(e) && e.operation.state.Queued?
    ensures EntryOk(if HasActiveJob(e) then WithJob(Advance(e, Cancelled), CancelJob(e.job.value, now)) else Advance(e, Cancelled))
  {
    if HasActiveJob(e) {
      AdvanceOk(e, Cancelled, CancelJob(e.job.value, now));
    } else {
      AdvanceOk(e, Cancelled, e.job.value);
      assert WithJob(Advance(e, Cancelled), e.job.value) == Advance(e, Cancelled);
    }
  }

  lemma CancelKeeps(db: Store, actor: M.User, workspace: Id, id: Id)
    requires Consistent(db)
    ensures Consistent(Cancel(db, actor, workspace, id).0)
  {
    if Cancel(db, actor, workspace, id).1.Done? {
      CancelOk(db.entries[id], db.now);
      PutKeeps(db, id, Cancel(db, actor, workspace, id).0.entries[id]);
    }
  }

  lemma RecheckOk(e: Entry, now: int)
    requires EntryOk(e) && e.operation.state.Unknown? && e.locked
    ensures EntryOk(WithJob(Advance(e, Reconciling), Job(JobQueued, now, None, 0, now + RECHECK_SECONDS, None)))
  {
    AdvanceOk(e, Reconciling, Job(JobQueued, now, None, 0, now + RECHECK_SECONDS, None));
  }

  lemma RecheckKeeps(db: Store, actor: M.User, workspace: Id, id: Id)
    requires Consistent(db)
    ensures Consistent(Recheck(db, actor, workspace, id).0)
  {
    var (db', code) := Recheck(db, actor, workspace, id);
    if code.Done? && db.entries[id].operation.state.Unknown? {
      RecheckOk(db.entries[id], db.now);
      PutKeeps(db, id, db'.entries[id]);
    }
  }

  lemma ReleaseUnknownKeeps(db: Store, actor: M.User, workspace: Id, id: Id, acknowledged: bool, typed: string, recent: bool)
    requires Consistent(db)
    ensures Consistent(ReleaseUnknown(db, actor, workspace, id, acknowledged, typed, recent).0)
  {
    var (db', code) := ReleaseUnknown(db, actor, workspace, id, acknowledged, typed, recent);
    if code.Done? {
      PutKeeps(db, id, db'.entries[id]);
    }
  }

  lemma ExpireOneKeeps(db: Store, id: Id)
    requires Consistent(db)
    ensures Consistent(ExpireOne(db, id))
  {
    if id in db.entries && Exhausted(db.entries[id], db.now) {
      var e := db.entries[id];
      var e' := ExpireEntry(e, db.now);
      if e.operation.state.Queued? {
        AdvanceOk(e, Failed, e'.job.value);
      } else {
        SettleOk(e, Unknown, e'.job.value);
      }
      PutKeeps(db, id, e');
    }
  }

  lemma PruneReviewsKeeps(db: Store, chosen: set<Id>)
    requires Consistent(db)
    ensures Consistent(PruneReviews(db, chosen))
  {
    var db' := PruneReviews(db, chosen);
    forall id | id in db'.entries ensures Reviewed(db', id) {
      assert Reviewed(db, id);
    }
    forall r | r in db'.reviews ensures ReviewOk(db', r) {
      assert ReviewOk(db, r);
    }
  }

  lemma PruneJobKeeps(db: Store, id: Id)
    requires Consistent(db)
    ensures Consistent(PruneJob(db, id))
  {
    if id in db.entries && PrunableJob(db.entries[id], db.now) {
      PutKeeps(db, id, db.entries[id].(job := None));
    }
  }

  lemma DisableEntryOk(e: Entry, connection: Id, now: int)
    requires EntryOk(e)
    ensures var e' := DisableEntry(e, connection, now);
            EntryOk(e') && e'.operation == e.operation && e'.locked == e.locked
  {
  }

  lemma DisableKeeps(db: Store, actor: M.User, workspace: Id, connection: Id)
    requires Consistent(db)
    ensures Consistent(Disable(db, actor, workspace, connection).0)
  {
    var (db', code) := Disable(db, actor, workspace, connection);
    if code.Done? && db.connections[connection].active {
      forall id | id in db'.entries ensures EntryOk(db'.entries[id]) && Reviewed(db', id) && db'.entries[id].operation == db.entries[id].operation {
        DisableEntryOk(db.entries[id], connection, db.now);
        assert Reviewed(db, id);
      }
      forall r | r in db'.reviews ensures ReviewOk(db', r) {
        assert ReviewOk(db, r);
      }
      forall a, b | a in db'.entries && b in db'.entries && a != b ensures Apart(db'.entries[a], db'.entries[b]) {
        assert Apart(db.entries[a], db.entries[b]);
        DisableEntryOk(db.entries[a], connection, db.now);
        DisableEntryOk(db.entries[b], connection, db.now);
      }
    }
  }
}
