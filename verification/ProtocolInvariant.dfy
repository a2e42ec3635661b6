/** Every step of every actor keeps the protocol's invariant. */
module ProtocolInvariant {
  import opened Options
  import opened Lifecycle
  import opened Receipts
  import opened Tables
  import opened Transactions
  import opened Consistency
  import opened Protocol
  import M = Membership

  // ---- Frames ----

  /** What a step on operation `id` leaves alone. */
  ghost predicate Touches(w: World, w': World, id: Id) {
    && id in w.db.entries && id in w.trails
    && w'.db.entries.Keys == w.db.entries.Keys && w'.trails.Keys == w.trails.Keys
    && (forall x :: x in w.db.entries && x != id ==> w'.db.entries[x] == w.db.entries[x])
    && (forall x :: x in w.trails && x != id ==> w'.trails[x] == w.trails[x])
    && w.db.now <= w'.db.now
    && (forall t :: t in w.issued ==> t in w'.issued && w'.issued[t] == w.issued[t])
    && (forall t :: t in w'.issued && t !in w.issued ==> w'.issued[t].token == t && w'.issued[t].operation == id)
  }

  lemma WorkerElsewhere(w: World, w': World, id: Id, y: Id, x: Worker)
    requires Touches(w, w', id) && x.claim.operation != id && WorkerOk(y, x, w)
    ensures WorkerOk(y, x, w')
  {
  }

  /** Another worker on the same operation. */
  lemma WorkerBeside(w: World, w': World, id: Id, y: Id, x: Worker)
    requires Touches(w, w', id) && x.claim.operation == id && WorkerOk(y, x, w)
    requires !x.pc.Idle? ==> PcOk(x, w'.trails[id]) && TimingOk(x, w'.db.entries[id], w'.db.now)
    ensures WorkerOk(y, x, w')
  {
  }

  lemma OperationElsewhere(w: World, w': World, id: Id, x: Id)
    requires Touches(w, w', id) && x in w.db.entries && x in w.trails && x != id
    requires OperationOk(w.db.entries[x], w.trails[x]) && TokensOk(x, w.db.entries[x], w.trails[x], w.issued)
    ensures OperationOk(w'.db.entries[x], w'.trails[x]) && TokensOk(x, w'.db.entries[x], w'.trails[x], w'.issued)
  {
  }

  lemma TouchKeeps(w: World, w': World, id: Id)
    requires Live(w) && Touches(w, w', id)
    requires OperationOk(w'.db.entries[id], w'.trails[id]) && TokensOk(id, w'.db.entries[id], w'.trails[id], w'.issued)
    requires forall y :: y in w'.workers ==> WorkerOk(y, w'.workers[y], w')
    ensures Live(w')
  {
    forall x | x in w'.db.entries
      ensures OperationOk(w'.db.entries[x], w'.trails[x]) && TokensOk(x, w'.db.entries[x], w'.trails[x], w'.issued)
    {
      if x != id {
        OperationElsewhere(w, w', id, x);
      }
    }
  }

  /** A step that touches no entry, no trail and no token, and at most puts workers back to idle. */
  lemma QuietKeeps(w: World, w': World)
    requires Live(w)
    requires w'.db.entries == w.db.entries && w'.trails == w.trails && w'.issued == w.issued && w.db.now <= w'.db.now
    requires forall y :: y in w'.workers ==> w'.workers[y].pc.Idle? || (y in w.workers && w'.workers[y] == w.workers[y])
    ensures Live(w')
  {
    forall y | y in w'.workers ensures WorkerOk(y, w'.workers[y], w') {
      if !w'.workers[y].pc.Idle? {
        assert WorkerOk(y, w.workers[y], w);
      }
    }
  }

  /** A worker moves on without committing anything. */
  lemma PcKeeps(w: World, me: Id, pc: Pc)
    requires Live(w) && me in w.workers && !w.workers[me].pc.Idle?
    requires var x := w.workers[me].(pc := pc); var id := x.claim.operation;
             pc.Idle? || (id in w.trails && id in w.db.entries && PcOk(x, w.trails[id]) && TimingOk(x, w.db.entries[id], w.db.now))
    ensures Live(AtPc(w, me, pc))
  {
    var w' := AtPc(w, me, pc);
    assert WorkerOk(me, w.workers[me], w);
    forall y | y in w'.workers ensures WorkerOk(y, w'.workers[y], w') {
      if y != me {
        assert WorkerOk(y, w.workers[y], w);
      }
    }
  }

  /** Tokens tell workers apart. */
  lemma TokensDiffer(w: World, a: Id, b: Id)
    requires Live(w) && a in w.workers && b in w.workers && a != b
    requires !w.workers[a].pc.Idle? && !w.workers[b].pc.Idle?
    ensures w.workers[a].claim.token != w.workers[b].claim.token
  {
    assert WorkerOk(a, w.workers[a], w) && WorkerOk(b, w.workers[b], w);
  }

  /** Every other worker's view of the operation survives. */
  ghost predicate Undisturbed(w: World, w': World, id: Id, token: Id)
    requires Touches(w, w', id)
  {
    forall x: Worker :: !x.pc.Idle? && x.claim.operation == id && x.claim.token != token
      && PcOk(x, w.trails[id]) && TimingOk(x, w.db.entries[id], w.db.now)
      ==> PcOk(x, w'.trails[id]) && TimingOk(x, w'.db.entries[id], w'.db.now)
  }

  /** A step of `me` on its own operation. */
  lemma WorkerStepKeeps(w: World, w': World, me: Id)
    requires Live(w) && me in w.workers && !w.workers[me].pc.Idle?
    requires forall y :: y in w'.workers && y != me ==> y in w.workers && w'.workers[y] == w.workers[y]
    requires me in w'.workers && WorkerOk(me, w'.workers[me], w')
    requires var id := w.workers[me].claim.operation;
             && Touches(w, w', id) && w'.issued == w.issued
             && OperationOk(w'.db.entries[id], w'.trails[id]) && TokensOk(id, w'.db.entries[id], w'.trails[id], w'.issued)
             && Undisturbed(w, w', id, w.workers[me].claim.token)
    ensures Live(w')
  {
    var id := w.workers[me].claim.operation;
    forall y | y in w'.workers && y != me ensures WorkerOk(y, w'.workers[y], w') {
      var x := w.workers[y];
      assert WorkerOk(y, x, w);
      if x.claim.operation != id {
        WorkerElsewhere(w, w', id, y, x);
      } else {
        if !x.pc.Idle? {
          TokensDiffer(w, me, y);
        }
        WorkerBeside(w, w', id, y, x);
      }
    }
    TouchKeeps(w, w', id);
  }

  /** The tokens on an entry are those it had, but for the marker, which may now be that of `l`. */
  predicate TokensFrom(e: Entry, t: Trail, e': Entry, t': Trail, l: Claimed) {
    && (e'.job.Some? && e'.job.value.lease.Some? ==>
          && e.job.Some? && e.job.value.lease.Some?
          && e'.job.value.lease.value.owner == e.job.value.lease.value.owner
          && e'.job.value.lease.value.token == e.job.value.lease.value.token)
    && (t'.marker == t.marker || t'.marker == Some(l.token))
  }

  lemma TokensCarry(w: World, e': Entry, t': Trail, me: Id)
    requires Live(w) && me in w.workers && !w.workers[me].pc.Idle?
    requires var id := w.workers[me].claim.operation;
             id in w.db.entries && id in w.trails && TokensFrom(w.db.entries[id], w.trails[id], e', t', w.workers[me].claim)
    ensures TokensOk(w.workers[me].claim.operation, e', t', w.issued)
  {
    var id := w.workers[me].claim.operation;
    assert TokensOk(id, w.db.entries[id], w.trails[id], w.issued);
    assert WorkerOk(me, w.workers[me], w);
  }

  /** The world after `me` replaced the rows and the record of its operation, and moved to `pc`. */
  function Replaced(w: World, me: Id, x: Worker, id: Id, e: Entry, t: Trail): World {
    w.(db := Put(w.db, id, e), trails := w.trails[id := t], workers := w.workers[me := x])
  }

  /** Such a step keeps everything as soon as its own entry, record and place are right. */
  lemma OwnStepKeeps(w: World, me: Id, x': Worker, e': Entry, t': Trail)
    requires Live(w) && me in w.workers && !w.workers[me].pc.Idle? && x'.claim == w.workers[me].claim
    requires var id := x'.claim.operation;
             && id in w.db.entries && id in w.trails
             && TokensFrom(w.db.entries[id], w.trails[id], e', t', x'.claim) && OperationOk(e', t')
             && (!x'.pc.Idle? ==> PcOk(x', t') && TimingOk(x', e', w.db.now))
             && (forall x: Worker :: x.claim.token != x'.claim.token && PcOk(x, w.trails[id]) && TimingOk(x, w.db.entries[id], w.db.now)
                  ==> PcOk(x, t') && TimingOk(x, e', w.db.now))
    ensures Live(Replaced(w, me, x', x'.claim.operation, e', t'))
  {
    var id := x'.claim.operation;
    var w' := Replaced(w, me, x', id, e', t');
    TokensCarry(w, e', t', me);
    assert WorkerOk(me, w.workers[me], w);
    assert Touches(w, w', id);
    WorkerStepKeeps(w, w', me);
  }

  /** A step on one operation that no worker takes. */
  lemma OutsideStepKeeps(w: World, w': World, id: Id)
    requires Live(w) && w'.workers == w.workers && w'.issued == w.issued && Touches(w, w', id)
    requires OperationOk(w'.db.entries[id], w'.trails[id]) && TokensOk(id, w'.db.entries[id], w'.trails[id], w'.issued)
    requires forall x: Worker :: !x.pc.Idle? && x.claim.operation == id
               && PcOk(x, w.trails[id]) && TimingOk(x, w.db.entries[id], w.db.now)
               ==> PcOk(x, w'.trails[id]) && TimingOk(x, w'.db.entries[id], w'.db.now)
    ensures Live(w')
  {
    forall y | y in w'.workers ensures WorkerOk(y, w'.workers[y], w') {
      var x := w.workers[y];
      assert WorkerOk(y, x, w);
      if x.claim.operation != id {
        WorkerElsewhere(w, w', id, y, x);
      } else {
        WorkerBeside(w, w', id, y, x);
      }
    }
    TouchKeeps(w, w', id);
  }
}
