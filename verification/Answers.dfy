/**
 What a client is told, for every call: which existing operation an acceptance answers with, and what each
 refusal means.
 */
module Answers {
  import opened Options
  import opened Lifecycle
  import opened Receipts
  import opened Tables
  import opened Transactions
  import opened Causes
  import M = Membership

  /** A member who may read on the operation's connection. */
  predicate Sees(db: Store, actor: M.User, id: Id) {
    && id in db.entries
    && var o := db.entries[id].operation;
    && o.workspace in db.workspaces
    && var w := db.workspaces[o.workspace];
    && actor in w.members && actor !in w.disabled && M.Read in M.Granted(w, o.connection, actor)
  }

  /** The actor's own operation under this key, which it can still read. */
  predicate Earlier(db: Store, q: Request, id: Id) {
    && Sees(db, q.actor, id)
    && var o := db.entries[id].operation;
    o.workspace == q.workspace && o.actor == q.actor && o.key == q.key
  }

  ghost predicate Recovers(db: Store, q: Request, hash: Digest, answer: Answer) {
    && (answer.Found? ==> Earlier(db, q, answer.operation) && db.entries[answer.operation].operation.hash == hash
                          && db.entries[answer.operation].operation.state == answer.state)
    && (answer == Refused(ErrConflict) ==> exists x :: Earlier(db, q, x) && db.entries[x].operation.hash != hash)
  }

  /** The lookup goes on exactly when there is no such operation, and otherwise answers for one of them. */
  lemma Resolved(db: Store, q: Request, hash: Digest)
    ensures var answer := Resolve(db, q, hash);
      && (answer.Proceed? <==> forall x :: x in db.entries ==> !Earlier(db, q, x))
      && (answer.Proceed? ==> answer == Proceed(hash))
      && (answer.Found? || answer == Refused(ErrConflict) || answer.Proceed?)
      && Recovers(db, q, hash, answer)
  {
    forall x | x in db.entries ensures Earlier(db, q, x) <==> HasKey(db, x, q) && Readable(db, q.actor, x) {
    }
    if exists id :: id in db.entries && HasKey(db, id, q) && Readable(db, q.actor, id) {
      var id :| id in db.entries && HasKey(db, id, q) && Readable(db, q.actor, id);
      assert Earlier(db, q, id);
    }
  }

  // ---- What a refusal means ----

  /** The review is the actor's own in this workspace. */
  predicate Owns(db: Store, q: Request) {
    q.workspace in db.workspaces && q.review in db.reviews && db.reviews[q.review].workspace == q.workspace && db.reviews[q.review].actor == q.actor
  }

  /** The reviewed resource can be read, is there, and its active connection is one the actor may read on. */
  predicate Shown(db: Store, q: Request, live: bool, fault: bool) {
    && Owns(db, q) && live && !fault && db.reviews[q.review].resource in db.resources
    && var t, w := db.resources[db.reviews[q.review].resource], db.workspaces[q.workspace];
    && t.workspace == q.workspace && t.connection in db.connections
    && db.connections[t.connection].workspace == q.workspace && db.connections[t.connection].active
    && q.actor in w.members && q.actor !in w.disabled && M.Read in M.Granted(w, t.connection, q.actor)
  }

  /** The review still describes its resource: unused, in time, and current in connection, credential, policy and switches. */
  predicate StillCurrent(db: Store, sv: Service, q: Request) {
    && CurrentReview(db, sv, q)
    && db.reviews[q.review].resource in db.resources
    && db.resources[db.reviews[q.review].resource].connection == db.reviews[q.review].connection
  }

  /** Why an acceptance that checks a review may be refused; the answer is checked in this order. */
  ghost predicate CheckRefused(db: Store, sv: Service, q: Request, recent: bool, live: bool, fault: bool, c: Code) {
    match c
    case ErrNotFound => !Shown(db, q, live, fault)
    case ErrStale => Shown(db, q, live, fault) && !StillCurrent(db, sv, q)
    case ErrDenied => Shown(db, q, live, fault) && StillCurrent(db, sv, q) && !StillOffered(db, q)
    case ErrInvalid => Owns(db, q) && StillCurrent(db, sv, q) && StillOffered(db, q) && db.reviews[q.review].high && q.typed != db.reviews[q.review].name
    case ErrRecent => Owns(db, q) && StillCurrent(db, sv, q) && StillOffered(db, q) && db.reviews[q.review].high && !recent
    case _ => false
  }

  lemma ShownExactly(db: Store, sv: Service, q: Request, live: bool, fault: bool)
    requires OwnReview(db, q) && q.workspace in db.workspaces
    ensures Authority(db, sv, q.actor, q.workspace, db.reviews[q.review].resource, live, fault).Some? <==> Shown(db, q, live, fault)
  {
  }

  /** The checks of a shown resource's review name the first one that fails. */
  lemma CheckAnswers(db: Store, sv: Service, q: Request, recent: bool, live: bool, fault: bool)
    requires Shown(db, q, live, fault)
    ensures var r := db.reviews[q.review];
      var a := Authority(db, sv, q.actor, q.workspace, r.resource, live, fault);
      && a.Some? && a.value.target == db.resources[r.resource]
      && var c := CheckReview(db, q, a.value, r, recent);
      if StillCurrent(db, sv, q) && StillOffered(db, q) && (r.high ==> q.typed == r.name && recent)
      then c.Done? else CheckRefused(db, sv, q, recent, live, fault, c)
  {
    var r := db.reviews[q.review];
    ShownExactly(db, sv, q, live, fault);
    AuthorityRows(db, sv, q.actor, q.workspace, r.resource, r.action, r.high);
  }

  /** Why the second transaction refuses a request it does not recover. */
  ghost predicate SecondRefused(db: Store, sv: Service, q: Request, hash: Digest, facts: Facts, recent: bool, live: bool, fault: bool,
                                others: nat, id: Id, c: Code)
  {
    match c
    case ErrConflict => exists x :: Earlier(db, q, x) && db.entries[x].operation.hash != hash
    case ErrStale =>
      CheckRefused(db, sv, q, recent, live, fault, c)
      || (Owns(db, q) && (hash != db.reviews[q.review].hash || facts.fingerprint != db.reviews[q.review].fingerprint))
    case ErrQuota =>
      q.workspace in db.workspaces && |Outstanding(db, q.workspace)| + others >= db.workspaces[q.workspace].settings.queueLimit
    case ErrStore => !Unused(db, q, id)
    case ErrBusy => Held(db, q) && InOrder(db, sv, q, hash, facts, recent, others, id)
    case _ => CheckRefused(db, sv, q, recent, live, fault, c)
  }

  /** Once its review is shown and nothing earlier is found, the remaining checks decide. */
  lemma ShownAnswers(db: Store, sv: Service, q: Request, hash: Digest, facts: Facts, recent: bool, others: nat, id: Id)
    requires Shown(db, q, true, false) && Resolve(db, q, hash) == Proceed(hash)
    requires !Acceptable(db, sv, q, hash, facts, recent, others, id)
    ensures var (db', answer) := ConfirmSecond(db, sv, q, hash, facts, recent, true, false, others, id);
      db' == db && answer.Refused? && SecondRefused(db, sv, q, hash, facts, recent, true, false, others, id, answer.code)
  {
    CheckAnswers(db, sv, q, recent, true, false);
    UnusedRows(db, q, id);
  }

  /** Without a resource to show, or with something earlier, no check is reached. */
  lemma EarlyAnswers(db: Store, sv: Service, q: Request, hash: Digest, facts: Facts, recent: bool, live: bool, fault: bool,
                     others: nat, id: Id)
    requires !Shown(db, q, live, fault) || !Resolve(db, q, hash).Proceed?
    ensures ConfirmSecond(db, sv, q, hash, facts, recent, live, fault, others, id)
      == (db, if q.workspace in db.workspaces && !Resolve(db, q, hash).Proceed? then Resolve(db, q, hash) else Refused(ErrNotFound))
  {
    if q.workspace in db.workspaces && OwnReview(db, q) {
      ShownExactly(db, sv, q, live, fault);
    }
  }

  /**
   The answer of every second transaction: what it created; or, creating nothing, one of the actor's own operations
   under this key with its present state; or a refusal that names what stood in the way.
   */
  lemma SecondAnswers(db: Store, sv: Service, q: Request, hash: Digest, facts: Facts, recent: bool, live: bool, fault: bool,
                      others: nat, id: Id)
    ensures var (db', answer) := ConfirmSecond(db, sv, q, hash, facts, recent, live, fault, others, id);
      if live && !fault && Acceptable(db, sv, q, hash, facts, recent, others, id)
      then answer == Found(id, Queued) && Created(db, db', q, hash, id)
      else
        && db' == db && Recovers(db, q, hash, answer)
        && (answer.Found? || (answer.Refused? && SecondRefused(db, sv, q, hash, facts, recent, live, fault, others, id, answer.code)))
  {
    Resolved(db, q, hash);
    if live && !fault && Acceptable(db, sv, q, hash, facts, recent, others, id) {
      AcceptsExactly(db, sv, q, hash, facts, recent, others, id);
    } else if Shown(db, q, live, fault) && Resolve(db, q, hash).Proceed? {
      ShownAnswers(db, sv, q, hash, facts, recent, others, id);
    } else {
      EarlyAnswers(db, sv, q, hash, facts, recent, live, fault, others, id);
    }
  }

  /** A request that is in order but whose target is reserved is told so, and nobody else is. */
  lemma BusyExactly(db: Store, sv: Service, q: Request, hash: Digest, facts: Facts, recent: bool, live: bool, fault: bool,
                    others: nat, id: Id)
    ensures ConfirmSecond(db, sv, q, hash, facts, recent, live, fault, others, id).1 == Refused(ErrBusy)
      <==> live && !fault && Held(db, q) && InOrder(db, sv, q, hash, facts, recent, others, id)
  {
    SecondAnswers(db, sv, q, hash, facts, recent, live, fault, others, id);
    if !live || fault {
      EarlyAnswers(db, sv, q, hash, facts, recent, live, fault, others, id);
      Resolved(db, q, hash);
    }
  }

  // ---- The first transaction ----

  /** One to 128 letters, digits, dots, underscores, colons and dashes. */
  predicate KeyText(key: string) {
    1 <= |key| <= 128
    && forall i :: 0 <= i < |key| ==>
         'A' <= key[i] <= 'Z' || 'a' <= key[i] <= 'z' || '0' <= key[i] <= '9' || key[i] in {'.', '_', ':', '-'}
  }

  lemma KeysInRows(key: string)
    ensures ValidKey(key) <==> KeyText(key)
  {
    forall i | 0 <= i < |key|
      ensures KeyChar(key[i]) <==>
              'A' <= key[i] <= 'Z' || 'a' <= key[i] <= 'z' || '0' <= key[i] <= '9' || key[i] in {'.', '_', ':', '-'}
    {
    }
  }

  /** The intent of the request is the one that was reviewed. */
  predicate Intended(db: Store, q: Request) {
    && Owns(db, q)
    && var r := db.reviews[q.review];
    r.hash == Digest(r.action, q.workspace, q.actor, r.connection, r.resource, q.review)
  }

  ghost predicate FirstRefused(db: Store, sv: Service, q: Request, recent: bool, live: bool, fault: bool, c: Code) {
    match c
    case ErrInvalid => !KeyText(q.key) || !q.confirmed || CheckRefused(db, sv, q, recent, live, fault, c)
    case ErrStale => Owns(db, q) && (!Intended(db, q) || CheckRefused(db, sv, q, recent, live, fault, c))
    case ErrConflict => Owns(db, q) && exists x :: Earlier(db, q, x) && db.entries[x].operation.hash != db.reviews[q.review].hash
    case _ => CheckRefused(db, sv, q, recent, live, fault, c)
  }

  /** A first transaction lets its caller go on exactly when the request is well formed, new, and passes every check. */
  lemma FirstAnswers(db: Store, sv: Service, q: Request, recent: bool, live: bool, fault: bool)
    ensures var answer := ConfirmFirst(db, sv, q, recent, live, fault);
      && (answer.Proceed? <==>
            && KeyText(q.key) && q.confirmed && Intended(db, q) && (forall x :: x in db.entries ==> !Earlier(db, q, x))
            && Shown(db, q, live, fault) && StillCurrent(db, sv, q) && StillOffered(db, q)
            && (db.reviews[q.review].high ==> q.typed == db.reviews[q.review].name && recent))
      && (answer.Proceed? ==> answer.hash == db.reviews[q.review].hash)
      && (answer.Found? ==> Owns(db, q) && Recovers(db, q, db.reviews[q.review].hash, answer))
      && (answer.Refused? ==> FirstRefused(db, sv, q, recent, live, fault, answer.code))
  {
    KeysInRows(q.key);
    if Intended(db, q) {
      Resolved(db, q, db.reviews[q.review].hash);
      ShownExactly(db, sv, q, live, fault);
      if Shown(db, q, live, fault) {
        CheckAnswers(db, sv, q, recent, live, fault);
      }
    }
  }
}
