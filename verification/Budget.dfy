/**
 The in-process call budget: two slots per connection, one cooldown per quota scope, and map entries
 that are dropped when unused and made again later. Callers keep pointers to the entries they
 registered with, so an entry must never be dropped under them. Every method is one critical section
 of the mutex; as each keeps Valid() for any caller and any later time, every interleaving does.
 */
module Budgets {
  import opened Options

  type Id = nat

  const SLOTS_MAX := 2
  const ENTRIES_MAX := 1000
  const SCOPE_MAX := 512

  class Slots {
    ghost const connection: Id
    var active: int
    var refs: int

    constructor (ghost connection: Id)
      ensures active == 0 && refs == 0 && this.connection == connection
    {
      active, refs, this.connection := 0, 0, connection;
    }
  }

  /** `until` is 0, before every clock reading, until the scope is first postponed. */
  class Quota {
    ghost const scope: string
    var until: nat
    var refs: int

    constructor (ghost scope: string)
      ensures until == 0 && refs == 0 && this.scope == scope
    {
      until, refs, this.scope := 0, 0, scope;
    }
  }

  /** What one call keeps while it waits or holds a slot. */
  datatype Reservation = Reservation(connection: Id, scope: string, slots: Slots, quota: Quota)

  datatype User = User(caller: Id, at: Reservation, granted: bool)

  datatype Turn = Granted | Waiting | Abandoned

  // ---- Counting users ----

  ghost function Users(users: seq<User>, connection: Id): nat {
    if users == [] then 0
    else Users(users[..|users| - 1], connection) + if users[|users| - 1].at.connection == connection then 1 else 0
  }

  ghost function Holders(users: seq<User>, connection: Id): nat {
    if users == [] then 0
    else Holders(users[..|users| - 1], connection)
         + if users[|users| - 1].at.connection == connection && users[|users| - 1].granted then 1 else 0
  }

  ghost function Scoped(users: seq<User>, scope: string): nat {
    if users == [] then 0
    else Scoped(users[..|users| - 1], scope) + if users[|users| - 1].at.scope == scope then 1 else 0
  }

  /** One more caller counts once on its own connection and scope, and nowhere else. */
  lemma Joined(users: seq<User>, u: User, c: Id, s: string)
    ensures Users(users + [u], c) == Users(users, c) + (if c == u.at.connection then 1 else 0)
    ensures Holders(users + [u], c) == Holders(users, c) + (if c == u.at.connection && u.granted then 1 else 0)
    ensures Scoped(users + [u], s) == Scoped(users, s) + (if s == u.at.scope then 1 else 0)
  {
    assert (users + [u])[..|users|] == users;
  }

  ghost function Without(users: seq<User>, i: nat): seq<User>
    requires i < |users|
  {
    users[..i] + users[i + 1..]
  }

  lemma {:induction false} Left(users: seq<User>, i: nat, c: Id, s: string)
    requires i < |users|
    ensures var u, rest := users[i], Without(users, i);
            && Users(users, c) == Users(rest, c) + (if c == u.at.connection then 1 else 0)
            && Holders(users, c) == Holders(rest, c) + (if c == u.at.connection && u.granted then 1 else 0)
            && Scoped(users, s) == Scoped(rest, s) + (if s == u.at.scope then 1 else 0)
    decreases |users|
  {
    var n := |users| - 1;
    if i == n {
      assert Without(users, i) == users[..n];
    } else {
      Left(users[..n], i, c, s);
      assert Without(users, i) == Without(users[..n], i) + [users[n]];
      Joined(Without(users[..n], i), users[n], c, s);
    }
  }

  ghost function Promoted(users: seq<User>, i: nat): seq<User>
    requires i < |users|
  {
    users[i := users[i].(granted := true)]
  }

  /** A waiting caller that is granted now counts as a holder. */
  lemma {:induction false} GrantedNow(users: seq<User>, i: nat, c: Id, s: string)
    requires i < |users| && !users[i].granted
    ensures Users(Promoted(users, i), c) == Users(users, c)
    ensures Holders(Promoted(users, i), c) == Holders(users, c) + (if c == users[i].at.connection then 1 else 0)
    ensures Scoped(Promoted(users, i), s) == Scoped(users, s)
    decreases |users|
  {
    var n := |users| - 1;
    if i == n {
      assert Promoted(users, i)[..n] == users[..n];
    } else {
      GrantedNow(users[..n], i, c, s);
      assert Promoted(users, i)[..n] == Promoted(users[..n], i);
    }
  }

  /** `more` counts everybody that `us` counts, and one caller besides. */
  ghost predicate OneMore(us: seq<User>, more: seq<User>, at: Reservation, granted: bool) {
    && (forall c :: Users(more, c) == Users(us, c) + if c == at.connection then 1 else 0)
    && (forall c :: Holders(more, c) == Holders(us, c) + if c == at.connection && granted then 1 else 0)
    && (forall s :: Scoped(more, s) == Scoped(us, s) + if s == at.scope then 1 else 0)
  }

  lemma JoinedIsOneMore(users: seq<User>, u: User)
    ensures OneMore(users, users + [u], u.at, u.granted)
  {
    forall c ensures Users(users + [u], c) == Users(users, c) + (if c == u.at.connection then 1 else 0)
                     && Holders(users + [u], c) == Holders(users, c) + (if c == u.at.connection && u.granted then 1 else 0) {
      Joined(users, u, c, "");
    }
    forall s ensures Scoped(users + [u], s) == Scoped(users, s) + (if s == u.at.scope then 1 else 0) {
      Joined(users, u, 0, s);
    }
  }

  lemma LeftIsOneMore(users: seq<User>, i: nat)
    requires i < |users|
    ensures OneMore(Without(users, i), users, users[i].at, users[i].granted)
  {
    var less := Without(users, i);
    forall c ensures Users(users, c) == Users(less, c) + (if c == users[i].at.connection then 1 else 0)
                     && Holders(users, c) == Holders(less, c) + (if c == users[i].at.connection && users[i].granted then 1 else 0) {
      Left(users, i, c, "");
    }
    forall s ensures Scoped(users, s) == Scoped(less, s) + (if s == users[i].at.scope then 1 else 0) {
      Left(users, i, 0, s);
    }
  }

  /** Nobody is counted where nobody is registered, and the other way round. */
  lemma {:induction false} Nobody(users: seq<User>, c: Id, s: string)
    ensures Users(users, c) == 0 <==> forall i :: 0 <= i < |users| ==> users[i].at.connection != c
    ensures Scoped(users, s) == 0 <==> forall i :: 0 <= i < |users| ==> users[i].at.scope != s
    ensures Holders(users, c) <= Users(users, c)
    decreases |users|
  {
    if users != [] {
      var n := |users| - 1;
      Nobody(users[..n], c, s);
      assert forall i :: 0 <= i < n ==> users[..n][i] == users[i];
    }
  }

  // ---- The allocator ----

  /** The entry counts its connection's users and unreleased grants. */
  ghost predicate Counts(s: Slots, c: Id, users: seq<User>)
    reads s
  {
    s.connection == c && s.refs == Users(users, c) && s.active == Holders(users, c) <= SLOTS_MAX
  }

  /** The entry counts its scope's users. */
  ghost predicate Cools(q: Quota, scope: string, users: seq<User>)
    reads q
  {
    q.scope == scope && q.refs == Scoped(users, scope)
  }

  /** The scopes whose entries survive a clearing: those in use, and those still postponed. */
  ghost function Kept(cooldowns: map<string, Quota>, now: nat): set<string>
    reads cooldowns.Values
  {
    set s | s in cooldowns && (cooldowns[s].refs != 0 || cooldowns[s].until > now)
  }

  class Budget {
    var connections: map<Id, Slots>
    var cooldowns: map<string, Quota>
    /** Who waits or holds, what every scope has been postponed to, and the last clock reading. */
    ghost var users: seq<User>
    ghost var barred: map<string, nat>
    ghost var clock: nat
    /** The entries made so far, dropped ones included. */
    ghost var slotted: set<Slots>
    ghost var quotas: set<Quota>

    /** Every connection entry counts exactly its own users and grants; none is kept without users, but the one just made. */
    ghost predicate CountedFor(us: seq<User>, made: Option<Id>)
      reads this`connections, this`slotted, slotted
    {
      forall c :: c in connections ==>
        connections[c] in slotted && Counts(connections[c], c, us) && (made != Some(c) ==> connections[c].refs > 0)
    }

    /** Every cooldown entry counts exactly its own users. */
    ghost predicate CooledFor(us: seq<User>)
      reads this`cooldowns, this`quotas, quotas
    {
      forall s :: s in cooldowns ==> cooldowns[s] in quotas && Cools(cooldowns[s], s, us)
    }

    /** A postponement that has not run out still has its entry. */
    ghost predicate Barring()
      reads this`cooldowns, this`barred, this`clock, this`quotas, quotas
    {
      forall s :: s in barred && barred[s] > clock ==> s in cooldowns && cooldowns[s] in quotas && cooldowns[s].until >= barred[s]
    }

    /** The entries a waiting or holding call points to are the ones in the maps. */
    ghost predicate Anchored()
      reads this`connections, this`cooldowns, this`users
    {
      forall i :: 0 <= i < |users| ==> At(users[i].at)
    }

    ghost predicate At(r: Reservation)
      reads this`connections, this`cooldowns
    {
      && r.connection in connections && connections[r.connection] == r.slots
      && r.scope in cooldowns && cooldowns[r.scope] == r.quota
    }

    ghost predicate Sized()
      reads this`connections, this`cooldowns
    {
      |connections| <= ENTRIES_MAX && |cooldowns| <= ENTRIES_MAX
    }

    ghost predicate Cooled()
      reads this, quotas
    {
      CooledFor(users) && Barring() && Anchored() && Sized()
    }

    ghost predicate Valid()
      reads this, slotted, quotas
    {
      CountedFor(users, None) && Cooled()
    }

    constructor ()
      ensures Valid() && users == [] && barred == map[] && slotted == {} && quotas == {}
    {
      connections, cooldowns := map[], map[];
      users, barred, clock, slotted, quotas := [], map[], 0, {}, {};
    }

    /** What the clearing loop has left: everything still to be looked at, and what is kept. */
    ghost predicate Clearing(before: map<string, Quota>, rest: set<string>, now: nat)
      reads this`cooldowns, before.Values
    {
      && rest <= before.Keys && cooldowns.Keys == rest + Kept(before, now)
      && (forall s :: s in cooldowns ==> cooldowns[s] == before[s])
    }

    /** A clearing keeps exactly the scopes that somebody uses and those whose postponement still runs. */
    lemma KeptExactly(now: nat, scope: string)
      requires Cooled()
      ensures scope in Kept(cooldowns, now) <==>
              scope in cooldowns && ((exists k :: 0 <= k < |users| && users[k].at.scope == scope) || cooldowns[scope].until > now)
    {
      Nobody(users, 0, scope);
      if scope in cooldowns {
        assert Cools(cooldowns[scope], scope, users);
      }
    }

    /** Exactly the connections that somebody uses have an entry. */
    lemma UsedExactly(connection: Id)
      requires Valid()
      ensures connection in connections <==> exists k :: 0 <= k < |users| && users[k].at.connection == connection
    {
      Nobody(users, connection, "");
      if exists k :: 0 <= k < |users| && users[k].at.connection == connection {
        var k :| 0 <= k < |users| && users[k].at.connection == connection;
        assert At(users[k].at);
      }
    }

    /** Drops exactly the cooldown entries that nobody uses and whose time has passed. */
    method DropExpired(now: nat)
      requires Cooled() && clock <= now
      modifies this`cooldowns, this`clock
      ensures Cooled() && clock == now
      ensures cooldowns.Keys == old(Kept(cooldowns, now))
    {
      clock := now;
      ClearAll(cooldowns, now);
    }

    method ClearAll(ghost before: map<string, Quota>, now: nat)
      requires Cooled() && clock == now && before == cooldowns
      modifies this`cooldowns
      ensures Cooled() && cooldowns.Keys == Kept(before, now)
    {
      var rest := cooldowns.Keys;
      ClearingStarts(before, now);
      while rest != {}
        invariant Cooled() && Clearing(before, rest, now)
        decreases |rest|
      {
        var key :| key in rest;
        ClearOne(before, rest, key, now);
        rest := rest - {key};
      }
      ClearingEnds(before, now);
    }

    lemma ClearingStarts(before: map<string, Quota>, now: nat)
      requires cooldowns == before
      ensures Clearing(before, before.Keys, now)
    {
    }

    lemma ClearingEnds(before: map<string, Quota>, now: nat)
      requires Clearing(before, {}, now)
      ensures cooldowns.Keys == Kept(before, now)
    {
    }

    method ClearOne(ghost before: map<string, Quota>, ghost rest: set<string>, key: string, now: nat)
      requires Cooled() && clock == now && Clearing(before, rest, now) && key in rest
      modifies this`cooldowns
      ensures Cooled() && Clearing(before, rest - {key}, now)
    {
      assert Cools(cooldowns[key], key, users);
      if cooldowns[key].refs == 0 && cooldowns[key].until <= now {
        DropCooldown(key);
      }
    }

    method DropCooldown(key: string)
      requires CooledFor(users) && Barring() && Anchored() && Sized()
      requires key in cooldowns && cooldowns[key].refs == 0 && cooldowns[key].until <= clock
      modifies this`cooldowns
      ensures CooledFor(users) && Barring() && Anchored() && Sized() && cooldowns == old(cooldowns) - {key}
    {
      Nobody(users, 0, key);
      SmallerMap(cooldowns, key);
      cooldowns := cooldowns - {key};
    }

    // ---- Entering ----

    method MakeSlots(connection: Id) returns (slots: Slots)
      requires CountedFor(users, Some(connection)) && connection !in connections && Users(users, connection) == 0 == Holders(users, connection)
      modifies this`connections, this`slotted
      ensures CountedFor(users, Some(connection)) && connections == old(connections)[connection := slots]
      ensures forall o :: o in slotted ==> o in old(slotted) || fresh(o)
    {
      slots := new Slots(connection);
      connections := connections[connection := slots];
      slotted := slotted + {slots};
    }

    /** The connection's entry, made now if there is none. */
    method SlotsFor(connection: Id) returns (slots: Slots)
      requires CountedFor(users, None) && Anchored() && Sized()
      requires connection in connections || |connections| < ENTRIES_MAX
      modifies this`connections, this`slotted
      ensures CountedFor(users, Some(connection)) && Anchored() && Sized()
      ensures connection in connections && connections[connection] == slots && slots in slotted
      ensures forall o :: o in slotted ==> o in old(slotted) || fresh(o)
    {
      if connection in connections {
        return connections[connection];
      }
      Nobody(users, connection, "");
      slots := MakeSlots(connection);
      LargerMap(old(connections), connection, slots);
    }

    method MakeQuota(scope: string) returns (quota: Quota)
      requires CooledFor(users) && Barring() && Anchored() && scope !in cooldowns && Scoped(users, scope) == 0
      modifies this`cooldowns, this`quotas
      ensures CooledFor(users) && Barring() && Anchored() && cooldowns == old(cooldowns)[scope := quota]
      ensures forall o :: o in quotas ==> o in old(quotas) || fresh(o)
    {
      quota := new Quota(scope);
      cooldowns := cooldowns[scope := quota];
      quotas := quotas + {quota};
    }

    /** The scope's entry, made now if there is none. */
    method QuotaFor(scope: string, ghost made: Option<Id>) returns (quota: Quota)
      requires CountedFor(users, made) && CooledFor(users) && Barring() && Anchored() && Sized()
      requires scope in cooldowns || |cooldowns| < ENTRIES_MAX
      modifies this`cooldowns, this`quotas
      ensures CountedFor(users, made) && CooledFor(users) && Barring() && Anchored() && Sized()
      ensures scope in cooldowns && cooldowns[scope] == quota && quota in quotas
      ensures forall o :: o in quotas ==> o in old(quotas) || fresh(o)
    {
      if scope in cooldowns {
        return cooldowns[scope];
      }
      Nobody(users, 0, scope);
      quota := MakeQuota(scope);
      LargerMap(old(cooldowns), scope, quota);
    }

    method CountSlots(slots: Slots, ghost at: Reservation, ghost more: seq<User>)
      requires CountedFor(users, Some(at.connection)) && At(at) && at.slots == slots && OneMore(users, more, at, false)
      requires CooledFor(users) && Barring()
      modifies slots`refs
      ensures CountedFor(more, None) && CooledFor(users) && Barring()
    {
      slots.refs := slots.refs + 1;
    }

    method CountQuota(quota: Quota, ghost at: Reservation, ghost more: seq<User>)
      requires CooledFor(users) && Barring() && At(at) && at.quota == quota && OneMore(users, more, at, false)
      requires CountedFor(more, None)
      modifies quota`refs
      ensures CooledFor(more) && Barring() && CountedFor(more, None)
    {
      quota.refs := quota.refs + 1;
    }

    /** A proper scope, and in both maps an entry or room for one once everything expired is gone. */
    ghost predicate Room(connection: Id, scope: string, now: nat)
      reads this`connections, this`cooldowns, cooldowns.Values
    {
      && scope != "" && |scope| <= SCOPE_MAX
      && (scope in Kept(cooldowns, now) || |Kept(cooldowns, now)| < ENTRIES_MAX) && (connection in connections || |connections| < ENTRIES_MAX)
    }

    /** The first part of an acquisition: a place in both maps, or no admission at all. */
    method Enter(ghost caller: Id, connection: Id, scope: string, now: nat) returns (r: Option<Reservation>)
      requires Valid() && clock <= now
      modifies this, slotted, quotas
      ensures Valid() && clock == now && barred == old(barred)
      ensures forall o :: o in slotted ==> o in old(slotted) || fresh(o)
      ensures forall o :: o in quotas ==> o in old(quotas) || fresh(o)
      ensures r.Some? ==> users == old(users) + [User(caller, r.value, false)] && r.value.connection == connection && r.value.scope == scope
      ensures r.None? ==> users == old(users)
      ensures r.Some? <==> old(Room(connection, scope, now))
    {
      var room := Admits(connection, scope, now);
      if !room {
        return None;
      }
      var made := Place(caller, connection, scope);
      return Some(made);
    }

    /** Clears out what has expired, then says whether both maps have an entry or room for one. */
    method Admits(connection: Id, scope: string, now: nat) returns (room: bool)
      requires Valid() && clock <= now
      modifies this`cooldowns, this`clock
      ensures Valid() && clock == now
      ensures room <==> old(Room(connection, scope, now))
      ensures room ==> (scope in cooldowns || |cooldowns| < ENTRIES_MAX) && (connection in connections || |connections| < ENTRIES_MAX)
    {
      if scope == "" || |scope| > SCOPE_MAX {
        clock := now;
        return false;
      }
      DropExpired(now);
      return (scope in cooldowns || |cooldowns| < ENTRIES_MAX) && (connection in connections || |connections| < ENTRIES_MAX);
    }

    /** Finds or makes both entries and registers the caller with them. */
    method Place(ghost caller: Id, connection: Id, scope: string) returns (r: Reservation)
      requires Valid() && (scope in cooldowns || |cooldowns| < ENTRIES_MAX) && (connection in connections || |connections| < ENTRIES_MAX)
      modifies this`connections, this`cooldowns, this`users, this`slotted, this`quotas, slotted, quotas
      ensures Valid()
      ensures forall o :: o in slotted ==> o in old(slotted) || fresh(o)
      ensures forall o :: o in quotas ==> o in old(quotas) || fresh(o)
      ensures users == old(users) + [User(caller, r, false)] && r.connection == connection && r.scope == scope
    {
      r := FindEntries(connection, scope);
      Register(caller, r);
    }

    method FindEntries(connection: Id, scope: string) returns (r: Reservation)
      requires Valid() && (scope in cooldowns || |cooldowns| < ENTRIES_MAX) && (connection in connections || |connections| < ENTRIES_MAX)
      modifies this`connections, this`cooldowns, this`slotted, this`quotas
      ensures CountedFor(users, Some(connection)) && CooledFor(users) && Barring() && Anchored() && Sized()
      ensures At(r) && r.slots in slotted && r.quota in quotas && r.connection == connection && r.scope == scope
      ensures forall o :: o in slotted ==> o in old(slotted) || fresh(o)
      ensures forall o :: o in quotas ==> o in old(quotas) || fresh(o)
    {
      var slots := SlotsFor(connection);
      var quota := QuotaFor(scope, Some(connection));
      r := Reservation(connection, scope, slots, quota);
    }

    /** Registers a caller with its two entries. */
    method Register(ghost caller: Id, r: Reservation)
      requires CountedFor(users, Some(r.connection)) && CooledFor(users) && Barring() && Anchored() && Sized()
      requires At(r)
      modifies this`users, r.slots`refs, r.quota`refs
      ensures Valid() && users == old(users) + [User(caller, r, false)]
    {
      ghost var u := User(caller, r, false);
      JoinedIsOneMore(users, u);
      CountSlots(r.slots, r, users + [u]);
      CountQuota(r.quota, r, users + [u]);
      Enlist(u);
    }

    ghost method Enlist(u: User)
      requires CountedFor(users + [u], None) && CooledFor(users + [u]) && Barring() && Anchored() && Sized() && At(u.at)
      modifies this`users
      ensures Valid() && users == old(users) + [u]
    {
      users := users + [u];
    }

    ghost method Strike(i: nat)
      requires i < |users| && CountedFor(Without(users, i), Some(users[i].at.connection)) && CooledFor(Without(users, i))
      requires Barring() && Anchored() && Sized()
      modifies this`users
      ensures users == Without(old(users), i)
      ensures CountedFor(users, Some(old(users[i].at.connection))) && CooledFor(users) && Barring() && Anchored() && Sized()
    {
      StillAnchored(i);
      users := Without(users, i);
    }

    // ---- Waiting, holding, leaving ----

    method GrantSlot(ghost i: nat, slots: Slots)
      requires CountedFor(users, None) && Anchored() && i < |users| && users[i].at.slots == slots && !users[i].granted && slots.active < SLOTS_MAX
      requires CooledFor(Promoted(users, i)) && Barring()
      modifies slots`active
      ensures CountedFor(Promoted(users, i), None) && CooledFor(Promoted(users, i)) && Barring()
    {
      slots.active := slots.active + 1;
      forall c | c in connections ensures Counts(connections[c], c, Promoted(users, i)) {
        GrantedNow(users, i, c, "");
      }
    }

    lemma QuotasUnmoved(i: nat)
      requires CooledFor(users) && i < |users| && !users[i].granted
      ensures CooledFor(Promoted(users, i))
    {
      forall s | s in cooldowns ensures Cools(cooldowns[s], s, Promoted(users, i)) {
        GrantedNow(users, i, 0, s);
      }
    }

    method Grant(ghost i: nat, slots: Slots)
      requires Valid() && i < |users| && users[i].at.slots == slots && !users[i].granted && slots.active < SLOTS_MAX
      modifies slots`active, this`users
      ensures Valid() && users == Promoted(old(users), i)
    {
      QuotasUnmoved(i);
      GrantSlot(i, slots);
      Promote(i);
    }

    ghost method Promote(i: nat)
      requires i < |users| && CountedFor(Promoted(users, i), None) && CooledFor(Promoted(users, i)) && Barring() && Anchored() && Sized()
      modifies this`users
      ensures Valid() && users == Promoted(old(users), i)
    {
      users := Promoted(users, i);
    }

    /** One turn of a waiting caller, under the mutex. */
    method Attempt(ghost i: nat, r: Reservation, now: nat, cancelled: bool) returns (turn: Turn)
      requires Valid() && clock <= now && i < |users| && users[i].at == r && !users[i].granted
      modifies this`users, this`clock, this`connections, this`cooldowns, r.slots, r.quota
      ensures Valid() && clock == now
      ensures turn == if cancelled then Abandoned
                      else if old(r.slots.active) < SLOTS_MAX && old(r.quota.until) <= now then Granted else Waiting
      ensures turn.Granted? ==> users == Promoted(old(users), i) && (r.scope in barred ==> barred[r.scope] <= now)
      ensures turn.Abandoned? ==> users == Without(old(users), i)
      ensures turn.Waiting? ==> users == old(users)
    {
      clock := now;
      assert At(users[i].at);
      if cancelled {
        Leave(i, r, false, now);
        return Abandoned;
      }
      if r.slots.active < SLOTS_MAX && r.quota.until <= now {
        Grant(i, r.slots);
        return Granted;
      }
      return Waiting;
    }

    method UncountSlots(slots: Slots, granted: bool, ghost at: Reservation, ghost less: seq<User>)
      requires CountedFor(users, None) && At(at) && at.slots == slots && OneMore(less, users, at, granted)
      requires CooledFor(users) && Barring()
      modifies slots
      ensures CountedFor(less, Some(at.connection)) && CooledFor(users) && Barring()
    {
      if granted {
        slots.active := slots.active - 1;
      }
      slots.refs := slots.refs - 1;
    }

    method UncountQuota(quota: Quota, ghost at: Reservation, ghost less: seq<User>, ghost granted: bool)
      requires CooledFor(users) && Barring() && At(at) && at.quota == quota && OneMore(less, users, at, granted)
      requires CountedFor(less, Some(at.connection))
      modifies quota`refs
      ensures CooledFor(less) && Barring() && CountedFor(less, Some(at.connection))
    {
      quota.refs := quota.refs - 1;
    }

    lemma StillAnchored(i: nat)
      requires Anchored() && i < |users|
      ensures forall k :: 0 <= k < |Without(users, i)| ==> At(Without(users, i)[k].at)
    {
      forall k | 0 <= k < |Without(users, i)| ensures At(Without(users, i)[k].at) {
        assert At(users[if k < i then k else k + 1].at);
      }
    }

    /** The caller is gone; its two entries are still there. */
    method Deregister(ghost i: nat, r: Reservation, granted: bool)
      requires Valid() && i < |users| && users[i].at == r && users[i].granted == granted
      modifies this`users, r.slots, r.quota`refs
      ensures users == Without(old(users), i) && At(r) && r.slots in slotted && r.quota in quotas
      ensures CountedFor(users, Some(r.connection)) && CooledFor(users) && Barring() && Anchored() && Sized()
    {
      assert At(users[i].at);
      LeftIsOneMore(users, i);
      UncountSlots(r.slots, granted, r, Without(users, i));
      UncountQuota(r.quota, r, Without(users, i), granted);
      Strike(i);
    }

    method DropConnection(connection: Id)
      requires CountedFor(users, Some(connection)) && Anchored() && Sized() && connection in connections && connections[connection].refs == 0
      modifies this`connections
      ensures CountedFor(users, None) && Anchored() && Sized()
    {
      Nobody(users, connection, "");
      SmallerMap(connections, connection);
      connections := connections - {connection};
    }

    /** The last part of every acquisition, granted or not: entries nobody uses go, unless a cooldown still runs. */
    method Leave(ghost i: nat, r: Reservation, granted: bool, now: nat)
      requires Valid() && clock == now && i < |users| && users[i].at == r && users[i].granted == granted
      modifies this`users, this`connections, this`cooldowns, r.slots, r.quota`refs
      ensures Valid() && users == Without(old(users), i)
      ensures r.scope in cooldowns <==> (exists k :: 0 <= k < |users| && users[k].at.scope == r.scope) || r.quota.until > now
    {
      Deregister(i, r, granted);
      DropUnused(r, now);
    }

    /** Drops a scope's entry if nobody uses it and no postponement runs. */
    method DropQuota(r: Reservation, now: nat)
      requires clock == now && r.scope in cooldowns && cooldowns[r.scope] == r.quota
      requires CooledFor(users) && Barring() && Anchored() && Sized()
      modifies this`cooldowns
      ensures CooledFor(users) && Barring() && Anchored() && Sized()
      ensures r.scope in cooldowns <==> (exists k :: 0 <= k < |users| && users[k].at.scope == r.scope) || r.quota.until > now
    {
      Nobody(users, 0, r.scope);
      assert Cools(r.quota, r.scope, users);
      if r.quota.refs == 0 && r.quota.until <= now {
        DropCooldown(r.scope);
      }
    }

    method DropUnused(r: Reservation, now: nat)
      requires clock == now && At(r) && CountedFor(users, Some(r.connection)) && CooledFor(users) && Barring() && Anchored() && Sized()
      modifies this`connections, this`cooldowns
      ensures Valid()
      ensures r.scope in cooldowns <==> (exists k :: 0 <= k < |users| && users[k].at.scope == r.scope) || r.quota.until > now
    {
      DropQuota(r, now);
      if r.slots.refs == 0 {
        DropConnection(r.connection);
      }
    }

    /** Gives a granted slot back; a second call does nothing. */
    method Release(ghost i: nat, r: Reservation, now: nat, released: bool)
      requires Valid() && clock <= now
      requires !released ==> i < |users| && users[i].at == r && users[i].granted
      modifies this`users, this`clock, this`connections, this`cooldowns, r.slots, r.quota
      ensures Valid()
      ensures users == if released then old(users) else Without(old(users), i)
      ensures !released ==> (r.scope in cooldowns <==> (exists k :: 0 <= k < |users| && users[k].at.scope == r.scope) || r.quota.until > now)
    {
      if released {
        return;
      }
      clock := now;
      Leave(i, r, true, now);
    }

    lemma UsedHasEntry(scope: string)
      requires Anchored()
      ensures (exists k :: 0 <= k < |users| && users[k].at.scope == scope) ==> scope in cooldowns
    {
      if exists k :: 0 <= k < |users| && users[k].at.scope == scope {
        var k :| 0 <= k < |users| && users[k].at.scope == scope;
        assert At(users[k].at);
      }
    }

    /**
     Holds a scope back until `now + delay`. It takes effect exactly when the scope has an entry, which
     it has as long as any call of the scope waits or holds a slot.
     */
    method Postpone(scope: string, now: nat, delay: nat)
      requires Valid() && clock <= now
      modifies this`barred, this`clock, quotas
      ensures Valid() && clock == now && users == old(users)
      ensures scope in cooldowns ==> scope in barred && barred[scope] >= now + delay
      ensures scope !in cooldowns ==> barred == old(barred)
      ensures forall q :: q in old(quotas) ==>
                q.until == if scope in cooldowns && q == cooldowns[scope] && old(q.until) < now + delay then now + delay else old(q.until)
      ensures forall s :: s in old(barred) ==> s in barred && barred[s] >= old(barred)[s]
      ensures (exists k :: 0 <= k < |users| && users[k].at.scope == scope) ==> scope in cooldowns
    {
      UsedHasEntry(scope);
      clock := now;
      if scope !in cooldowns {
        return;
      }
      Raise(cooldowns[scope], scope, now + delay);
    }

    method Raise(quota: Quota, scope: string, until: nat)
      requires Valid() && scope in cooldowns && cooldowns[scope] == quota && clock <= until
      modifies this`barred, quota`until
      ensures Valid() && scope in barred && barred[scope] >= until
      ensures quota.until == if old(quota.until) < until then until else old(quota.until)
      ensures forall s :: s in old(barred) ==> s in barred && barred[s] >= old(barred)[s]
    {
      if until > quota.until {
        Lengthen(quota, until);
      }
      Bar(scope, until);
    }

    ghost method Bar(scope: string, until: nat)
      requires Valid() && scope in cooldowns && cooldowns[scope].until >= until
      modifies this`barred
      ensures Valid() && scope in barred && barred[scope] >= until
      ensures forall s :: s in old(barred) ==> s in barred && barred[s] >= old(barred)[s]
    {
      var bar := if scope in barred && barred[scope] > until then barred[scope] else until;
      barred := barred[scope := bar];
    }

    /** A later end keeps every bar. */
    method Lengthen(quota: Quota, until: nat)
      requires Valid() && quota.until <= until
      modifies quota`until
      ensures Valid() && quota.until == until
    {
      quota.until := until;
    }
  }

  lemma SmallerMap<K, V>(m: map<K, V>, k: K)
    requires k in m
    ensures |m - {k}| == |m| - 1
  {
    assert (m - {k}).Keys == m.Keys - {k};
  }

  lemma LargerMap<K, V>(m: map<K, V>, k: K, v: V)
    requires k !in m
    ensures |m[k := v]| == |m| + 1
  {
    assert m[k := v].Keys == m.Keys + {k};
  }
}
