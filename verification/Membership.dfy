/**
 Workspace authority: members, grants, invitations and settings, each change made under the
 workspace row lock. One value stands for one workspace; every operation returns the new value
 and its outcome, and leaves the workspace as it was on any error (the transaction rolls back).
 */
module Membership {
  type User = nat
  type Connection = nat
  type Digest = nat

  /** A role as it arrives in a request: empty, not a role at all, or one of the four ranks. */
  datatype Role = NoRole | Unrecognised | Viewer | Operator | Admin | Owner

  datatype Class = Read | Refresh | Operate | HighImpact

  datatype Member = Member(role: Role, version: int)

  datatype Invitation = Invitation(inviter: User, inviterVersion: int, subject: User, role: Role, expires: int)

  datatype Settings = Settings(name: string, queueLimit: int, retention: int)

  /** `disabled` are the users whose account is disabled; no operation here changes it. */
  datatype Workspace = Workspace(
    policy: int,
    members: map<User, Member>,
    grants: map<(Connection, User), set<Class>>,
    invitations: map<Digest, Invitation>,
    settings: Settings,
    disabled: set<User>)

  datatype Outcome = Done | ErrInvalid | ErrDenied | ErrNotFound | ErrConflict | ErrStore | ErrLimit

  const RETENTION_MIN := 180
  const RETENTION_MAX := 3650
  const QUEUE_MAX := 1000
  const INVITATIONS_MAX := 100
  const INVITATION_LIFETIME := 24 * 60 * 60

  function Rank(role: Role): nat {
    match role
    case Viewer => 1
    case Operator => 2
    case Admin => 3
    case Owner => 4
    case _ => 0
  }

  predicate Allows(role: Role, minimum: Role) {
    Rank(minimum) > 0 && Rank(role) >= Rank(minimum)
  }

  predicate CanAssign(actor: Role, role: Role) {
    Allows(role, Viewer) && (actor.Owner? || (actor.Admin? && (role.Viewer? || role.Operator?)))
  }

  predicate WithinCeiling(role: Role, wanted: Class) {
    match wanted
    case Read => Allows(role, Viewer)
    case _ => Allows(role, Operator)
  }

  /** The membership row of an enabled user, or the zero row. */
  function MemberOf(w: Workspace, user: User): Member {
    if user in w.members && user !in w.disabled then w.members[user] else Member(NoRole, 0)
  }

  predicate IsMember(w: Workspace, user: User) {
    user in w.members && user !in w.disabled
  }

  /** Management authority: an enabled member of rank admin or higher. */
  function LockAuthority(w: Workspace, actor: User): Outcome {
    if !IsMember(w, actor) then ErrNotFound
    else if !Allows(w.members[actor].role, Admin) then ErrDenied
    else Done
  }

  function EnabledOwners(w: Workspace): set<User> {
    set u | u in w.members && u !in w.disabled && w.members[u].role.Owner?
  }

  /** Removing a membership row removes that user's grants with it. */
  function WithoutMember(w: Workspace, user: User): Workspace {
    w.(members := w.members - {user},
       grants := map g | g in w.grants && g.1 != user :: w.grants[g])
  }

  /** `known` says whether the target is an identity already admitted to some open workspace. */
  function ChangeMember(w: Workspace, actor: User, target: User, role: Role, version: int, known: bool): (Workspace, Outcome)
  {
    if version < 0 || (!role.NoRole? && !Allows(role, Viewer)) then (w, ErrInvalid)
    else if !LockAuthority(w, actor).Done? then (w, LockAuthority(w, actor))
    else
      var current, previous := w.members[actor], MemberOf(w, target);
      if (!CanAssign(current.role, role) && !role.NoRole?)
         || (!previous.role.NoRole? && !CanAssign(current.role, previous.role)) then (w, ErrDenied)
      else if previous.version != version || (previous.version == 0 && role.NoRole?) then (w, ErrConflict)
      else if previous.role.Owner? && !role.Owner? && |EnabledOwners(w)| <= 1 then (w, ErrConflict)
      else
        var revised := w.(policy := w.policy + 1);
        if version == 0 then
          if !known || target in w.disabled then (w, ErrNotFound)
          else if target in w.members then (w, ErrStore)
          else (revised.(members := w.members[target := Member(role, w.policy + 1)]), Done)
        else if role.NoRole? then (WithoutMember(revised, target), Done)
        else (revised.(members := w.members[target := Member(role, w.policy + 1)]), Done)
  }

  function Transfer(w: Workspace, actor: User, target: User, actorVersion: int, targetVersion: int, demote: bool): (Workspace, Outcome)
  {
    if actor == target || actorVersion < 1 || targetVersion < 1 then (w, ErrInvalid)
    else if !LockAuthority(w, actor).Done? then (w, LockAuthority(w, actor))
    else if !w.members[actor].role.Owner? then (w, ErrDenied)
    else if !IsMember(w, target) then (w, ErrNotFound)
    else if w.members[actor].version != actorVersion || w.members[target].version != targetVersion then (w, ErrConflict)
    else
      var promoted := w.members[target := Member(Owner, w.policy + 1)];
      var members := if demote then promoted[actor := Member(Admin, w.policy + 1)] else promoted;
      (w.(policy := w.policy + 1, members := members), Done)
  }

  function Unexpired(invitations: map<Digest, Invitation>, now: int): map<Digest, Invitation> {
    map d | d in invitations && invitations[d].expires > now :: invitations[d]
  }

  /** Issuing first drops every expired invitation of the workspace. */
  function IssueInvitation(w: Workspace, actor: User, digest: Digest, subject: User, role: Role, now: int): (Workspace, Outcome)
  {
    if !Allows(role, Viewer) then (w, ErrInvalid)
    else if !LockAuthority(w, actor).Done? then (w, LockAuthority(w, actor))
    else if !CanAssign(w.members[actor].role, role) then (w, ErrDenied)
    else
      var live := Unexpired(w.invitations, now);
      if |live| >= INVITATIONS_MAX then (w, ErrLimit)
      else if digest in live then (w, ErrStore)
      else
        var made := Invitation(actor, w.members[actor].version, subject, role, now + INVITATION_LIFETIME);
        (w.(invitations := live[digest := made]), Done)
  }

  function RedeemInvitation(w: Workspace, digest: Digest, user: User, now: int): (Workspace, Outcome)
  {
    if digest !in w.invitations || w.invitations[digest].subject != user || w.invitations[digest].expires <= now then (w, ErrDenied)
    else
      var invitation := w.invitations[digest];
      if !LockAuthority(w, invitation.inviter).Done? then (w, LockAuthority(w, invitation.inviter))
      else if w.members[invitation.inviter].version != invitation.inviterVersion
           || !CanAssign(w.members[invitation.inviter].role, invitation.role) then (w, ErrDenied)
      else if user in w.disabled then (w, ErrDenied)
      else if user in w.members then (w, ErrConflict)
      else
        (w.(policy := w.policy + 1,
            invitations := w.invitations - {digest},
            members := w.members[user := Member(invitation.role, w.policy + 1)]), Done)
  }

  function Granted(w: Workspace, connection: Connection, user: User): set<Class> {
    if (connection, user) in w.grants then w.grants[(connection, user)] else {}
  }

  /** `exists_` says whether the connection row exists in this workspace. */
  function SetGrant(w: Workspace, actor: User, connection: Connection, exists_: bool, target: User, classes: set<Class>): (Workspace, Outcome)
  {
    if classes != {} && Read !in classes then (w, ErrInvalid)
    else if !LockAuthority(w, actor).Done? then (w, LockAuthority(w, actor))
    else if !exists_ || !IsMember(w, target) then (w, ErrNotFound)
    else
      var current, member := w.members[actor], w.members[target];
      if !CanAssign(current.role, member.role)
         || (exists c | c in classes :: !WithinCeiling(member.role, c))
         || (current.role.Admin? && !(classes <= Granted(w, connection, actor))) then (w, ErrDenied)
      else (w.(policy := w.policy + 1, grants := w.grants[(connection, target) := classes]), Done)
  }

  predicate ValidName(name: string) {
    1 <= |name| <= 100
  }

  /** A settings write must name the current policy version; writing what is there changes nothing. */
  function ChangeSettings(w: Workspace, actor: User, expected: int, settings: Settings): (Workspace, Outcome)
  {
    if !LockAuthority(w, actor).Done? then (w, LockAuthority(w, actor))
    else if !w.members[actor].role.Owner? then (w, ErrDenied)
    else if !ValidName(settings.name) || settings.queueLimit < 1 || settings.queueLimit > QUEUE_MAX
            || settings.retention < RETENTION_MIN || settings.retention > RETENTION_MAX then (w, ErrInvalid)
    else if expected != w.policy then (w, ErrConflict)
    else if settings == w.settings then (w, Done)
    else (w.(policy := w.policy + 1, settings := settings), Done)
  }

  /** A workspace as it is created: its creator is the only member, and both versions are one. */
  function Create(creator: User, settings: Settings, disabled: set<User>): Workspace {
    Workspace(1, map[creator := Member(Owner, 1)], map[], map[], settings, disabled)
  }

  datatype Change =
    | Membership_(actor: User, target: User, role: Role, version: int, known: bool)
    | Ownership(actor: User, target: User, actorVersion: int, targetVersion: int, demote: bool)
    | Invite(actor: User, digest: Digest, subject: User, role: Role, now: int)
    | Redeem(digest: Digest, user: User, now: int)
    | Grant(actor: User, connection: Connection, exists_: bool, target: User, classes: set<Class>)
    | Policy(actor: User, expected: int, settings: Settings)

  function Attempt(w: Workspace, c: Change): (Workspace, Outcome) {
    match c
    case Membership_(actor, target, role, version, known) => ChangeMember(w, actor, target, role, version, known)
    case Ownership(actor, target, av, tv, demote) => Transfer(w, actor, target, av, tv, demote)
    case Invite(actor, digest, subject, role, now) => IssueInvitation(w, actor, digest, subject, role, now)
    case Redeem(digest, user, now) => RedeemInvitation(w, digest, user, now)
    case Grant(actor, connection, exists_, target, classes) => SetGrant(w, actor, connection, exists_, target, classes)
    case Policy(actor, expected, settings) => ChangeSettings(w, actor, expected, settings)
  }

  function Apply(w: Workspace, c: Change): Workspace {
    Attempt(w, c).0
  }

  function Run(w: Workspace, cs: seq<Change>): Workspace
    decreases |cs|
  {
    if cs == [] then w else Run(Apply(w, cs[0]), cs[1..])
  }

  // ---- Invariants of every run ----

  ghost predicate Inv(w: Workspace) {
    && w.policy >= 1
    && (forall u :: u in w.members ==> 1 <= w.members[u].version <= w.policy && Rank(w.members[u].role) > 0)
    && (forall g :: g in w.grants ==> g.1 in w.members)
    && (forall d :: d in w.invitations ==> w.invitations[d].inviterVersion <= w.policy)
    && EnabledOwners(w) != {}
  }

  /** What a reader of the workspace row, its members and its grants can see. */
  ghost predicate SameAuthority(w: Workspace, w': Workspace) {
    w.members == w'.members && w.grants == w'.grants && w.settings == w'.settings && w.disabled == w'.disabled
  }

  lemma OwnerSurvivesRemoval(w: Workspace, w': Workspace, target: User)
    requires |EnabledOwners(w)| > 1
    requires w'.disabled == w.disabled
    requires forall u :: u in w.members && u != target ==> u in w'.members && w'.members[u] == w.members[u]
    ensures EnabledOwners(w') != {}
  {
    var rest := EnabledOwners(w) - {target};
    assert EnabledOwners(w) <= rest + {target};
    if rest == {} {
      assert EnabledOwners(w) <= {target};
      SubsetSize(EnabledOwners(w), {target});
      assert false;
    }
    var u :| u in rest;
    assert u in EnabledOwners(w');
  }

  lemma SubsetSize<T>(a: set<T>, b: set<T>)
    requires a <= b
    ensures |a| <= |b|
  {
    if a != {} {
      var x :| x in a;
      SubsetSize(a - {x}, b - {x});
    }
  }

  lemma ChangeMemberKeeps(w: Workspace, actor: User, target: User, role: Role, version: int, known: bool)
    requires Inv(w)
    ensures Inv(ChangeMember(w, actor, target, role, version, known).0)
  {
    var (w', o) := ChangeMember(w, actor, target, role, version, known);
    if o.Done? {
      var previous := MemberOf(w, target);
      if previous.role.Owner? && !role.Owner? {
        OwnerSurvivesRemoval(w, w', target);
      } else {
        var u :| u in EnabledOwners(w);
        assert u in EnabledOwners(w');
      }
    }
  }

  lemma TransferKeeps(w: Workspace, actor: User, target: User, actorVersion: int, targetVersion: int, demote: bool)
    requires Inv(w)
    ensures Inv(Transfer(w, actor, target, actorVersion, targetVersion, demote).0)
  {
    var (w', o) := Transfer(w, actor, target, actorVersion, targetVersion, demote);
    if o.Done? {
      assert target in EnabledOwners(w');
    }
  }

  lemma OtherChangesKeep(w: Workspace, c: Change)
    requires Inv(w) && !c.Membership_? && !c.Ownership?
    ensures Inv(Apply(w, c))
  {
    var u :| u in EnabledOwners(w);
    assert u in EnabledOwners(Apply(w, c));
  }

  /** Every change keeps an enabled owner, and versions at most the policy version. */
  lemma ApplyKeeps(w: Workspace, c: Change)
    requires Inv(w)
    ensures Inv(Apply(w, c))
  {
    match c
    case Membership_(actor, target, role, version, known) => ChangeMemberKeeps(w, actor, target, role, version, known);
    case Ownership(actor, target, av, tv, demote) => TransferKeeps(w, actor, target, av, tv, demote);
    case _ => OtherChangesKeep(w, c);
  }

  lemma {:induction false} RunKeeps(w: Workspace, cs: seq<Change>)
    requires Inv(w)
    ensures Inv(Run(w, cs))
    decreases |cs|
  {
    if cs != [] {
      ApplyKeeps(w, cs[0]);
      RunKeeps(Apply(w, cs[0]), cs[1..]);
    }
  }

  /** From creation on, every workspace has an enabled owner, whatever is asked of it. */
  lemma OwnedForever(creator: User, settings: Settings, disabled: set<User>, cs: seq<Change>)
    requires creator !in disabled
    ensures Inv(Run(Create(creator, settings, disabled), cs))
    ensures EnabledOwners(Run(Create(creator, settings, disabled), cs)) != {}
  {
    var w := Create(creator, settings, disabled);
    assert creator in EnabledOwners(w);
    RunKeeps(w, cs);
  }

  // ---- The policy version counts authority changes ----

  /** One change either leaves all authority alone, or moves the policy version by exactly one. */
  lemma PolicyStep(w: Workspace, c: Change)
    ensures var w' := Apply(w, c);
            || (w'.policy == w.policy && SameAuthority(w, w'))
            || w'.policy == w.policy + 1
    ensures !Attempt(w, c).1.Done? ==> Apply(w, c) == w
  {
  }

  lemma {:induction false} PolicyGrows(w: Workspace, cs: seq<Change>)
    ensures Run(w, cs).policy >= w.policy
    decreases |cs|
  {
    if cs != [] {
      PolicyStep(w, cs[0]);
      PolicyGrows(Apply(w, cs[0]), cs[1..]);
    }
  }

  /** An unmoved policy version proves that nothing authoritative changed, at any point between. */
  lemma {:induction false} PolicyPins(w: Workspace, cs: seq<Change>, k: nat)
    requires Run(w, cs).policy == w.policy && k <= |cs|
    ensures SameAuthority(w, Run(w, cs[..k])) && Run(w, cs[..k]).policy == w.policy
    decreases |cs|
  {
    if k == 0 {
      assert cs[..k] == [];
    } else {
      PolicyStep(w, cs[0]);
      PolicyGrows(Apply(w, cs[0]), cs[1..]);
      PolicyPins(Apply(w, cs[0]), cs[1..], k - 1);
      assert cs[..k][1..] == cs[1..][..k - 1];
    }
  }

  // ---- Membership versions never repeat ----

  /** A row either stays, goes away, or takes the new policy version. */
  lemma RowStep(w: Workspace, c: Change, u: User)
    requires Inv(w)
    ensures var w' := Apply(w, c);
            || (u in w.members && u in w'.members && w'.members[u] == w.members[u])
            || u !in w'.members
            || (u in w'.members && w'.members[u].version == w'.policy == w.policy + 1)
  {
  }

  /** Once a row is gone or newer than `mark`, it is never again at or below `mark`. */
  lemma {:induction false} NewerForever(w: Workspace, cs: seq<Change>, u: User, mark: int)
    requires Inv(w) && mark <= w.policy
    requires u in w.members ==> w.members[u].version > mark
    ensures var w' := Run(w, cs); u in w'.members ==> w'.members[u].version > mark
    decreases |cs|
  {
    if cs != [] {
      RowStep(w, cs[0], u);
      PolicyStep(w, cs[0]);
      ApplyKeeps(w, cs[0]);
      NewerForever(Apply(w, cs[0]), cs[1..], u, mark);
    }
  }

  /**
   No stale version is ever current again, even across removal and re-adding: if a user's row
   carries a version the workspace had already reached, the row was never touched since.
   */
  lemma {:induction false} VersionPins(w: Workspace, cs: seq<Change>, u: User, k: nat)
    requires Inv(w) && k <= |cs|
    requires u in Run(w, cs).members && Run(w, cs).members[u].version <= w.policy
    ensures u in w.members && u in Run(w, cs[..k]).members
    ensures Run(w, cs[..k]).members[u] == w.members[u]
    decreases |cs|
  {
    if cs == [] {
      assert cs[..k] == [];
    } else {
      var w1 := Apply(w, cs[0]);
      RowStep(w, cs[0], u);
      PolicyStep(w, cs[0]);
      ApplyKeeps(w, cs[0]);
      if u !in w1.members || w1.members[u].version > w.policy {
        NewerForever(w1, cs[1..], u, w.policy);
        assert false;
      }
      VersionPins(w1, cs[1..], u, if k == 0 then 0 else k - 1);
      if k == 0 {
        assert cs[..k] == [];
      } else {
        assert cs[..k][1..] == cs[1..][..k - 1];
      }
      assert cs[1..][..0] == [];
    }
  }

  /** A change that names version v succeeds only if the row it read at v is still that same row. */
  lemma ChangeIsFenced(w: Workspace, cs: seq<Change>, actor: User, target: User, role: Role, known: bool, k: nat)
    requires Inv(w) && target in w.members && k <= |cs|
    requires var version := w.members[target].version;
             ChangeMember(Run(w, cs), actor, target, role, version, known).1.Done?
    ensures target in Run(w, cs[..k]).members && Run(w, cs[..k]).members[target] == w.members[target]
  {
    VersionPins(w, cs, target, k);
  }

  lemma RedeemNeedsInviter(w: Workspace, digest: Digest, user: User, now: int)
    requires RedeemInvitation(w, digest, user, now).1.Done?
    ensures digest in w.invitations
    ensures var i := w.invitations[digest];
            i.inviter in w.members && w.members[i.inviter].version == i.inviterVersion && CanAssign(w.members[i.inviter].role, i.role)
  {
  }

  /** An invitation is redeemed only while its inviter's row is the one that issued it. */
  lemma RedeemIsFenced(w: Workspace, cs: seq<Change>, digest: Digest, user: User, now: int, k: nat)
    requires Inv(w) && k <= |cs| && digest in w.invitations
    requires var w' := Run(w, cs);
             && digest in w'.invitations && w'.invitations[digest] == w.invitations[digest]
             && RedeemInvitation(w', digest, user, now).1.Done?
    ensures var inviter := w.invitations[digest].inviter;
            && inviter in w.members && inviter in Run(w, cs[..k]).members
            && Run(w, cs[..k]).members[inviter] == w.members[inviter]
            && CanAssign(w.members[inviter].role, w.invitations[digest].role)
  {
    var w' := Run(w, cs);
    var inviter := w.invitations[digest].inviter;
    RedeemNeedsInviter(w', digest, user, now);
    VersionPins(w, cs, inviter, |cs|);
    assert cs[..|cs|] == cs;
    VersionPins(w, cs, inviter, k);
  }

  /** Without being issued again, an invitation that is gone stays gone. */
  lemma {:induction false} GoneStaysGone(w: Workspace, cs: seq<Change>, digest: Digest)
    requires digest !in w.invitations && forall c :: c in cs && c.Invite? ==> c.digest != digest
    ensures digest !in Run(w, cs).invitations
    decreases |cs|
  {
    if cs != [] {
      assert cs[0] in cs;
      GoneStaysGone(Apply(w, cs[0]), cs[1..], digest);
    }
  }

  /** An invitation works at most once: after any later changes nobody can redeem it again. Digests are drawn fresh. */
  lemma RedeemOnce(w: Workspace, digest: Digest, user: User, now: int, cs: seq<Change>, other: User, later: int)
    requires RedeemInvitation(w, digest, user, now).1.Done?
    requires forall c :: c in cs && c.Invite? ==> c.digest != digest
    ensures !RedeemInvitation(Run(RedeemInvitation(w, digest, user, now).0, cs), digest, other, later).1.Done?
  {
    GoneStaysGone(RedeemInvitation(w, digest, user, now).0, cs, digest);
  }

  /** A removed member who is added again starts without any grant. */
  lemma RejoinsWithoutGrants(w: Workspace, cs: seq<Change>, u: User, connection: Connection)
    requires Inv(w) && u !in Run(w, cs).members
    ensures Granted(Run(w, cs), connection, u) == {}
  {
    RunKeeps(w, cs);
  }

  /** An admin never raises anybody: what it can assign or delegate stays below its own rank and grants. */
  lemma AdminCannotEscalate(w: Workspace, c: Change, u: User)
    requires Inv(w) && (c.Membership_? || c.Grant?) && c.actor in w.members && w.members[c.actor].role.Admin?
    requires u in Apply(w, c).members && Attempt(w, c).1.Done?
    ensures Rank(Apply(w, c).members[u].role) <= (if u in w.members then
                if Rank(w.members[u].role) >= 2 then Rank(w.members[u].role) else 2 else 2)
    ensures u == c.actor ==> Apply(w, c).members[u] == w.members[u]
    ensures forall connection :: Granted(Apply(w, c), connection, u) <= Granted(w, connection, u) + Granted(w, connection, c.actor)
  {
  }
}
