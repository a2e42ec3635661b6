/**
 What every change of a workspace's authority achieves, in terms of its rows: exactly when it succeeds, what it
 leaves behind, and what each refusal means.
 */
module MembershipEffects {
  import opened Membership

  // ---- Authority, in terms of rows ----

  /** The row of an enabled user. */
  predicate Present(w: Workspace, user: User) {
    user in w.members && user !in w.disabled
  }

  predicate Manages(w: Workspace, actor: User) {
    Present(w, actor) && (w.members[actor].role.Admin? || w.members[actor].role.Owner?)
  }

  predicate Ranked(role: Role) {
    role.Viewer? || role.Operator? || role.Admin? || role.Owner?
  }

  /** An owner gives any role, an admin the two lowest. */
  predicate MayGive(w: Workspace, actor: User, role: Role)
    requires actor in w.members
  {
    Ranked(role) && (w.members[actor].role.Owner? || role.Viewer? || role.Operator?)
  }

  predicate OnlyOwner(w: Workspace, user: User) {
    EnabledOwners(w) == {user}
  }

  /** Everything but members, grants and the policy version is as it was, and the version is the next one. */
  predicate Revised(w: Workspace, w': Workspace) {
    && w'.policy == w.policy + 1 && w'.settings == w.settings && w'.disabled == w.disabled
  }

  predicate SameRowBut(w: Workspace, w': Workspace, user: User) {
    && w'.members.Keys - {user} == w.members.Keys - {user}
    && forall u :: u in w.members && u != user ==> u in w'.members && w'.members[u] == w.members[u]
  }

  lemma AuthorityLocked(w: Workspace, actor: User)
    ensures LockAuthority(w, actor) ==
            if Manages(w, actor) then Outcome.Done else if Present(w, actor) then ErrDenied else ErrNotFound
  {
  }

  lemma AssignsInRows(w: Workspace, actor: User, role: Role)
    requires Manages(w, actor)
    ensures CanAssign(w.members[actor].role, role) <==> MayGive(w, actor, role)
  {
  }

  lemma LastOwner(w: Workspace, user: User)
    requires user in EnabledOwners(w)
    ensures |EnabledOwners(w)| <= 1 <==> OnlyOwner(w, user)
  {
    var rest := EnabledOwners(w) - {user};
    assert EnabledOwners(w) == rest + {user};
    assert |EnabledOwners(w)| == |rest| + 1;
    if rest != {} {
      var u :| u in rest;
      assert u in EnabledOwners(w) && u != user;
    }
  }

  // ---- Changing a membership ----

  /** The version names the target's row as it is, or no row at all. */
  predicate NamesRow(w: Workspace, target: User, version: int) {
    if Present(w, target) then w.members[target].version == version else version == 0
  }

  predicate ChangeMeant(w: Workspace, actor: User, target: User, role: Role, version: int, known: bool) {
    && Manages(w, actor) && version >= 0
    && (role.NoRole? || MayGive(w, actor, role))
    && (Present(w, target) ==> MayGive(w, actor, w.members[target].role))
    && NamesRow(w, target, version)
    && (if Present(w, target) then !(OnlyOwner(w, target) && !role.Owner?) else !role.NoRole? && known && target !in w.disabled)
  }

  /** A membership change gives exactly the role asked for, or takes row and grants away, and touches nobody else. */
  lemma ChangesMember(w: Workspace, actor: User, target: User, role: Role, version: int, known: bool)
    requires Inv(w)
    ensures var (w', o) := ChangeMember(w, actor, target, role, version, known);
      && (o.Done? <==> ChangeMeant(w, actor, target, role, version, known))
      && (!o.Done? ==> w' == w)
      && (o.Done? ==>
            && Revised(w, w') && w'.invitations == w.invitations && SameRowBut(w, w', target)
            && (if role.NoRole? then target !in w'.members else target in w'.members && w'.members[target] == Member(role, w.policy + 1))
            && (forall c, u :: u != target || !role.NoRole? ==> Granted(w', c, u) == Granted(w, c, u))
            && (role.NoRole? ==> forall c :: Granted(w', c, target) == {}))
  {
    AuthorityLocked(w, actor);
    if Manages(w, actor) {
      AssignsInRows(w, actor, role);
      if Present(w, target) {
        AssignsInRows(w, actor, w.members[target].role);
        if w.members[target].role.Owner? {
          LastOwner(w, target);
        }
      }
    }
  }

  /** What a refused membership change says. */
  lemma ChangeRefused(w: Workspace, actor: User, target: User, role: Role, version: int, known: bool)
    requires Inv(w)
    ensures match ChangeMember(w, actor, target, role, version, known).1
            case Done => true
            case ErrInvalid => version < 0 || role.Unrecognised?
            case ErrNotFound => !Present(w, actor) || (!Present(w, target) && (!known || target in w.disabled))
            case ErrDenied => Present(w, actor) && (!Manages(w, actor) || (!role.NoRole? && !MayGive(w, actor, role))
                                                    || (Present(w, target) && !MayGive(w, actor, w.members[target].role)))
            case ErrConflict => !NamesRow(w, target, version) || (!Present(w, target) && role.NoRole?)
                                || (OnlyOwner(w, target) && !role.Owner?)
            case _ => false
    ensures (version < 0 || role.Unrecognised?) ==> ChangeMember(w, actor, target, role, version, known).1 == ErrInvalid
  {
    AuthorityLocked(w, actor);
    if Manages(w, actor) {
      AssignsInRows(w, actor, role);
      if Present(w, target) {
        AssignsInRows(w, actor, w.members[target].role);
        if w.members[target].role.Owner? {
          LastOwner(w, target);
        }
      }
    }
  }

  // ---- Transferring ownership ----

  predicate TransferMeant(w: Workspace, actor: User, target: User, actorVersion: int, targetVersion: int) {
    && actor != target && Present(w, actor) && w.members[actor].role.Owner? && Present(w, target)
    && w.members[actor].version == actorVersion && w.members[target].version == targetVersion
  }

  /** A transfer makes the target an owner and, if asked to, its actor an admin; it touches nobody else and no grant. */
  lemma TransfersOwnership(w: Workspace, actor: User, target: User, actorVersion: int, targetVersion: int, demote: bool)
    requires Inv(w)
    ensures var (w', o) := Transfer(w, actor, target, actorVersion, targetVersion, demote);
      && (o.Done? <==> TransferMeant(w, actor, target, actorVersion, targetVersion))
      && (!o.Done? ==> w' == w)
      && (o.Done? ==>
            && Revised(w, w') && w'.invitations == w.invitations && w'.grants == w.grants
            && w'.members.Keys == w.members.Keys && w'.members[target] == Member(Owner, w.policy + 1)
            && w'.members[actor] == (if demote then Member(Admin, w.policy + 1) else w.members[actor])
            && forall u :: u in w.members && u != actor && u != target ==> w'.members[u] == w.members[u])
  {
    AuthorityLocked(w, actor);
  }

  lemma TransferRefused(w: Workspace, actor: User, target: User, actorVersion: int, targetVersion: int, demote: bool)
    ensures match Transfer(w, actor, target, actorVersion, targetVersion, demote).1
            case Done => true
            case ErrInvalid => actor == target || actorVersion < 1 || targetVersion < 1
            case ErrNotFound => !Present(w, actor) || !Present(w, target)
            case ErrDenied => Present(w, actor) && !w.members[actor].role.Owner?
            case ErrConflict => Present(w, actor) && Present(w, target)
                                && (w.members[actor].version != actorVersion || w.members[target].version != targetVersion)
            case _ => false
  {
    AuthorityLocked(w, actor);
  }

  // ---- Invitations ----

  /** An invitation that has not run out. */
  predicate Pending(w: Workspace, d: Digest, now: int) {
    d in w.invitations && w.invitations[d].expires > now
  }

  /** Issuing adds exactly the invitation asked for, for one day, and drops exactly the expired ones. */
  lemma IssuesInvitation(w: Workspace, actor: User, digest: Digest, subject: User, role: Role, now: int)
    ensures var (w', o) := IssueInvitation(w, actor, digest, subject, role, now);
      && (o.Done? <==> Manages(w, actor) && MayGive(w, actor, role) && !Pending(w, digest, now)
                       && |set d | d in w.invitations && Pending(w, d, now)| < 100)
      && (!o.Done? ==> w' == w)
      && (o.Done? ==>
            && w' == w.(invitations := w'.invitations)
            && (forall d :: d in w'.invitations <==> d == digest || Pending(w, d, now))
            && (forall d :: d in w'.invitations && d != digest ==> w'.invitations[d] == w.invitations[d])
            && w'.invitations[digest] == Invitation(actor, w.members[actor].version, subject, role, now + 24 * 60 * 60))
  {
    AuthorityLocked(w, actor);
    if Manages(w, actor) {
      AssignsInRows(w, actor, role);
    }
    var live := Unexpired(w.invitations, now);
    assert live.Keys == set d | d in w.invitations && Pending(w, d, now);
    assert |live| == |live.Keys|;
  }

  lemma IssueRefused(w: Workspace, actor: User, digest: Digest, subject: User, role: Role, now: int)
    ensures match IssueInvitation(w, actor, digest, subject, role, now).1
            case Done => true
            case ErrInvalid => !Ranked(role)
            case ErrNotFound => !Present(w, actor)
            case ErrDenied => Present(w, actor) && (!Manages(w, actor) || !MayGive(w, actor, role))
            case ErrLimit => |set d | d in w.invitations && Pending(w, d, now)| >= 100
            case ErrStore => Pending(w, digest, now)
            case _ => false
  {
    AuthorityLocked(w, actor);
    if Manages(w, actor) {
      AssignsInRows(w, actor, role);
    }
    var live := Unexpired(w.invitations, now);
    assert live.Keys == set d | d in w.invitations && Pending(w, d, now);
    assert |live| == |live.Keys|;
  }

  /** The inviter still manages the workspace under the row it invited with, and may still give the role. */
  predicate InviterStands(w: Workspace, i: Invitation) {
    Manages(w, i.inviter) && w.members[i.inviter].version == i.inviterVersion && MayGive(w, i.inviter, i.role)
  }

  /** Redeeming adds exactly the invited user with the invited role and uses up exactly that invitation. */
  lemma RedeemsInvitation(w: Workspace, digest: Digest, user: User, now: int)
    ensures var (w', o) := RedeemInvitation(w, digest, user, now);
      && (o.Done? <==> Pending(w, digest, now) && w.invitations[digest].subject == user && InviterStands(w, w.invitations[digest])
                       && user !in w.members && user !in w.disabled)
      && (!o.Done? ==> w' == w)
      && (o.Done? ==>
            && Revised(w, w') && w'.grants == w.grants && w'.invitations == w.invitations - {digest}
            && w'.members == w.members[user := Member(w.invitations[digest].role, w.policy + 1)])
  {
    if digest in w.invitations {
      AuthorityLocked(w, w.invitations[digest].inviter);
      if Manages(w, w.invitations[digest].inviter) {
        AssignsInRows(w, w.invitations[digest].inviter, w.invitations[digest].role);
      }
    }
  }

  lemma RedeemRefused(w: Workspace, digest: Digest, user: User, now: int)
    ensures match RedeemInvitation(w, digest, user, now).1
            case Done => true
            case ErrConflict => Pending(w, digest, now) && w.invitations[digest].subject == user && user in w.members
            case ErrNotFound => Pending(w, digest, now) && w.invitations[digest].subject == user && !Present(w, w.invitations[digest].inviter)
            case ErrDenied => !Pending(w, digest, now) || w.invitations[digest].subject != user
                              || !InviterStands(w, w.invitations[digest]) || user in w.disabled
            case _ => false
  {
    if digest in w.invitations {
      AuthorityLocked(w, w.invitations[digest].inviter);
      if Manages(w, w.invitations[digest].inviter) {
        AssignsInRows(w, w.invitations[digest].inviter, w.invitations[digest].role);
      }
    }
  }

  // ---- Grants ----

  /** The classes a role can carry: everybody reads, operators do the rest. */
  predicate Carries(role: Role, wanted: Class) {
    Ranked(role) && (wanted.Read? || !role.Viewer?)
  }

  predicate GrantMeant(w: Workspace, actor: User, connection: Connection, exists_: bool, target: User, classes: set<Class>) {
    && Manages(w, actor) && exists_ && Present(w, target) && MayGive(w, actor, w.members[target].role)
    && (classes != {} ==> Read in classes) && (forall c :: c in classes ==> Carries(w.members[target].role, c))
    && (w.members[actor].role.Admin? ==> classes <= Granted(w, connection, actor))
  }

  /** A grant replaces exactly one member's classes on one connection. */
  lemma SetsGrant(w: Workspace, actor: User, connection: Connection, exists_: bool, target: User, classes: set<Class>)
    ensures var (w', o) := SetGrant(w, actor, connection, exists_, target, classes);
      && (o.Done? <==> GrantMeant(w, actor, connection, exists_, target, classes))
      && (!o.Done? ==> w' == w)
      && (o.Done? ==>
            && Revised(w, w') && w'.members == w.members && w'.invitations == w.invitations
            && Granted(w', connection, target) == classes
            && forall c, u :: c != connection || u != target ==> Granted(w', c, u) == Granted(w, c, u))
  {
    AuthorityLocked(w, actor);
    if Manages(w, actor) && Present(w, target) {
      AssignsInRows(w, actor, w.members[target].role);
      forall c | c in classes && Ranked(w.members[target].role)
        ensures WithinCeiling(w.members[target].role, c) <==> Carries(w.members[target].role, c)
      {
      }
    }
  }

  lemma GrantRefused(w: Workspace, actor: User, connection: Connection, exists_: bool, target: User, classes: set<Class>)
    ensures match SetGrant(w, actor, connection, exists_, target, classes).1
            case Done => true
            case ErrInvalid => classes != {} && Read !in classes
            case ErrNotFound => !Present(w, actor) || !exists_ || !Present(w, target)
            case ErrDenied => Present(w, actor) && (Manages(w, actor) && Present(w, target) ==>
                                || !MayGive(w, actor, w.members[target].role)
                                || (exists c :: c in classes && !Carries(w.members[target].role, c))
                                || (w.members[actor].role.Admin? && !(classes <= Granted(w, connection, actor))))
            case _ => false
  {
    AuthorityLocked(w, actor);
    if Manages(w, actor) && Present(w, target) {
      AssignsInRows(w, actor, w.members[target].role);
    }
  }

  // ---- Settings ----

  predicate ProperSettings(s: Settings) {
    1 <= |s.name| <= 100 && 1 <= s.queueLimit <= 1000 && 180 <= s.retention <= 3650
  }

  /** Settings are written exactly by an owner who names the current policy version; writing what is there changes nothing. */
  lemma ChangesSettings(w: Workspace, actor: User, expected: int, settings: Settings)
    ensures var (w', o) := ChangeSettings(w, actor, expected, settings);
      && (o.Done? <==> Present(w, actor) && w.members[actor].role.Owner? && ProperSettings(settings) && expected == w.policy)
      && w' == (if o.Done? && settings != w.settings then w.(policy := w.policy + 1, settings := settings) else w)
  {
    AuthorityLocked(w, actor);
  }

  lemma SettingsRefused(w: Workspace, actor: User, expected: int, settings: Settings)
    ensures match ChangeSettings(w, actor, expected, settings).1
            case Done => true
            case ErrNotFound => !Present(w, actor)
            case ErrDenied => Present(w, actor) && !w.members[actor].role.Owner?
            case ErrInvalid => !ProperSettings(settings)
            case ErrConflict => expected != w.policy
            case _ => false
  {
    AuthorityLocked(w, actor);
  }

  // ---- Creation ----

  lemma CreatesOwned(creator: User, settings: Settings, disabled: set<User>)
    ensures var w := Create(creator, settings, disabled);
      && w.policy == 1 && w.members == map[creator := Member(Owner, 1)] && w.invitations == map[] && w.settings == settings
      && forall c, u :: Granted(w, c, u) == {}
  {
  }
}
