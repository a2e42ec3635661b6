/**
 The workspace rows as the source updates them: one row of settings and policy version, and the
 membership, grant and invitation rows below it. Every method runs under the workspace row lock and
 is proved to commit what the function of the same name in module Membership says.
 */
module Workspaces {
  import opened Membership

  class WorkspaceRows {
    var policy: int
    var members: map<User, Member>
    var grants: map<(Connection, User), set<Class>>
    var invitations: map<Digest, Invitation>
    var settings: Settings
    var disabled: set<User>

    function Snapshot(): Workspace
      reads this
    {
      Workspace(policy, members, grants, invitations, settings, disabled)
    }

    /** A new workspace belongs to its creator. */
    constructor (creator: User, settings: Settings, disabled: set<User>)
      requires creator !in disabled
      ensures Snapshot() == Create(creator, settings, disabled) && Inv(Snapshot())
    {
      policy, members, grants, invitations := 1, map[creator := Member(Owner, 1)], map[], map[];
      this.settings, this.disabled := settings, disabled;
      new;
      assert creator in EnabledOwners(Snapshot());
    }

    method ChangeMemberRow(actor: User, target: User, role: Role, version: int, known: bool) returns (o: Outcome)
      modifies this`policy, this`members, this`grants
      ensures (Snapshot(), o) == ChangeMember(old(Snapshot()), actor, target, role, version, known)
      ensures old(Inv(Snapshot())) ==> Inv(Snapshot())
    {
      ghost var before := Snapshot();
      ApplyKeepsIfInv(before, Membership_(actor, target, role, version, known));
      if version < 0 || (!role.NoRole? && !Allows(role, Viewer)) {
        return ErrInvalid;
      }
      o := LockAuthority(Snapshot(), actor);
      if !o.Done? {
        return;
      }
      var current, previous := members[actor], MemberOf(Snapshot(), target);
      if (!role.NoRole? && !CanAssign(current.role, role)) || (!previous.role.NoRole? && !CanAssign(current.role, previous.role)) {
        return ErrDenied;
      }
      if previous.version != version || (previous.version == 0 && role.NoRole?) {
        return ErrConflict;
      }
      if previous.role.Owner? && !role.Owner? {
        var owners := CountOwners();
        if owners <= 1 {
          return ErrConflict;
        }
      }
      if version == 0 {
        if !known || target in disabled {
          return ErrNotFound;
        }
        if target in members {
          return ErrStore;
        }
      }
      policy := policy + 1;
      if role.NoRole? {
        members := members - {target};
        grants := map g | g in grants && g.1 != target :: grants[g];
      } else {
        members := members[target := Member(role, policy)];
      }
    }

    /** The count the source asks for before the last owner may step down. */
    method CountOwners() returns (n: nat)
      ensures n == |EnabledOwners(Snapshot())|
    {
      n := 0;
      var rest := members.Keys;
      ghost var counted: set<User> := {};
      while rest != {}
        invariant rest <= members.Keys && n == |counted|
        invariant counted == set u | u in EnabledOwners(Snapshot()) && u !in rest
        decreases |rest|
      {
        var u :| u in rest;
        rest := rest - {u};
        if u !in disabled && members[u].role.Owner? {
          n := n + 1;
          counted := counted + {u};
        }
      }
      assert counted == EnabledOwners(Snapshot());
    }

    method TransferOwnership(actor: User, target: User, actorVersion: int, targetVersion: int, demote: bool) returns (o: Outcome)
      modifies this`policy, this`members
      ensures (Snapshot(), o) == Transfer(old(Snapshot()), actor, target, actorVersion, targetVersion, demote)
      ensures old(Inv(Snapshot())) ==> Inv(Snapshot())
    {
      ApplyKeepsIfInv(Snapshot(), Ownership(actor, target, actorVersion, targetVersion, demote));
      if actor == target || actorVersion < 1 || targetVersion < 1 {
        return ErrInvalid;
      }
      o := LockAuthority(Snapshot(), actor);
      if !o.Done? {
        return;
      }
      if !members[actor].role.Owner? {
        return ErrDenied;
      }
      if !IsMember(Snapshot(), target) {
        return ErrNotFound;
      }
      if members[actor].version != actorVersion || members[target].version != targetVersion {
        return ErrConflict;
      }
      policy := policy + 1;
      members := members[target := Member(Owner, policy)];
      if demote {
        members := members[actor := Member(Admin, policy)];
      }
    }

    method IssueInvitationRow(actor: User, digest: Digest, subject: User, role: Role, now: int) returns (o: Outcome)
      modifies this`invitations
      ensures (Snapshot(), o) == IssueInvitation(old(Snapshot()), actor, digest, subject, role, now)
      ensures old(Inv(Snapshot())) ==> Inv(Snapshot())
    {
      ApplyKeepsIfInv(Snapshot(), Invite(actor, digest, subject, role, now));
      if !Allows(role, Viewer) {
        return ErrInvalid;
      }
      o := LockAuthority(Snapshot(), actor);
      if !o.Done? {
        return;
      }
      if !CanAssign(members[actor].role, role) {
        return ErrDenied;
      }
      var live := Unexpired(invitations, now);
      if |live| >= INVITATIONS_MAX {
        return ErrLimit;
      }
      if digest in live {
        return ErrStore;
      }
      invitations := live;
      invitations := invitations[digest := Invitation(actor, members[actor].version, subject, role, now + INVITATION_LIFETIME)];
    }

    method RedeemInvitationRow(digest: Digest, user: User, now: int) returns (o: Outcome)
      modifies this`policy, this`members, this`invitations
      ensures (Snapshot(), o) == RedeemInvitation(old(Snapshot()), digest, user, now)
      ensures old(Inv(Snapshot())) ==> Inv(Snapshot())
    {
      ApplyKeepsIfInv(Snapshot(), Redeem(digest, user, now));
      if digest !in invitations || invitations[digest].subject != user || invitations[digest].expires <= now {
        return ErrDenied;
      }
      var invitation := invitations[digest];
      o := LockAuthority(Snapshot(), invitation.inviter);
      if !o.Done? {
        return;
      }
      if members[invitation.inviter].version != invitation.inviterVersion || !CanAssign(members[invitation.inviter].role, invitation.role) {
        return ErrDenied;
      }
      if user in disabled {
        return ErrDenied;
      }
      if user in members {
        return ErrConflict;
      }
      invitations := invitations - {digest};
      policy := policy + 1;
      members := members[user := Member(invitation.role, policy)];
    }

    method SetGrantRow(actor: User, connection: Connection, exists_: bool, target: User, classes: set<Class>) returns (o: Outcome)
      modifies this`policy, this`grants
      ensures (Snapshot(), o) == SetGrant(old(Snapshot()), actor, connection, exists_, target, classes)
      ensures old(Inv(Snapshot())) ==> Inv(Snapshot())
    {
      ApplyKeepsIfInv(Snapshot(), Grant(actor, connection, exists_, target, classes));
      if classes != {} && Read !in classes {
        return ErrInvalid;
      }
      o := LockAuthority(Snapshot(), actor);
      if !o.Done? {
        return;
      }
      if !exists_ || !IsMember(Snapshot(), target) {
        return ErrNotFound;
      }
      var current, member := members[actor], members[target];
      if !CanAssign(current.role, member.role) {
        return ErrDenied;
      }
      var rest := classes;
      while rest != {}
        invariant rest <= classes && forall c :: c in classes && c !in rest ==> WithinCeiling(member.role, c)
        decreases |rest|
      {
        var c :| c in rest;
        if !WithinCeiling(member.role, c) {
          return ErrDenied;
        }
        rest := rest - {c};
      }
      if current.role.Admin? && !(classes <= Granted(Snapshot(), connection, actor)) {
        return ErrDenied;
      }
      grants := grants[(connection, target) := classes];
      policy := policy + 1;
    }

    method ChangeSettingsRow(actor: User, expected: int, wanted: Settings) returns (o: Outcome)
      modifies this`policy, this`settings
      ensures (Snapshot(), o) == ChangeSettings(old(Snapshot()), actor, expected, wanted)
      ensures old(Inv(Snapshot())) ==> Inv(Snapshot())
    {
      ApplyKeepsIfInv(Snapshot(), Policy(actor, expected, wanted));
      o := LockAuthority(Snapshot(), actor);
      if !o.Done? {
        return;
      }
      if !members[actor].role.Owner? {
        return ErrDenied;
      }
      if !ValidName(wanted.name) || wanted.queueLimit < 1 || wanted.queueLimit > QUEUE_MAX
         || wanted.retention < RETENTION_MIN || wanted.retention > RETENTION_MAX {
        return ErrInvalid;
      }
      if expected != policy {
        return ErrConflict;
      }
      if wanted != settings {
        settings := wanted;
        policy := policy + 1;
      }
    }
  }

  lemma ApplyKeepsIfInv(w: Workspace, c: Change)
    ensures Inv(w) ==> Inv(Apply(w, c))
  {
    if Inv(w) {
      ApplyKeeps(w, c);
    }
  }
}
