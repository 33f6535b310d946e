/** The organization service (OrganizationServiceImpl): organizations, their membership rows
    (organization, user) -> role, and the guards on creating, editing, dissolving, inviting,
    removing and listing. */
module Organizations {
  import opened Common
  import opened Entities
  import opened Store
  import opened Permission
  import opened Users

  /** The organizations with this name (count(eq("name", ...))). */
  function OrganizationsNamed(t: Tables, name: string): (r: set<Id>)
    ensures forall k :: k in r <==> k in t.organizations && t.organizations[k].name == name
  {
    set k | k in t.organizations && t.organizations[k].name == name
  }

  /** The membership rows of one organization. */
  function RowsOf(members: Members, orgId: Id): (r: set<(Id, Id)>)
    ensures forall k :: k in r <==> k in members && k.0 == orgId
  {
    set k | k in members && k.0 == orgId
  }

  /** createOrganization: a blank or taken name is PARAMS_ERROR; otherwise the organization is
      saved with the caller as owner, and the caller becomes its administrator. */
  method CreateOrganization(db: Database, name: Option<string>, description: Option<string>, user: User)
    returns (r: Result<Organization>)
    requires db.Valid()
    modifies db
    ensures db.Valid() && old(db.nextId) <= db.nextId
    ensures r.Err? ==> r == Err(ParamsError) && db.Snapshot() == old(db.Snapshot())
    ensures r.Ok? <==> !IsBlankOrNull(name) && OrganizationsNamed(old(db.Snapshot()), name.value) == {}
    ensures r.Ok? ==>
              && r.value == Organization(r.value.id, name.value, user.id, description)
              && r.value.id !in old(db.organizations)
              && db.Snapshot() == old(db.Snapshot()).(organizations := old(db.organizations)[r.value.id := r.value],
                                                      members := old(db.members)[(r.value.id, user.id) := ORG_ADMIN])
              && CheckOrganizationAdmin(Some(r.value.id), Some(user), db.members) == Pass
  {
    if IsBlankOrNull(name) {
      return Err(ParamsError);
    }
    if OrganizationsNamed(db.Snapshot(), name.value) != {} {
      return Err(ParamsError);
    }
    var id := db.FreshId();
    var organization := Organization(id, name.value, user.id, description);
    db.PutOrganization(organization);
    db.PutMember(id, user.id, ORG_ADMIN);
    r := Ok(organization);
  }

  /** The organization-administrator test of update, invite and remove: the caller's role in the
      organization is "admin". */
  predicate IsOrgAdmin(members: Members, userId: Id, orgId: Id) {
    RoleInOrg(members, userId, Some(orgId)) == Some(ORG_ADMIN)
  }

  /** The row updateById leaves: copyProperties copies the request's fields, nulls included,
      and updateById skips the null ones, so a null name or description keeps its old value. */
  function Edited(o: Organization, name: Option<string>, description: Option<string>): Organization {
    o.(name := if name.Some? then name.value else o.name,
       description := if description.Some? then description else o.description)
  }

  /** The name and description of the OrganizationVO updateOrganization returns. It is built
      from the loaded entity after copyProperties, so it carries the request's values, nulls
      included, and not what updateById stored. */
  datatype EditedView = EditedView(name: Option<string>, description: Option<string>)

  /** The returned view agrees with the stored row on every field the request does not leave
      null, and shows null where the stored row kept its old value. */
  lemma EditedViewAgainstRow(o: Organization, name: Option<string>, description: Option<string>)
    ensures name.Some? ==> EditedView(name, description).name == Some(Edited(o, name, description).name)
    ensures description.Some? ==> EditedView(name, description).description == Edited(o, name, description).description
    ensures name.None? ==> EditedView(name, description).name.None? && Edited(o, name, description).name == o.name
    ensures description.None? ==> EditedView(name, description).description.None? && Edited(o, name, description).description == o.description
  {
  }

  /** updateOrganization: allowed to an organization administrator or a platform admin; no check
      on the new name. The stored row keeps the old value of a null field; the returned view
      carries the request's values as given. */
  method UpdateOrganization(db: Database, orgId: Id, name: Option<string>, description: Option<string>, user: User)
    returns (r: Result<EditedView>)
    requires db.Valid()
    modifies db
    ensures db.Valid() && db.nextId == old(db.nextId)
    ensures orgId !in old(db.organizations) ==> r == Err(NotFound)
    ensures r.Err? ==> (r.code == NotFound || r.code == NoAuth) && db.Snapshot() == old(db.Snapshot())
    ensures r.Ok? <==> orgId in old(db.organizations) && CheckOrganizationAdmin(Some(orgId), Some(user), old(db.members)) == Pass
    ensures r.Ok? ==>
              && r.value == EditedView(name, description)
              && db.Snapshot() == old(db.Snapshot()).(organizations := old(db.organizations)[orgId := Edited(old(db.organizations)[orgId], name, description)])
  {
    if orgId !in db.organizations {
      return Err(NotFound);
    }
    var organization := db.organizations[orgId];
    if !IsOrgAdmin(db.members, user.id, orgId) && !IsAdmin(Some(user)) {
      return Err(NoAuth);
    }
    var edited := Edited(organization, name, description);
    db.PutOrganization(edited);
    r := Ok(EditedView(name, description));
  }

  /** deleteOrganization: only the owner or a platform admin; every membership row of the
      organization goes, then the organization. Its folders are left as they are. */
  method DeleteOrganization(db: Database, orgId: Id, user: User) returns (r: Outcome)
    requires db.Valid()
    modifies db
    ensures db.Valid() && db.nextId == old(db.nextId)
    ensures orgId !in old(db.organizations) ==> r == Fail(NotFound)
    ensures r.Fail? ==> (r.code == NotFound || r.code == NoAuth) && db.Snapshot() == old(db.Snapshot())
    ensures r == Pass <==>
              orgId in old(db.organizations) && (old(db.organizations)[orgId].ownerId == user.id || IsPlatformAdmin(user))
    ensures r == Pass ==>
              db.Snapshot() == old(db.Snapshot()).(organizations := old(db.organizations) - {orgId},
                                                   members := old(db.members) - RowsOf(old(db.members), orgId))
    ensures r == Pass ==> RowsOf(db.members, orgId) == {} && db.folders == old(db.folders)
  {
    if orgId !in db.organizations {
      return Fail(NotFound);
    }
    var organization := db.organizations[orgId];
    if organization.ownerId != user.id && !IsAdmin(Some(user)) {
      return Fail(NoAuth);
    }
    db.RemoveMembers(RowsOf(db.members, orgId));
    db.RemoveOrganization(orgId);
    r := Pass;
  }

  /** Once an organization is dissolved, its "organization_public" folders are closed to every
      non-admin: no membership row of it is left. */
  lemma DissolvedOrganizationFoldersClosed(folder: Folder, u: User, perm: Perm, members: Members, orgId: Id)
    requires RowsOf(members, orgId) == {}
    requires folder.space == Some(ORGANIZATION_PUBLIC) && folder.ownerOrganizationId == Some(orgId)
    requires !IsPlatformAdmin(u)
    ensures CheckFolderPermission(folder, Some(u), perm, members) == Fail(NoAuth)
  {
  }

  /** inviteMember: only an organization administrator (a platform admin gets no bypass); the
      invitee is looked up by account and must not be a member yet; the role is the request's. */
  method InviteMember(db: Database, orgId: Id, inviteeAccount: Option<string>, role: string, user: User)
    returns (r: Outcome)
    requires db.Valid()
    modifies db
    ensures db.Valid() && db.nextId == old(db.nextId)
    ensures r.Fail? ==> db.Snapshot() == old(db.Snapshot())
    ensures orgId !in old(db.organizations) ==> r == Fail(NotFound)
    ensures orgId in old(db.organizations) && !IsOrgAdmin(old(db.members), user.id, orgId) ==> r == Fail(NoAuth)
    ensures orgId in old(db.organizations) && IsOrgAdmin(old(db.members), user.id, orgId) &&
            (inviteeAccount.None? || AccountsNamed(old(db.users), inviteeAccount.value) == {}) ==>
              r == Fail(NotFound)
    ensures forall k | orgId in old(db.organizations) && IsOrgAdmin(old(db.members), user.id, orgId) &&
                       inviteeAccount.Some? && k in AccountsNamed(old(db.users), inviteeAccount.value) ::
              if (orgId, k) in old(db.members) then r == Fail(OperationError)
              else r == Pass && db.Snapshot() == old(db.Snapshot()).(members := old(db.members)[(orgId, k) := role])
  {
    if orgId !in db.organizations {
      return Fail(NotFound);
    }
    if !IsOrgAdmin(db.members, user.id, orgId) {
      return Fail(NoAuth);
    }
    if inviteeAccount.None? {
      return Fail(NotFound);
    }
    var found := AccountsNamed(db.users, inviteeAccount.value);
    if found == {} {
      return Fail(NotFound);
    }
    var invitee :| invitee in found;
    assert forall j | j in found :: j == invitee;
    if RoleInOrg(db.members, invitee, Some(orgId)).Some? {
      return Fail(OperationError);
    }
    db.PutMember(orgId, invitee, role);
    r := Pass;
  }

  // ---- removeMember and its owner guard ----

  /** A Java object as Long.equals sees its argument. */
  datatype Boxed = BoxedLong(n: Id) | BoxedString(s: string)

  /** Long.equals(Object): true only for a Long of the same value. */
  function LongEquals(x: Id, other: Boxed): bool {
    other.BoxedLong? && other.n == x
  }

  /** The guards of removeMember as written: the owner test compares the Long ownerId with the
      request's String memberUserId, which Long.equals never accepts. */
  function RemoveMemberGuardAsWritten(t: Tables, orgId: Id, memberUserId: Id, user: User): (r: Outcome)
    ensures r.Fail? ==> r.code == NotFound || r.code == NoAuth
  {
    if orgId !in t.organizations then Fail(NotFound)
    else if !IsOrgAdmin(t.members, user.id, orgId) then Fail(NoAuth)
    else if LongEquals(t.organizations[orgId].ownerId, BoxedString(IdText(memberUserId))) then Fail(OperationError)
    else Pass
  }

  /** As written, an organization administrator may remove the owner: the owner guard never fires. */
  lemma OwnerRemovableAsWritten(t: Tables, orgId: Id, user: User)
    requires orgId in t.organizations && IsOrgAdmin(t.members, user.id, orgId)
    ensures RemoveMemberGuardAsWritten(t, orgId, t.organizations[orgId].ownerId, user) == Pass
  {
  }

  /** The guards of removeMember as intended: the owner's id is compared as an id. */
  function RemoveMemberGuard(t: Tables, orgId: Id, memberUserId: Id, user: User): (r: Outcome)
    ensures r == Pass <==>
              orgId in t.organizations && IsOrgAdmin(t.members, user.id, orgId) && memberUserId != t.organizations[orgId].ownerId
    ensures r.Fail? ==> r.code == NotFound || r.code == NoAuth || r.code == OperationError
  {
    if orgId !in t.organizations then Fail(NotFound)
    else if !IsOrgAdmin(t.members, user.id, orgId) then Fail(NoAuth)
    else if t.organizations[orgId].ownerId == memberUserId then Fail(OperationError)
    else Pass
  }

  /** The intended guard protects the owner from every caller, and otherwise agrees with the
      guard as written. */
  lemma OwnerProtected(t: Tables, orgId: Id, memberUserId: Id, user: User)
    requires orgId in t.organizations
    ensures RemoveMemberGuard(t, orgId, t.organizations[orgId].ownerId, user).Fail?
    ensures memberUserId != t.organizations[orgId].ownerId ==>
              RemoveMemberGuard(t, orgId, memberUserId, user) == RemoveMemberGuardAsWritten(t, orgId, memberUserId, user)
  {
  }

  /** removeMember, with the owner guard as intended: only the (organization, member) row goes,
      and the owner's row never does. */
  method RemoveMember(db: Database, orgId: Id, memberUserId: Id, user: User) returns (r: Outcome)
    requires db.Valid()
    modifies db
    ensures db.Valid() && db.nextId == old(db.nextId)
    ensures r == RemoveMemberGuard(old(db.Snapshot()), orgId, memberUserId, user)
    ensures r.Fail? ==> db.Snapshot() == old(db.Snapshot())
    ensures r == Pass ==> db.Snapshot() == old(db.Snapshot()).(members := old(db.members) - {(orgId, memberUserId)})
    ensures orgId in old(db.organizations) ==>
              var owner := (orgId, old(db.organizations)[orgId].ownerId);
              owner in old(db.members) ==> owner in db.members && db.members[owner] == old(db.members)[owner]
  {
    r := RemoveMemberGuard(db.Snapshot(), orgId, memberUserId, user);
    if r.Fail? {
      return;
    }
    db.RemoveMembers({(orgId, memberUserId)});
  }

  /** The users listMembers returns, read as those with a membership row in the organization
      (the query findUsersInOrganization is not part of this model). */
  function MemberViews(t: Tables, orgId: Id): (r: set<UserView>)
    ensures Consistent(t) ==> forall v | v in r :: v.id in t.users && (orgId, v.id) in t.members
    ensures forall k | k in t.users && (orgId, k) in t.members :: GetUserVO(Some(t.users[k])).value in r
  {
    set k | k in t.users && (orgId, k) in t.members :: GetUserVO(Some(t.users[k])).value
  }

  /** listMembers: any member, whatever its role, or a platform admin. */
  function ListMembers(t: Tables, orgId: Id, user: User): (r: Result<set<UserView>>)
    ensures orgId !in t.organizations ==> r == Err(NotFound)
    ensures r.Err? ==> r.code == NotFound || r.code == NoAuth
    ensures r.Ok? <==> orgId in t.organizations && ((orgId, user.id) in t.members || IsPlatformAdmin(user))
    ensures r.Ok? ==> r.value == MemberViews(t, orgId)
  {
    if orgId !in t.organizations then Err(NotFound)
    else if RoleInOrg(t.members, user.id, Some(orgId)).None? && !IsAdmin(Some(user)) then Err(NoAuth)
    else Ok(MemberViews(t, orgId))
  }

  /** Whoever may list an organization's members may read its "organization_public" folders,
      and the other way round for non-admins as well. */
  lemma ListingMatchesReadAccess(t: Tables, folder: Folder, orgId: Id, u: User)
    requires orgId in t.organizations
    requires folder.space == Some(ORGANIZATION_PUBLIC) && folder.ownerOrganizationId == Some(orgId)
    ensures ListMembers(t, orgId, u).Ok? <==> CheckFolderPermission(folder, Some(u), Read, t.members) == Pass
  {
  }
}
