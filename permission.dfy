/** The permission engine (PermissionServiceImpl): three gates that return or throw,
    reading only the user, the folder record and the membership table. */
module Permission {
  import opened Common
  import opened Entities

  /** The access policy of the four-space scheme, stated declaratively. */
  predicate MayAccess(folder: Folder, u: User, perm: Perm, members: Members) {
    || IsPlatformAdmin(u)
    || (folder.space == Some(PLATFORM_PUBLIC) && perm == Read)
    || (folder.space == Some(ORGANIZATION_PUBLIC)
        && RoleInOrg(members, u.id, folder.ownerOrganizationId).Some?
        && (perm == Read || RoleInOrg(members, u.id, folder.ownerOrganizationId) == Some(ORG_ADMIN)))
    || ((folder.space == Some(USER_PUBLIC) || folder.space == Some(USER_PRIVATE))
        && folder.ownerUserId == Some(u.id))
  }

  /** checkFolderPermission. A null space makes the Java switch throw a NullPointerException,
      and so does a personal folder without an owner. */
  function CheckFolderPermission(folder: Folder, user: Option<User>, perm: Perm, members: Members): (r: Outcome)
    ensures user.None? ==> r == Fail(NotLogin)
    ensures user.Some? ==> (r == Pass <==> MayAccess(folder, user.value, perm, members))
    ensures r.Fail? && user.Some? && folder.space.Some? && IsCurrentSpace(folder.space.value) ==>
              r.code == NoAuth || r.code == NullPointer
    ensures r.Fail? && user.Some? && folder.space.Some? && !IsCurrentSpace(folder.space.value) ==>
              r.code == SystemError
  {
    if user.None? then Fail(NotLogin)
    else if IsPlatformAdmin(user.value) then Pass
    else match folder.space
      case None => Fail(NullPointer)
      case Some(space) =>
        if space == PLATFORM_PUBLIC then
          if perm == Write then Fail(NoAuth) else Pass
        else if space == ORGANIZATION_PUBLIC then
          var role := RoleInOrg(members, user.value.id, folder.ownerOrganizationId);
          if role.None? then Fail(NoAuth)
          else if perm == Write && role.value != ORG_ADMIN then Fail(NoAuth)
          else Pass
        else if space == USER_PUBLIC || space == USER_PRIVATE then
          if folder.ownerUserId.None? then Fail(NullPointer)
          else if folder.ownerUserId.value != user.value.id then Fail(NoAuth)
          else Pass
        else Fail(SystemError)
  }

  /** checkNodePermission: node name -> image (by storage path) -> folder -> folder gate. */
  function CheckNodePermission(t: Tables, nodeName: string, user: Option<User>, perm: Perm): (r: Outcome)
    ensures user.None? ==> r == Fail(NotLogin)
    ensures user.Some? && IsPlatformAdmin(user.value) ==> r == Pass
    ensures user.Some? && !IsPlatformAdmin(user.value) && ImageByPath(t, nodeName).None? ==> r == Fail(NotFound)
    ensures user.Some? && !IsPlatformAdmin(user.value) && ImageByPath(t, nodeName).Some? &&
            ImageByPath(t, nodeName).value.folderId !in t.folders ==>
              r == Fail(NotFound)
  {
    if user.None? then Fail(NotLogin)
    else if IsPlatformAdmin(user.value) then Pass
    else match ImageByPath(t, nodeName)
      case None => Fail(NotFound)
      case Some(image) =>
        if image.folderId !in t.folders then Fail(NotFound)
        else CheckFolderPermission(t.folders[image.folderId], user, perm, t.members)
  }

  /** checkOrganizationAdmin */
  function CheckOrganizationAdmin(orgId: Option<Id>, user: Option<User>, members: Members): (r: Outcome)
    ensures user.None? ==> r == Fail(NotLogin)
    ensures user.Some? ==> (r == Pass <==> IsPlatformAdmin(user.value) || RoleInOrg(members, user.value.id, orgId) == Some(ORG_ADMIN))
    ensures r.Fail? ==> r.code == NotLogin || r.code == NoAuth
  {
    if user.None? then Fail(NotLogin)
    else if IsPlatformAdmin(user.value) then Pass
    else if RoleInOrg(members, user.value.id, orgId) != Some(ORG_ADMIN) then Fail(NoAuth)
    else Pass
  }

  // ---- The truth table of the folder gate, row by row ----

  lemma PlatformPublicRow(folder: Folder, u: User, members: Members)
    requires folder.space == Some(PLATFORM_PUBLIC) && !IsPlatformAdmin(u)
    ensures CheckFolderPermission(folder, Some(u), Read, members) == Pass
    ensures CheckFolderPermission(folder, Some(u), Write, members) == Fail(NoAuth)
  {
  }

  lemma OrganizationPublicRows(folder: Folder, u: User, members: Members)
    requires folder.space == Some(ORGANIZATION_PUBLIC) && !IsPlatformAdmin(u)
    ensures RoleInOrg(members, u.id, folder.ownerOrganizationId).None? ==>
              CheckFolderPermission(folder, Some(u), Read, members) == Fail(NoAuth)
              && CheckFolderPermission(folder, Some(u), Write, members) == Fail(NoAuth)
    ensures RoleInOrg(members, u.id, folder.ownerOrganizationId).Some?
            && RoleInOrg(members, u.id, folder.ownerOrganizationId) != Some(ORG_ADMIN) ==>
              CheckFolderPermission(folder, Some(u), Read, members) == Pass
              && CheckFolderPermission(folder, Some(u), Write, members) == Fail(NoAuth)
    ensures RoleInOrg(members, u.id, folder.ownerOrganizationId) == Some(ORG_ADMIN) ==>
              CheckFolderPermission(folder, Some(u), Read, members) == Pass
              && CheckFolderPermission(folder, Some(u), Write, members) == Pass
  {
  }

  /** In both personal spaces only the owner gets in, whatever the permission asked;
      "user_public" grants nobody else READ. */
  lemma PersonalSpaceRows(folder: Folder, u: User, perm: Perm, members: Members)
    requires folder.space == Some(USER_PUBLIC) || folder.space == Some(USER_PRIVATE)
    requires !IsPlatformAdmin(u) && folder.ownerUserId.Some?
    ensures CheckFolderPermission(folder, Some(u), perm, members) == Pass <==> folder.ownerUserId == Some(u.id)
    ensures folder.ownerUserId != Some(u.id) ==> CheckFolderPermission(folder, Some(u), perm, members) == Fail(NoAuth)
    ensures CheckFolderPermission(folder, Some(u), Read, members) == CheckFolderPermission(folder, Some(u), Write, members)
  {
  }

  lemma UnknownSpaceRow(folder: Folder, u: User, perm: Perm, members: Members)
    requires folder.space.Some? && !IsCurrentSpace(folder.space.value) && !IsPlatformAdmin(u)
    ensures CheckFolderPermission(folder, Some(u), perm, members) == Fail(SystemError)
  {
  }

  /** The platform admin passes all three gates, for every space and even for a node
      that does not exist: no lookup is made. */
  lemma AdminPassesEveryGate(t: Tables, folder: Folder, nodeName: string, orgId: Option<Id>, u: User, perm: Perm)
    requires IsPlatformAdmin(u)
    ensures CheckFolderPermission(folder, Some(u), perm, t.members) == Pass
    ensures CheckNodePermission(t, nodeName, Some(u), perm) == Pass
    ensures CheckOrganizationAdmin(orgId, Some(u), t.members) == Pass
  {
  }

  /** A missing login fails every gate with NOT_LOGIN before anything else is looked at. */
  lemma NullUserFailsEveryGate(t: Tables, folder: Folder, nodeName: string, orgId: Option<Id>, perm: Perm)
    ensures CheckFolderPermission(folder, None, perm, t.members) == Fail(NotLogin)
    ensures CheckNodePermission(t, nodeName, None, perm) == Fail(NotLogin)
    ensures CheckOrganizationAdmin(orgId, None, t.members) == Fail(NotLogin)
  {
  }

  /** The node gate fails closed, and otherwise is exactly the folder gate of the image's folder. */
  lemma NodeGateDelegates(t: Tables, nodeName: string, u: User, perm: Perm)
    requires Consistent(t) && !IsPlatformAdmin(u)
    ensures (forall k | k in t.images :: t.images[k].storagePath != nodeName) ==>
              CheckNodePermission(t, nodeName, Some(u), perm) == Fail(NotFound)
    ensures forall k | k in t.images && t.images[k].storagePath == nodeName ::
              CheckNodePermission(t, nodeName, Some(u), perm) ==
                (if t.images[k].folderId in t.folders
                 then CheckFolderPermission(t.folders[t.images[k].folderId], Some(u), perm, t.members)
                 else Fail(NotFound))
  {
    forall k | k in t.images && t.images[k].storagePath == nodeName
      ensures CheckNodePermission(t, nodeName, Some(u), perm) ==
                (if t.images[k].folderId in t.folders
                 then CheckFolderPermission(t.folders[t.images[k].folderId], Some(u), perm, t.members)
                 else Fail(NotFound))
    {
      assert ImageByPath(t, nodeName) == Some(t.images[k]);
    }
  }

  /** WRITE implies READ in every gate: whoever may change a folder or node may read it. */
  lemma WriteImpliesRead(t: Tables, folder: Folder, nodeName: string, u: User)
    ensures CheckFolderPermission(folder, Some(u), Write, t.members) == Pass ==>
              CheckFolderPermission(folder, Some(u), Read, t.members) == Pass
    ensures CheckNodePermission(t, nodeName, Some(u), Write) == Pass ==>
              CheckNodePermission(t, nodeName, Some(u), Read) == Pass
  {
  }
}
