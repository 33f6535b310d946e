/** The relational records (Folders, Images, Annotations, Organizations, OrganizationMembers, users)
    and the lookups the services make on them. Soft-deleted rows are simply absent. */
module Entities {
  import opened Common

  datatype Folder = Folder(
    id: Id,
    name: string,
    space: Option<string>,
    ownerUserId: Option<Id>,
    ownerOrganizationId: Option<Id>,
    mergeState: Option<string>,
    targetOrganizationId: Option<Id>)

  /** An Images row. storagePath is also the name of the image's graph node. */
  datatype Image = Image(
    id: Id,
    folderId: Id,
    originalFilename: string,
    storagePath: string,
    uploaderId: Id)

  datatype Annotation = Annotation(
    id: Id,
    imageId: Id,
    jsonContent: JsonDoc,
    lastEditorId: Id)

  datatype Organization = Organization(
    id: Id,
    name: string,
    ownerId: Id,
    description: Option<string>)

  /** OrganizationMembers rows, keyed by (organizationId, userId), holding roleInOrg. */
  type Members = map<(Id, Id), string>

  /** The relational tables. pathIndex is the unique index behind findByStoragePath. */
  datatype Tables = Tables(
    folders: map<Id, Folder>,
    images: map<Id, Image>,
    pathIndex: map<string, Id>,
    annotations: map<Id, Annotation>,
    organizations: map<Id, Organization>,
    members: Members,
    users: map<Id, User>)

  function EmptyTables(): Tables {
    Tables(map[], map[], map[], map[], map[], map[], map[])
  }

  /** Every row is stored under its own id. */
  ghost predicate KeysAreIds(t: Tables) {
    && (forall k | k in t.folders :: t.folders[k].id == k)
    && (forall k | k in t.images :: t.images[k].id == k)
    && (forall k | k in t.annotations :: t.annotations[k].id == k)
    && (forall k | k in t.organizations :: t.organizations[k].id == k)
    && (forall k | k in t.users :: t.users[k].id == k)
  }

  /** The storage-path index is exactly the inverse of Images.storagePath. */
  ghost predicate PathIndexExact(t: Tables) {
    && (forall p | p in t.pathIndex :: t.pathIndex[p] in t.images && t.images[t.pathIndex[p]].storagePath == p)
    && (forall k | k in t.images :: t.images[k].storagePath in t.pathIndex && t.pathIndex[t.images[k].storagePath] == k)
  }

  /** At most one annotation per image. */
  ghost predicate OneAnnotationPerImage(t: Tables) {
    forall a, b | a in t.annotations && b in t.annotations && t.annotations[a].imageId == t.annotations[b].imageId :: a == b
  }

  /** User accounts are unique. */
  ghost predicate AccountsUnique(t: Tables) {
    forall a, b | a in t.users && b in t.users && t.users[a].userAccount == t.users[b].userAccount :: a == b
  }

  ghost predicate Consistent(t: Tables) {
    KeysAreIds(t) && PathIndexExact(t) && OneAnnotationPerImage(t) && AccountsUnique(t)
  }

  /** Every id in use, and every image id an annotation refers to, is below n; ids from n
      upward are fresh. */
  ghost predicate IdsBelow(t: Tables, n: Id) {
    && (forall k | k in t.folders :: k < n)
    && (forall k | k in t.images :: k < n)
    && (forall k | k in t.annotations :: k < n && t.annotations[k].imageId < n)
    && (forall k | k in t.organizations :: k < n)
    && (forall k | k in t.users :: k < n)
  }

  /** imageMapper.findByStoragePath */
  function ImageByPath(t: Tables, path: string): (r: Option<Image>)
    ensures PathIndexExact(t) ==> (r.Some? <==> exists k | k in t.images :: t.images[k].storagePath == path)
    ensures r.Some? ==> r.value in t.images.Values
    ensures PathIndexExact(t) && r.Some? ==> r.value.storagePath == path
    ensures Consistent(t) && r.Some? ==> r.value.id in t.images && t.images[r.value.id] == r.value
  {
    if path in t.pathIndex && t.pathIndex[path] in t.images then Some(t.images[t.pathIndex[path]]) else None
  }

  /** memberMapper.findUserRoleInOrg: a null organization id matches no row. */
  function RoleInOrg(members: Members, userId: Id, orgId: Option<Id>): (r: Option<string>)
    ensures r.Some? <==> orgId.Some? && (orgId.value, userId) in members
    ensures r.Some? ==> r.value == members[(orgId.value, userId)]
  {
    if orgId.Some? && (orgId.value, userId) in members then Some(members[(orgId.value, userId)]) else None
  }

  /** memberMapper.findUserOrganizationIds */
  function OrganizationsOf(members: Members, userId: Id): (r: set<Id>)
    ensures forall o :: o in r <==> (o, userId) in members
  {
    set k | k in members && k.1 == userId :: k.0
  }

  /** The ids of the images stored in a folder (imageService.list with eq("folderId", ...)). */
  function ImagesIn(t: Tables, folderId: Id): (r: set<Id>)
    ensures forall k :: k in r <==> k in t.images && t.images[k].folderId == folderId
  {
    set k | k in t.images && t.images[k].folderId == folderId
  }

  /** The annotation rows of one image (AnnotationMapper with eq("imageId", ...)). */
  function AnnotationsOf(t: Tables, imageId: Id): (r: set<Id>)
    ensures forall k :: k in r <==> k in t.annotations && t.annotations[k].imageId == imageId
  {
    set k | k in t.annotations && t.annotations[k].imageId == imageId
  }
}
