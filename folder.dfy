/** The folder service (FolderServiceImpl): creation by space, cascading deletion, renaming,
    copying into a personal space, and the merge workflow NONE -> PENDING -> APPROVED | REJECTED
    that hands a personal folder, and the graph nodes of its images, to an organization.
    A @Transactional method that throws rolls the relational tables back (Database.Restore);
    graph writes persist. updateById writes only the non-null fields of the entity. */
module Folders {
  import opened Common
  import opened Entities
  import opened Store
  import opened Permission
  import opened Graph
  import opened Images
  import opened Users

  predicate IsPersonalSpace(space: string) {
    space == USER_PRIVATE || space == USER_PUBLIC
  }

  /** updateById skips null fields: assigning null leaves the stored column as it was. */
  function KeepIfNull<T>(stored: Option<T>, written: Option<T>): Option<T> {
    if written.Some? then written else stored
  }

  /** The storage paths of a folder's images, the names of their graph nodes. */
  function ImagePaths(t: Tables, folderId: Id): (r: set<string>)
    ensures forall k | k in t.images && t.images[k].folderId == folderId :: t.images[k].storagePath in r
  {
    set k | k in t.images && t.images[k].folderId == folderId :: t.images[k].storagePath
  }

  function PathsOf(images: seq<Image>): set<string> {
    set i | 0 <= i < |images| :: images[i].storagePath
  }

  /** imageMapper.selectList(eq("folderId", id)): every row of the folder once, in no
      particular order. */
  method SelectFolderImages(db: Database, folderId: Id) returns (images: seq<Image>)
    requires db.Valid()
    ensures forall i | 0 <= i < |images| ::
              images[i].id in db.images && db.images[images[i].id] == images[i] && images[i].folderId == folderId
    ensures |images| == 0 <==> ImagesIn(db.Snapshot(), folderId) == {}
    ensures PathsOf(images) == ImagePaths(db.Snapshot(), folderId)
  {
    var ids := Enumerate(ImagesIn(db.Snapshot(), folderId));
    var rows := db.images;
    images := seq(|ids|, i requires 0 <= i < |ids| => rows[ids[i]]);
    assert |ids| > 0 ==> ids[0] in ImagesIn(db.Snapshot(), folderId);
    forall p | p in ImagePaths(db.Snapshot(), folderId)
      ensures p in PathsOf(images)
    {
      var k :| k in rows && rows[k].folderId == folderId && rows[k].storagePath == p;
      assert k in ids;
      var i :| 0 <= i < |ids| && ids[i] == k;
      assert images[i].storagePath == p;
    }
  }

  // ---- createFolder ----

  /** `new Folder()`, the folder the platform_public branch hands to the folder gate: every
      field is null (the id is irrelevant to the gate). */
  function ProbeFolder(): Folder {
    Folder(0, "", None, None, None, None, None)
  }

  /** The checks of createFolder, in order: name and space not blank; then by space: nothing for
      a personal space, an organization id and the org-admin gate for "organization_public", the
      folder gate on the probe folder for "platform_public", PARAMS_ERROR for anything else. */
  function CreateFolderGuard(name: Option<string>, space: Option<string>, orgId: Option<Id>, user: User, members: Members)
    : (r: Outcome)
    ensures r == Pass <==>
              && !IsBlankOrNull(name) && !IsBlankOrNull(space)
              && (|| IsPersonalSpace(space.value)
                  || (space.value == ORGANIZATION_PUBLIC && orgId.Some?
                      && (IsPlatformAdmin(user) || RoleInOrg(members, user.id, orgId) == Some(ORG_ADMIN)))
                  || (space.value == PLATFORM_PUBLIC && IsPlatformAdmin(user)))
    ensures IsBlankOrNull(name) || IsBlankOrNull(space) ==> r == Fail(ParamsError)
    ensures !IsBlankOrNull(name) && space.Some? && !IsCurrentSpace(space.value) ==> r == Fail(ParamsError)
    ensures !IsBlankOrNull(name) && !IsBlankOrNull(space) && space.value == ORGANIZATION_PUBLIC && orgId.None? ==>
              r == Fail(ParamsError)
    ensures !IsBlankOrNull(name) && !IsBlankOrNull(space) && space.value == PLATFORM_PUBLIC && !IsPlatformAdmin(user) ==>
              r == Fail(NullPointer)
  {
    if IsBlankOrNull(name) || IsBlankOrNull(space) then Fail(ParamsError)
    else if IsPersonalSpace(space.value) then Pass
    else if space.value == ORGANIZATION_PUBLIC then
      if orgId.None? then Fail(ParamsError)
      else CheckOrganizationAdmin(orgId, Some(user), members)
    else if space.value == PLATFORM_PUBLIC then CheckFolderPermission(ProbeFolder(), Some(user), Write, members)
    else Fail(ParamsError)
  }

  /** The folder createFolder saves: owned by the creator in a personal space, by the given
      organization in "organization_public", by nobody in "platform_public". */
  function NewFolder(id: Id, name: string, space: string, orgId: Option<Id>, user: User): Folder {
    Folder(id, name, Some(space),
           if IsPersonalSpace(space) then Some(user.id) else None,
           if space == ORGANIZATION_PUBLIC then orgId else None,
           None, None)
  }

  /** Whoever may create a folder may then read and write it. */
  lemma CreatorMayUseFolder(id: Id, name: Option<string>, space: Option<string>, orgId: Option<Id>, user: User,
                            members: Members, perm: Perm)
    requires CreateFolderGuard(name, space, orgId, user, members) == Pass
    ensures CheckFolderPermission(NewFolder(id, name.value, space.value, orgId, user), Some(user), perm, members) == Pass
  {
  }

  /** createFolder */
  method CreateFolder(db: Database, name: Option<string>, space: Option<string>, orgId: Option<Id>, user: User)
    returns (r: Result<Folder>)
    requires db.Valid()
    modifies db
    ensures db.Valid() && old(db.nextId) <= db.nextId
    ensures CreateFolderGuard(name, space, orgId, user, old(db.members)).Fail? ==>
              r == Err(CreateFolderGuard(name, space, orgId, user, old(db.members)).code) && db.Snapshot() == old(db.Snapshot())
    ensures r.Ok? <==> CreateFolderGuard(name, space, orgId, user, old(db.members)) == Pass
    ensures r.Ok? ==>
              && r.value == NewFolder(r.value.id, name.value, space.value, orgId, user)
              && r.value.id !in old(db.folders)
              && db.Snapshot() == old(db.Snapshot()).(folders := old(db.folders)[r.value.id := r.value])
  {
    var guard := CreateFolderGuard(name, space, orgId, user, db.members);
    if guard.Fail? {
      return Err(guard.code);
    }
    var id := db.FreshId();
    var folder := NewFolder(id, name.value, space.value, orgId, user);
    db.PutFolder(folder);
    r := Ok(folder);
  }

  // ---- deleteFolder and updateFolder ----

  /** The storage paths of a folder's images are the paths of its image ids. */
  lemma FolderImagePaths(t: Tables, folderId: Id)
    ensures PathsOfIds(t, ImagesIn(t, folderId)) == ImagePaths(t, folderId)
  {
  }

  /** After the folder's images are deleted, the folder holds no image and no annotation of
      its former images is left. */
  lemma DeletedImagesLeaveNothing(t: Tables, folderId: Id)
    ensures ImagesIn(WithoutImages(t, ImagesIn(t, folderId)), folderId) == {}
    ensures forall a | a in WithoutImages(t, ImagesIn(t, folderId)).annotations ::
              WithoutImages(t, ImagesIn(t, folderId)).annotations[a].imageId !in ImagesIn(t, folderId)
  {
  }

  /** The image step of deleteFolder: when the folder holds images, they go as one batch,
      with their annotations and their graph nodes. */
  method DeleteFolderImages(db: Database, g: GraphStore, folderId: Id, user: User) returns (r: Outcome)
    requires db.Valid() && g.Valid()
    modifies db, g
    ensures db.Valid() && g.Valid() && db.nextId == old(db.nextId)
    ensures g.nodes.Keys <= old(g.nodes).Keys
    ensures r.Fail? ==> db.Snapshot() == old(db.Snapshot())
    ensures r == Pass ==>
              && db.Snapshot() == WithoutImages(old(db.Snapshot()), ImagesIn(old(db.Snapshot()), folderId))
              && g.nodes == old(g.nodes) - ImagePaths(old(db.Snapshot()), folderId)
              && g.rels == WithoutNodes(old(g.rels), ImagePaths(old(db.Snapshot()), folderId))
    ensures r == Pass && ImagesIn(old(db.Snapshot()), folderId) != {} ==> IsPlatformAdmin(user)
    ensures IsPlatformAdmin(user) ==> r == Pass
  {
    var images := ImagesIn(db.Snapshot(), folderId);
    FolderImagePaths(db.Snapshot(), folderId);
    if images == {} {
      WithoutNoImages(db.Snapshot());
      WithoutNoNodes(g.rels);
      return Pass;
    }
    var ids := Enumerate(images);
    assert Elements(ids) == images;
    r := DeleteImagesBatch(db, g, ids, user);
    assert exists k | k in ids :: k in old(db.images) by {
      assert ids[0] in images;
    }
  }

  /** deleteFolder: NOT_FOUND, then WRITE on the folder; the folder's images are deleted as one
      batch before the row itself goes. A failing batch rolls the tables back. */
  method DeleteFolder(db: Database, g: GraphStore, folderId: Id, user: User) returns (r: Outcome)
    requires db.Valid() && g.Valid()
    modifies db, g
    ensures db.Valid() && g.Valid() && db.nextId == old(db.nextId)
    ensures folderId !in old(db.folders) ==> r == Fail(NotFound)
    ensures folderId in old(db.folders) && CheckFolderPermission(old(db.folders)[folderId], Some(user), Write, old(db.members)).Fail? ==>
              r == CheckFolderPermission(old(db.folders)[folderId], Some(user), Write, old(db.members)) && g.nodes == old(g.nodes)
    ensures r.Fail? ==> db.Snapshot() == old(db.Snapshot())
    ensures r == Pass ==>
              && db.Snapshot() == WithoutImages(old(db.Snapshot()), ImagesIn(old(db.Snapshot()), folderId)).(folders := old(db.folders) - {folderId})
              && g.nodes == old(g.nodes) - ImagePaths(old(db.Snapshot()), folderId)
              && g.rels == WithoutNodes(old(g.rels), ImagePaths(old(db.Snapshot()), folderId))
    ensures r == Pass && ImagesIn(old(db.Snapshot()), folderId) != {} ==> IsPlatformAdmin(user)
    ensures folderId in old(db.folders) && IsPlatformAdmin(user) ==> r == Pass
    ensures g.nodes.Keys <= old(g.nodes).Keys
  {
    if folderId !in db.folders {
      return Fail(NotFound);
    }
    var gate := CheckFolderPermission(db.folders[folderId], Some(user), Write, db.members);
    if gate.Fail? {
      return gate;
    }
    var deleted := DeleteFolderImages(db, g, folderId, user);
    if deleted.Fail? {
      return deleted;
    }
    db.RemoveFolder(folderId);
    r := Pass;
  }

  /** updateFolder: a blank name is refused before the folder is looked up; only the name changes. */
  method UpdateFolder(db: Database, folderId: Id, newName: Option<string>, user: User) returns (r: Result<Folder>)
    requires db.Valid()
    modifies db
    ensures db.Valid() && db.nextId == old(db.nextId)
    ensures IsBlankOrNull(newName) ==> r == Err(ParamsError)
    ensures !IsBlankOrNull(newName) && folderId !in old(db.folders) ==> r == Err(NotFound)
    ensures r.Err? ==> db.Snapshot() == old(db.Snapshot())
    ensures r.Ok? <==>
              !IsBlankOrNull(newName) && folderId in old(db.folders)
              && MayAccess(old(db.folders)[folderId], user, Write, old(db.members))
    ensures r.Ok? ==>
              && r.value == old(db.folders)[folderId].(name := newName.value)
              && db.Snapshot() == old(db.Snapshot()).(folders := old(db.folders)[folderId := r.value])
  {
    if IsBlankOrNull(newName) {
      return Err(ParamsError);
    }
    if folderId !in db.folders {
      return Err(NotFound);
    }
    var folder := db.folders[folderId];
    var gate := CheckFolderPermission(folder, Some(user), Write, db.members);
    if gate.Fail? {
      return Err(gate.code);
    }
    var renamed := folder.(name := newName.value);
    db.PutFolder(renamed);
    r := Ok(renamed);
  }

  /** A rename changes nobody's access. */
  lemma RenameKeepsAccess(f: Folder, newName: string, u: Option<User>, perm: Perm, members: Members)
    ensures CheckFolderPermission(f.(name := newName), u, perm, members) == CheckFolderPermission(f, u, perm, members)
  {
  }

  // ---- copyFolder ----

  /** The keys deepCopyImageEntry does not copy from the source node. */
  const PERMISSION_KEYS: set<string> := {SPACE_KEY, OWNER_USER_KEY, OWNER_ORG_KEY}

  /** The properties of the copy's node-creation request: the target's space and the copying
      user, then every other property of the source node, if it has one. */
  function CopiedNodeProperties(space: Option<string>, userId: Id, source: Option<NodeView>): Props {
    var own := map[SPACE_KEY := OptStr(space), OWNER_USER_KEY := IdVal(userId)];
    if source.Some? then (source.value.properties - PERMISSION_KEYS) + own else own
  }

  /** The copy's request carries the new space and owner, no owning organization, and exactly
      the source node's other properties. */
  lemma CopiedNodePropertiesFilter(space: Option<string>, userId: Id, source: Option<NodeView>)
    ensures var p := CopiedNodeProperties(space, userId, source);
      && SPACE_KEY in p && p[SPACE_KEY] == OptStr(space)
      && OWNER_USER_KEY in p && p[OWNER_USER_KEY] == IdVal(userId)
      && OWNER_ORG_KEY !in p
      && (forall k | k in p && k !in PERMISSION_KEYS :: source.Some? && k in source.value.properties && p[k] == source.value.properties[k])
      && (source.Some? ==> forall k | k in source.value.properties && k !in PERMISSION_KEYS :: k in p)
  {
  }

  /** The storage path of a copied image: under the copying user's directory. */
  function CopyPath(userId: Id, uuid: string, originalFilename: string): string {
    ForwardSlashes("user/" + IdText(userId) + "/" + FileSuffix(uuid, originalFilename))
  }

  /** A copy lands where an upload into a "private" folder of the copying user would, and its
      path is never blank. */
  lemma CopyPathLayout(folder: Folder, userId: Id, uuid: string, originalFilename: string)
    ensures CopyPath(userId, uuid, originalFilename) ==
              "user/" + IdText(userId) + "/" + ForwardSlashes(FileSuffix(uuid, originalFilename))
    ensures !IsBlank(CopyPath(userId, uuid, originalFilename))
    ensures folder.space == Some(LEGACY_PRIVATE) && folder.ownerUserId == Some(userId) ==>
              StoragePath(folder, uuid, originalFilename) == Ok(CopyPath(userId, uuid, originalFilename))
  {
    var prefix := "user/" + IdText(userId) + "/";
    var suffix := FileSuffix(uuid, originalFilename);
    ForwardSlashesConcat(prefix, suffix);
    ForwardSlashesKeeps(prefix);
    assert "user/" + IdText(userId) + "/" + suffix == prefix + suffix;
    assert (prefix + ForwardSlashes(suffix))[0] == 'u';
    StoragePathLayout(folder, uuid, originalFilename);
  }

  /** The annotation step of deepCopyImageEntry: the source image's annotation, if it has one,
      copied onto the new image and edited by the copying user. */
  method CopyAnnotation(db: Database, sourceId: Id, imageId: Id, user: User) returns (copied: Option<Annotation>)
    requires db.Valid() && imageId in db.images && AnnotationsOf(db.Snapshot(), imageId) == {}
    modifies db
    ensures db.Valid() && old(db.nextId) <= db.nextId
    ensures db.Snapshot() == old(db.Snapshot()).(annotations :=
              if copied.Some? then old(db.annotations)[copied.value.id := copied.value] else old(db.annotations))
    ensures copied.None? <==> AnnotationsOf(old(db.Snapshot()), sourceId) == {}
    ensures copied.Some? ==>
              && copied.value.imageId == imageId && copied.value.lastEditorId == user.id
              && exists k | k in AnnotationsOf(old(db.Snapshot()), sourceId) ::
                   copied.value.jsonContent == old(db.annotations)[k].jsonContent
  {
    var found := AnnotationsOf(db.Snapshot(), sourceId);
    if found == {} {
      return None;
    }
    var k :| k in found;
    var id := db.FreshId();
    var a := Annotation(id, imageId, db.annotations[k].jsonContent, user.id);
    db.InsertAnnotation(a);
    copied := Some(a);
  }

  /** The relational half of deepCopyImageEntry: a new Images row in the target folder, then
      the annotation copy. */
  method SaveCopyRows(db: Database, source: Image, target: Folder, path: string, user: User)
    returns (image: Image, copied: Option<Annotation>)
    requires db.Valid()
    requires source.id in db.images && db.images[source.id] == source
    requires target.id in db.folders && db.folders[target.id] == target
    requires path !in db.pathIndex
    modifies db
    ensures db.Valid() && old(db.nextId) <= db.nextId
    ensures db.folders == old(db.folders) && db.members == old(db.members)
    ensures image == Image(image.id, target.id, source.originalFilename, path, user.id) && image.id !in old(db.images)
    ensures db.images == old(db.images)[image.id := image]
    ensures NodeFolder(db.Snapshot(), path) == Some(target)
    ensures ImageByPath(db.Snapshot(), source.storagePath) == Some(source)
  {
    image := SaveImageRow(db, target, source.originalFilename, path, user);
    assert ImageByPath(db.Snapshot(), source.storagePath) == Some(source);
    copied := CopyAnnotation(db, source.id, image.id, user);
  }

  /** The source node as the graph service's findNode shows it, when there is one. */
  function SourceView(nodes: map<string, Props>, name: string): Option<NodeView> {
    if name in nodes then Some(NodeView(Some(name), nodes[name])) else None
  }

  /** The graph half of deepCopyImageEntry: findNode on the source (READ through the legacy
      check), then createNode for the copy with the source's properties and the new ownership
      (WRITE through the legacy check, no admin bypass). */
  method CopyNode(g: GraphStore, t: Tables, source: Image, target: Folder, path: string, user: User) returns (r: Outcome)
    requires g.Valid() && Consistent(t)
    requires ImageByPath(t, source.storagePath) == Some(source)
    requires NodeFolder(t, path) == Some(target) && !IsBlank(path)
    modifies g
    ensures g.Valid() && g.rels == old(g.rels)
    ensures r.Fail? ==> g.nodes == old(g.nodes)
    ensures r == Pass ==>
              && LegacyMayAccess(target, user, Write, t.members)
              && path !in old(g.nodes)
              && g.nodes == old(g.nodes)[path := CreatedNodeProps(CopiedNodeProperties(target.space, user.id,
                                                   SourceView(old(g.nodes), source.storagePath)), target)]
    ensures r.Fail? && target.space.Some? && IsCurrentSpace(target.space.value) &&
            (IsPlatformAdmin(user) ||
             (source.folderId in t.folders && t.folders[source.folderId].space.Some? &&
              IsCurrentSpace(t.folders[source.folderId].space.value))) ==>
              r == Fail(SystemError)
  {
    var sourceNode := g.FindNode(t, source.storagePath, user);
    if sourceNode.Err? {
      return Fail(sourceNode.code);
    }
    var props := CopiedNodeProperties(target.space, user.id, sourceNode.value);
    var created := g.CreateNode(t, path, props, user);
    if created.Err? {
      return Fail(created.code);
    }
    r := Pass;
  }

  /** deepCopyImageEntry (the source file is taken to exist): the rows, then the node. An
      occupied storage path is a failed insert. */
  method DeepCopyImageEntry(db: Database, g: GraphStore, source: Image, target: Folder, user: User, uuid: string)
    returns (r: Outcome)
    requires db.Valid() && g.Valid()
    requires source.id in db.images && db.images[source.id] == source
    requires target.id in db.folders && db.folders[target.id] == target
    modifies db, g
    ensures db.Valid() && g.Valid() && old(db.nextId) <= db.nextId
    ensures db.folders == old(db.folders) && db.members == old(db.members)
    ensures Extends(old(db.images), db.images)
    ensures g.rels == old(g.rels) && Extends(old(g.nodes), g.nodes)
    ensures r.Fail? ==> g.nodes == old(g.nodes)
    ensures r == Pass ==>
              && LegacyMayAccess(target, user, Write, db.members)
              && CopyPath(user.id, uuid, source.originalFilename) in g.nodes
              && NodeFolder(db.Snapshot(), CopyPath(user.id, uuid, source.originalFilename)) == Some(target)
    ensures r.Fail? && target.space.Some? && IsCurrentSpace(target.space.value) &&
            (IsPlatformAdmin(user) ||
             (source.folderId in old(db.folders) && old(db.folders)[source.folderId].space.Some? &&
              IsCurrentSpace(old(db.folders)[source.folderId].space.value))) ==>
              r == Fail(SystemError)
  {
    var path := CopyPath(user.id, uuid, source.originalFilename);
    CopyPathLayout(target, user.id, uuid, source.originalFilename);
    if path in db.pathIndex {
      return Fail(SystemError);
    }
    var image, copied := SaveCopyRows(db, source, target, path, user);
    r := CopyNode(g, db.Snapshot(), source, target, path, user);
  }

  /** The copying loop of copyFolder: each source image in turn, stopping at the first failure.
      Rolling back is the caller's. */
  method CopyImages(db: Database, g: GraphStore, images: seq<Image>, source: Folder, target: Folder, user: User,
                    uuids: nat -> string) returns (r: Outcome)
    requires db.Valid() && g.Valid()
    requires source.id in db.folders && db.folders[source.id] == source
    requires target.id in db.folders && db.folders[target.id] == target
    requires forall i | 0 <= i < |images| :: images[i].id in db.images && db.images[images[i].id] == images[i]
    requires forall i | 0 <= i < |images| :: images[i].folderId == source.id
    modifies db, g
    ensures db.Valid() && g.Valid() && old(db.nextId) <= db.nextId
    ensures db.folders == old(db.folders) && db.members == old(db.members)
    ensures g.rels == old(g.rels) && Extends(old(g.nodes), g.nodes)
    ensures |images| == 0 ==> r == Pass && db.Snapshot() == old(db.Snapshot()) && g.nodes == old(g.nodes)
    ensures r == Pass && |images| > 0 ==> LegacyMayAccess(target, user, Write, db.members)
    ensures |images| > 0 && target.space.Some? && IsCurrentSpace(target.space.value) &&
            (IsPlatformAdmin(user) || (source.space.Some? && IsCurrentSpace(source.space.value))) ==>
              r == Fail(SystemError) && g.nodes == old(g.nodes)
  {
    var i := 0;
    while i < |images|
      invariant 0 <= i <= |images|
      invariant db.Valid() && g.Valid() && old(db.nextId) <= db.nextId
      invariant db.folders == old(db.folders) && db.members == old(db.members)
      invariant Extends(old(db.images), db.images)
      invariant g.rels == old(g.rels) && Extends(old(g.nodes), g.nodes)
      invariant i == 0 ==> db.Snapshot() == old(db.Snapshot()) && g.nodes == old(g.nodes)
      invariant i > 0 ==> LegacyMayAccess(target, user, Write, db.members)
    {
      ghost var imagesBefore := db.images;
      ghost var nodesBefore := g.nodes;
      var copied := DeepCopyImageEntry(db, g, images[i], target, user, uuids(i));
      ExtendsTransitive(old(db.images), imagesBefore, db.images);
      ExtendsTransitive(old(g.nodes), nodesBefore, g.nodes);
      if copied.Fail? {
        return copied;
      }
      i := i + 1;
    }
    r := Pass;
  }

  /** The folder row copyFolder saves: the copy belongs to the copying user. */
  method SaveCopyFolder(db: Database, name: string, space: string, user: User) returns (copy: Folder)
    requires db.Valid()
    modifies db
    ensures db.Valid() && old(db.nextId) <= db.nextId
    ensures copy == Folder(copy.id, name, Some(space), Some(user.id), None, None, None) && copy.id !in old(db.folders)
    ensures db.Snapshot() == old(db.Snapshot()).(folders := old(db.folders)[copy.id := copy])
  {
    var id := db.FreshId();
    copy := Folder(id, name, Some(space), Some(user.id), None, None, None);
    db.PutFolder(copy);
  }

  /** The transactional body of copyFolder once its checks have passed: the new folder, then
      its images; any failure rolls the tables back. */
  method CopyInto(db: Database, g: GraphStore, source: Folder, space: string, name: string, user: User,
                  uuids: nat -> string) returns (r: Result<Folder>)
    requires db.Valid() && g.Valid()
    requires source.id in db.folders && db.folders[source.id] == source
    requires IsPersonalSpace(space)
    requires IsPlatformAdmin(user) || (source.space.Some? && IsCurrentSpace(source.space.value))
    modifies db, g
    ensures db.Valid() && g.Valid() && g.nodes == old(g.nodes) && g.rels == old(g.rels)
    ensures r.Err? ==> r == Err(SystemError) && db.Snapshot() == old(db.Snapshot())
    ensures r.Ok? <==> ImagesIn(old(db.Snapshot()), source.id) == {}
    ensures r.Ok? ==>
              && r.value == Folder(r.value.id, name, Some(space), Some(user.id), None, None, None)
              && r.value.id !in old(db.folders)
              && db.Snapshot() == old(db.Snapshot()).(folders := old(db.folders)[r.value.id := r.value])
  {
    var start := db.Snapshot();
    var copy := SaveCopyFolder(db, name, space, user);
    var images := SelectFolderImages(db, source.id);
    var copied := CopyImages(db, g, images, source, copy, user, uuids);
    if copied.Fail? {
      db.Restore(start);
      return Err(copied.code);
    }
    r := Ok(copy);
  }

  /** copyFolder: NOT_FOUND, READ on the source, a personal target space; then a new folder owned
      by the caller named "<source>_copy_<millis mod 1000>", and every source image copied into it.
      The graph service's legacy check refuses to create a node in a personal folder, so a
      source folder with an image is never copied: the first image ends in SYSTEM_ERROR and the
      tables roll back. */
  method CopyFolder(db: Database, g: GraphStore, sourceId: Id, targetSpace: Option<string>, user: User, millis: nat,
                    uuids: nat -> string) returns (r: Result<Folder>)
    requires db.Valid() && g.Valid()
    modifies db, g
    ensures db.Valid() && g.Valid() && g.nodes == old(g.nodes) && g.rels == old(g.rels)
    ensures r.Err? ==> db.Snapshot() == old(db.Snapshot())
    ensures sourceId !in old(db.folders) ==> r == Err(NotFound)
    ensures sourceId in old(db.folders) ==>
              var gate := CheckFolderPermission(old(db.folders)[sourceId], Some(user), Read, old(db.members));
              && (gate.Fail? ==> r == Err(gate.code))
              && (gate.Pass? && (targetSpace.None? || !IsPersonalSpace(targetSpace.value)) ==> r == Err(ParamsError))
              && ((gate.Pass? && targetSpace.Some? && IsPersonalSpace(targetSpace.value)
                   && ImagesIn(old(db.Snapshot()), sourceId) != {}) ==> r == Err(SystemError))
    ensures r.Ok? <==>
              && sourceId in old(db.folders)
              && CheckFolderPermission(old(db.folders)[sourceId], Some(user), Read, old(db.members)) == Pass
              && targetSpace.Some? && IsPersonalSpace(targetSpace.value)
              && ImagesIn(old(db.Snapshot()), sourceId) == {}
    ensures r.Ok? ==>
              && r.value == Folder(r.value.id, old(db.folders)[sourceId].name + "_copy_" + IdText(millis % 1000),
                                   targetSpace, Some(user.id), None, None, None)
              && r.value.id !in old(db.folders)
              && db.Snapshot() == old(db.Snapshot()).(folders := old(db.folders)[r.value.id := r.value])
  {
    if sourceId !in db.folders {
      return Err(NotFound);
    }
    var source := db.folders[sourceId];
    var gate := CheckFolderPermission(source, Some(user), Read, db.members);
    if gate.Fail? {
      return Err(gate.code);
    }
    if targetSpace.None? || !IsPersonalSpace(targetSpace.value) {
      return Err(ParamsError);
    }
    r := CopyInto(db, g, source, targetSpace.value, source.name + "_copy_" + IdText(millis % 1000), user, uuids);
  }

  // ---- The merge workflow ----

  /** The checks of requestMerge: NOT_FOUND, WRITE on the folder, then a "user_public" folder.
      The previous merge state is not looked at. */
  function RequestMergeGuard(t: Tables, folderId: Id, user: User): (r: Outcome)
    ensures folderId !in t.folders ==> r == Fail(NotFound)
    ensures folderId in t.folders && CheckFolderPermission(t.folders[folderId], Some(user), Write, t.members).Fail? ==>
              r == CheckFolderPermission(t.folders[folderId], Some(user), Write, t.members)
    ensures r == Pass <==>
              && folderId in t.folders && t.folders[folderId].space == Some(USER_PUBLIC)
              && (IsPlatformAdmin(user) || t.folders[folderId].ownerUserId == Some(user.id))
  {
    if folderId !in t.folders then Fail(NotFound)
    else
      var folder := t.folders[folderId];
      var gate := CheckFolderPermission(folder, Some(user), Write, t.members);
      if gate.Fail? then gate
      else if folder.space != Some(USER_PUBLIC) then Fail(ParamsError)
      else Pass
  }

  /** The folder after requestMerge: PENDING, towards the requested organization. */
  function Requested(f: Folder, targetOrgId: Option<Id>): Folder {
    f.(mergeState := Some(MERGE_PENDING), targetOrganizationId := KeepIfNull(f.targetOrganizationId, targetOrgId))
  }

  /** requestMerge: only the merge state and the target organization change. */
  method RequestMerge(db: Database, folderId: Id, targetOrgId: Option<Id>, user: User) returns (r: Outcome)
    requires db.Valid()
    modifies db
    ensures db.Valid() && db.nextId == old(db.nextId)
    ensures r == RequestMergeGuard(old(db.Snapshot()), folderId, user)
    ensures r.Fail? ==> db.Snapshot() == old(db.Snapshot())
    ensures r == Pass ==>
              db.Snapshot() == old(db.Snapshot()).(folders := old(db.folders)[folderId := Requested(old(db.folders)[folderId], targetOrgId)])
  {
    r := RequestMergeGuard(db.Snapshot(), folderId, user);
    if r.Fail? {
      return;
    }
    db.PutFolder(Requested(db.folders[folderId], targetOrgId));
  }

  /** The checks of approveMergeRequest and rejectMergeRequest: a PENDING folder (NOT_FOUND
      otherwise, before any permission check), then the org-admin gate on its target organization. */
  function DecideMergeGuard(t: Tables, folderId: Id, user: User): (r: Outcome)
    ensures folderId !in t.folders || t.folders[folderId].mergeState != Some(MERGE_PENDING) ==> r == Fail(NotFound)
    ensures r == Pass <==>
              && folderId in t.folders && t.folders[folderId].mergeState == Some(MERGE_PENDING)
              && (IsPlatformAdmin(user) || RoleInOrg(t.members, user.id, t.folders[folderId].targetOrganizationId) == Some(ORG_ADMIN))
    ensures r.Fail? ==> r.code == NotFound || r.code == NoAuth
  {
    if folderId !in t.folders || t.folders[folderId].mergeState != Some(MERGE_PENDING) then Fail(NotFound)
    else CheckOrganizationAdmin(t.folders[folderId].targetOrganizationId, Some(user), t.members)
  }

  /** The stored folder after approval: "organization_public", owned by the target organization,
      APPROVED. The owning user is set to null, which updateById does not write. */
  function Approved(f: Folder): Folder {
    f.(space := Some(ORGANIZATION_PUBLIC),
       ownerOrganizationId := KeepIfNull(f.ownerOrganizationId, f.targetOrganizationId),
       ownerUserId := KeepIfNull(f.ownerUserId, None),
       mergeState := Some(MERGE_APPROVED))
  }

  /** The stored folder after rejection: only the merge state changes. */
  function Rejected(f: Folder): Folder {
    f.(mergeState := Some(MERGE_REJECTED))
  }

  /** The graph after the propagation call on each of `names`: those nodes take the update
      through `SET +=`, the others are left alone, and no node is created. */
  function Propagated(nodes: map<string, Props>, names: set<string>, update: Props): (r: map<string, Props>)
    ensures r.Keys == nodes.Keys
  {
    map n | n in nodes :: if n in names then MergeProps(nodes[n], update) else nodes[n]
  }

  /** Propagating to one more node is one more propagation call, even for a node already done. */
  lemma PropagatedStep(nodes: map<string, Props>, names: set<string>, update: Props, name: string)
    ensures var before := Propagated(nodes, names, update);
      (if name in before then before[name := MergeProps(before[name], update)] else before) ==
        Propagated(nodes, names + {name}, update)
  {
    var before := Propagated(nodes, names, update);
    if name in before {
      MergePropsLaws(nodes[name], update);
      assert before[name := MergeProps(before[name], update)] == Propagated(nodes, names + {name}, update);
    }
  }

  /** After propagation every node of the folder is organization-owned and has no owning user;
      every other node is as it was. */
  lemma PropagatedOwnership(nodes: map<string, Props>, names: set<string>, orgId: Option<Id>)
    ensures var r := Propagated(nodes, names, OwnershipUpdate(ORGANIZATION_PUBLIC, orgId));
      && (forall n | n in r && n in names ::
            && SPACE_KEY in r[n] && r[n][SPACE_KEY] == Str(ORGANIZATION_PUBLIC)
            && OWNER_USER_KEY !in r[n]
            && (orgId.Some? ==> OWNER_ORG_KEY in r[n] && r[n][OWNER_ORG_KEY] == IdVal(orgId.value)))
      && (forall n | n in r && n !in names :: r[n] == nodes[n])
  {
    var r := Propagated(nodes, names, OwnershipUpdate(ORGANIZATION_PUBLIC, orgId));
    forall n | n in r && n in names
      ensures && SPACE_KEY in r[n] && r[n][SPACE_KEY] == Str(ORGANIZATION_PUBLIC)
              && OWNER_USER_KEY !in r[n]
              && (orgId.Some? ==> OWNER_ORG_KEY in r[n] && r[n][OWNER_ORG_KEY] == IdVal(orgId.value))
    {
      OwnershipUpdateEffect(nodes[n], ORGANIZATION_PUBLIC, orgId);
    }
  }

  /** The propagation loop of approveMergeRequest: one call per image of the folder. */
  method PushOwnership(g: GraphStore, images: seq<Image>, orgId: Option<Id>)
    requires g.Valid()
    modifies g
    ensures g.Valid() && g.rels == old(g.rels)
    ensures g.nodes == Propagated(old(g.nodes), PathsOf(images), OwnershipUpdate(ORGANIZATION_PUBLIC, orgId))
  {
    ghost var done: set<string> := {};
    var i := 0;
    while i < |images|
      invariant 0 <= i <= |images|
      invariant g.Valid() && g.rels == old(g.rels)
      invariant done == PathsOf(images[..i])
      invariant g.nodes == Propagated(old(g.nodes), done, OwnershipUpdate(ORGANIZATION_PUBLIC, orgId))
    {
      PropagatedStep(old(g.nodes), done, OwnershipUpdate(ORGANIZATION_PUBLIC, orgId), images[i].storagePath);
      g.UpdateNodePermissions(images[i].storagePath, ORGANIZATION_PUBLIC, orgId);
      done := done + {images[i].storagePath};
      assert PathsOf(images[..i + 1]) == PathsOf(images[..i]) + {images[i].storagePath} by {
        assert forall j | 0 <= j < i :: images[..i + 1][j] == images[..i][j];
      }
      i := i + 1;
    }
    assert images[..i] == images;
  }

  /** approveMergeRequest: the folder is handed to the target organization, then every image node
      of the folder gets the organization's ownership pushed onto it. */
  method ApproveMergeRequest(db: Database, g: GraphStore, folderId: Id, user: User) returns (r: Outcome)
    requires db.Valid() && g.Valid()
    modifies db, g
    ensures db.Valid() && g.Valid() && db.nextId == old(db.nextId) && g.rels == old(g.rels)
    ensures r == DecideMergeGuard(old(db.Snapshot()), folderId, user)
    ensures r.Fail? ==> db.Snapshot() == old(db.Snapshot()) && g.nodes == old(g.nodes)
    ensures r == Pass ==>
              && db.Snapshot() == old(db.Snapshot()).(folders := old(db.folders)[folderId := Approved(old(db.folders)[folderId])])
              && g.nodes == Propagated(old(g.nodes), ImagePaths(old(db.Snapshot()), folderId),
                                       OwnershipUpdate(ORGANIZATION_PUBLIC, old(db.folders)[folderId].targetOrganizationId))
  {
    r := DecideMergeGuard(db.Snapshot(), folderId, user);
    if r.Fail? {
      return;
    }
    var folder := db.folders[folderId];
    db.PutFolder(Approved(folder));
    var images := SelectFolderImages(db, folderId);
    PushOwnership(g, images, folder.targetOrganizationId);
  }

  /** rejectMergeRequest */
  method RejectMergeRequest(db: Database, folderId: Id, user: User) returns (r: Outcome)
    requires db.Valid()
    modifies db
    ensures db.Valid() && db.nextId == old(db.nextId)
    ensures r == DecideMergeGuard(old(db.Snapshot()), folderId, user)
    ensures r.Fail? ==> db.Snapshot() == old(db.Snapshot())
    ensures r == Pass ==>
              db.Snapshot() == old(db.Snapshot()).(folders := old(db.folders)[folderId := Rejected(old(db.folders)[folderId])])
  {
    r := DecideMergeGuard(db.Snapshot(), folderId, user);
    if r.Fail? {
      return;
    }
    db.PutFolder(Rejected(db.folders[folderId]));
  }

  /** A listing entry of listPendingMerges: the folder and the profile of its requesting owner. */
  datatype MergeListing = MergeListing(folder: Folder, requestUser: Option<UserView>)

  predicate PendingFor(f: Folder, orgId: Id) {
    f.targetOrganizationId == Some(orgId) && f.mergeState == Some(MERGE_PENDING)
  }

  /** userService.getUserVO(userMapper.selectById(ownerUserId)): null when there is no such user. */
  function RequestUser(t: Tables, f: Folder): Option<UserView> {
    if f.ownerUserId.Some? && f.ownerUserId.value in t.users then GetUserVO(Some(t.users[f.ownerUserId.value])) else None
  }

  /** listPendingMerges: for an administrator of the organization, the folders waiting to be
      merged into it, each with its requester. */
  function ListPendingMerges(t: Tables, orgId: Id, user: User): (r: Result<set<MergeListing>>)
    ensures CheckOrganizationAdmin(Some(orgId), Some(user), t.members).Fail? ==>
              r == Err(CheckOrganizationAdmin(Some(orgId), Some(user), t.members).code)
    ensures r.Ok? ==> forall x | x in r.value :: x.folder in t.folders.Values && PendingFor(x.folder, orgId)
    ensures r.Ok? ==> forall k | k in t.folders && PendingFor(t.folders[k], orgId) ::
                        MergeListing(t.folders[k], RequestUser(t, t.folders[k])) in r.value
  {
    var gate := CheckOrganizationAdmin(Some(orgId), Some(user), t.members);
    if gate.Fail? then Err(gate.code)
    else Ok(set k | k in t.folders && PendingFor(t.folders[k], orgId) :: MergeListing(t.folders[k], RequestUser(t, t.folders[k])))
  }

  // ---- The merge state machine ----

  /** A decided request cannot be decided again: approval and rejection both need PENDING. */
  lemma DecidedOnce(t: Tables, folderId: Id, u: User)
    requires folderId in t.folders
    ensures DecideMergeGuard(t.(folders := t.folders[folderId := Approved(t.folders[folderId])]), folderId, u) == Fail(NotFound)
    ensures DecideMergeGuard(t.(folders := t.folders[folderId := Rejected(t.folders[folderId])]), folderId, u) == Fail(NotFound)
  {
  }

  /** An approved folder is no longer personal, so nobody can request another merge of it; a
      rejected one may be requested again by exactly those who could before. */
  lemma RequestAfterDecision(t: Tables, folderId: Id, u: User)
    requires folderId in t.folders
    ensures RequestMergeGuard(t.(folders := t.folders[folderId := Approved(t.folders[folderId])]), folderId, u).Fail?
    ensures RequestMergeGuard(t.(folders := t.folders[folderId := Rejected(t.folders[folderId])]), folderId, u) ==
              RequestMergeGuard(t, folderId, u)
  {
  }

  /** A request shows up in its organization's pending list, and leaves it once decided. */
  lemma PendingListFollowsRequests(t: Tables, folderId: Id, orgId: Id, admin: User)
    requires folderId in t.folders
    requires CheckOrganizationAdmin(Some(orgId), Some(admin), t.members) == Pass
    ensures var f := Requested(t.folders[folderId], Some(orgId));
      var t' := t.(folders := t.folders[folderId := f]);
      MergeListing(f, RequestUser(t', f)) in ListPendingMerges(t', orgId, admin).value
    ensures var f := Approved(t.folders[folderId]);
      forall x | x in ListPendingMerges(t.(folders := t.folders[folderId := f]), orgId, admin).value :: x.folder != f
    ensures var f := Rejected(t.folders[folderId]);
      forall x | x in ListPendingMerges(t.(folders := t.folders[folderId := f]), orgId, admin).value :: x.folder != f
  {
    var f := Requested(t.folders[folderId], Some(orgId));
    var t' := t.(folders := t.folders[folderId := f]);
    assert t'.folders[folderId] == f;
  }

  /** After approval the folder gate is the organization's: members read, organization
      administrators write, and the former owner, whose id the row still holds, gets nothing
      from it. */
  lemma ApprovalHandsFolderToOrganization(f: Folder, u: User, perm: Perm, members: Members)
    requires !IsPlatformAdmin(u) && f.targetOrganizationId.Some?
    ensures CheckFolderPermission(Approved(f), Some(u), perm, members) == Pass <==>
              && RoleInOrg(members, u.id, f.targetOrganizationId).Some?
              && (perm == Read || RoleInOrg(members, u.id, f.targetOrganizationId) == Some(ORG_ADMIN))
    ensures Approved(f).ownerUserId == f.ownerUserId
  {
  }

  /** Approved image nodes carry a current space value, so the graph's get-all hides them from
      every non-admin. */
  lemma ApprovedNodesHidden(nodes: map<string, Props>, names: set<string>, orgId: Option<Id>, name: string,
                            userId: Id, orgIds: set<Id>)
    requires name in nodes && name in names
    ensures !VisibleTo(Propagated(nodes, names, OwnershipUpdate(ORGANIZATION_PUBLIC, orgId))[name], userId, orgIds)
  {
    PropagatedOwnership(nodes, names, orgId);
    var p := Propagated(nodes, names, OwnershipUpdate(ORGANIZATION_PUBLIC, orgId))[name];
    CurrentSpaceNodesHidden(p, userId, orgIds, ORGANIZATION_PUBLIC);
  }
}
