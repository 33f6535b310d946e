/** The image service (ImageServiceImpl): batch upload with per-base-name grouping of image,
    JSON and YOLO files, storage paths, deletion with graph clean-up, and the read paths.
    A @Transactional entry point that throws rolls the relational tables back (Database.Restore);
    graph writes are not part of that transaction and persist. */
module Images {
  import opened Common
  import opened Entities
  import opened Store
  import opened Permission
  import opened Graph
  import opened Annotations
  import opened Filenames

  // ---- Uploaded files and their grouping ----

  /** Reading and parsing a ".json" file: the document, or an IOException. */
  datatype JsonRead = Parsed(doc: JsonDoc) | JsonUnreadable

  /** Converting a ".txt" YOLO file: the document built from it, an IOException while reading,
      or an image that ImageIO cannot decode (a null image, then a NullPointerException). */
  datatype YoloRead = Converted(doc: JsonDoc) | YoloUnreadable | ImageUndecodable

  /** One MultipartFile: its original name (possibly null) and what reading it as an
      annotation would give. */
  datatype UploadFile = UploadFile(originalFilename: Option<string>, asJson: JsonRead, asYolo: YoloRead)

  /** GroupedFiles: the image, JSON and YOLO file sharing one base name. */
  datatype Group = Group(imageFile: Option<UploadFile>, jsonFile: Option<UploadFile>, yoloFile: Option<UploadFile>)

  /** A file takes part in grouping when its base name is not blank (a null name has a null base name). */
  predicate Groupable(f: UploadFile) {
    f.originalFilename.Some? && !IsBlank(BaseName(f.originalFilename.value))
  }

  /** The file belongs to the group of `base` in the slot of `kind`. */
  predicate InGroup(f: UploadFile, base: string, kind: FileKind) {
    Groupable(f) && BaseName(f.originalFilename.value) == base && KindOfName(f.originalFilename.value) == kind
  }

  /** The base names the grouping loop creates a group for, whatever their extensions. */
  function GroupKeys(files: seq<UploadFile>): set<string> {
    set f | f in files && Groupable(f) :: BaseName(f.originalFilename.value)
  }

  /** Reference definition of a group's slot: the LAST file of that base name and kind,
      since a later file overwrites the slot. */
  function LastOfKind(files: seq<UploadFile>, base: string, kind: FileKind): (r: Option<UploadFile>)
    ensures r.Some? ==> r.value in files && InGroup(r.value, base, kind)
    decreases |files|
  {
    if |files| == 0 then None
    else if InGroup(files[|files| - 1], base, kind) then Some(files[|files| - 1])
    else LastOfKind(files[..|files| - 1], base, kind)
  }

  function GroupOf(files: seq<UploadFile>, base: string): Group {
    Group(LastOfKind(files, base, ImageKind), LastOfKind(files, base, JsonKind), LastOfKind(files, base, YoloKind))
  }

  lemma GroupKeysStep(files: seq<UploadFile>, i: nat)
    requires i < |files|
    ensures GroupKeys(files[..i + 1]) ==
              GroupKeys(files[..i]) + (if Groupable(files[i]) then {BaseName(files[i].originalFilename.value)} else {})
  {
    assert files[..i + 1] == files[..i] + [files[i]];
  }

  lemma LastOfKindStep(files: seq<UploadFile>, i: nat, b: string, k: FileKind)
    requires i < |files|
    ensures LastOfKind(files[..i + 1], b, k) == if InGroup(files[i], b, k) then Some(files[i]) else LastOfKind(files[..i], b, k)
  {
    assert files[..i + 1][..i] == files[..i];
  }

  /** No file of that base name and kind: an empty slot. */
  lemma {:induction false} LastOfKindNone(files: seq<UploadFile>, base: string, kind: FileKind)
    requires forall i | 0 <= i < |files| :: !InGroup(files[i], base, kind)
    ensures LastOfKind(files, base, kind) == None
    decreases |files|
  {
    if |files| > 0 {
      LastOfKindNone(files[..|files| - 1], base, kind);
    }
  }

  /** A base name no earlier file has gives empty slots. */
  lemma NewKeyEmpty(files: seq<UploadFile>, b: string)
    requires b !in GroupKeys(files)
    ensures GroupOf(files, b) == Group(None, None, None)
  {
    assert forall i | 0 <= i < |files| :: files[i] in files;
    LastOfKindNone(files, b, ImageKind);
    LastOfKindNone(files, b, JsonKind);
    LastOfKindNone(files, b, YoloKind);
  }

  /** One turn of the grouping loop: putIfAbsent, then the slot of the file's kind is overwritten. */
  function AddFile(groups: map<string, Group>, f: UploadFile): map<string, Group> {
    if !Groupable(f) then groups
    else
      var name := f.originalFilename.value;
      var b := BaseName(name);
      var group := if b in groups then groups[b] else Group(None, None, None);
      var kind := KindOfName(name);
      groups[b := if kind == ImageKind then group.(imageFile := Some(f))
                  else if kind == JsonKind then group.(jsonFile := Some(f))
                  else if kind == YoloKind then group.(yoloFile := Some(f))
                  else group]
  }

  lemma AddFileStep(files: seq<UploadFile>, i: nat, groups: map<string, Group>)
    requires i < |files|
    requires groups.Keys == GroupKeys(files[..i])
    requires forall b | b in groups :: groups[b] == GroupOf(files[..i], b)
    ensures AddFile(groups, files[i]).Keys == GroupKeys(files[..i + 1])
    ensures forall b | b in AddFile(groups, files[i]) :: AddFile(groups, files[i])[b] == GroupOf(files[..i + 1], b)
  {
    GroupKeysStep(files, i);
    var next := AddFile(groups, files[i]);
    forall b | b in next
      ensures next[b] == GroupOf(files[..i + 1], b)
    {
      LastOfKindStep(files, i, b, ImageKind);
      LastOfKindStep(files, i, b, JsonKind);
      LastOfKindStep(files, i, b, YoloKind);
      if b !in groups {
        NewKeyEmpty(files[..i], b);
      }
    }
  }

  /** The grouping loop's effect on a prefix of the files. */
  function Fold(files: seq<UploadFile>): map<string, Group>
    decreases |files|
  {
    if |files| == 0 then map[] else AddFile(Fold(files[..|files| - 1]), files[|files| - 1])
  }

  /** One more file folds into the groups of the files before it. */
  lemma FoldStep(files: seq<UploadFile>, i: nat)
    requires i < |files|
    ensures Fold(files[..i + 1]) == AddFile(Fold(files[..i]), files[i])
  {
    assert files[..i + 1][..i] == files[..i];
  }

  /** The fold agrees with the reference definition: one group per non-blank base name,
      each slot holding the last file of its kind. */
  lemma {:induction false} FoldGroups(files: seq<UploadFile>)
    ensures Fold(files).Keys == GroupKeys(files)
    ensures forall b | b in Fold(files) :: Fold(files)[b] == GroupOf(files, b)
    decreases |files|
  {
    if |files| > 0 {
      var i := |files| - 1;
      assert files[..i + 1] == files;
      FoldGroups(files[..i]);
      AddFileStep(files, i, Fold(files[..i]));
    }
  }

  /** The grouping loop of uploadImagesWithAnnotationsBatch: one group per non-blank base name,
      each slot holding the last file of its kind. A file of another extension still opens a group. */
  method GroupFiles(files: seq<UploadFile>) returns (groups: map<string, Group>)
    ensures groups == Fold(files)
  {
    groups := map[];
    var i := 0;
    while i < |files|
      invariant 0 <= i <= |files|
      invariant groups == Fold(files[..i])
    {
      var f := files[i];
      ghost var before := groups;
      if Groupable(f) {
        var name := f.originalFilename.value;
        var b := BaseName(name);
        var group := if b in groups then groups[b] else Group(None, None, None);
        var kind := KindOfName(name);
        if kind == ImageKind {
          group := group.(imageFile := Some(f));
        } else if kind == JsonKind {
          group := group.(jsonFile := Some(f));
        } else if kind == YoloKind {
          group := group.(yoloFile := Some(f));
        }
        groups := groups[b := group];
      }
      assert groups == AddFile(before, f);
      FoldStep(files, i);
      i := i + 1;
    }
    assert files[..i] == files;
  }

  /** The image files of the groups that have one: only these groups are saved. */
  function ImageFiles(groups: map<string, Group>): (r: map<string, UploadFile>)
    ensures r.Keys <= groups.Keys
  {
    map b | b in groups && groups[b].imageFile.Some? :: groups[b].imageFile.value
  }

  /** The saved groups of a batch are the base names that have an image file, each with the
      last image file of that base name. */
  lemma ImageFilesReference(files: seq<UploadFile>)
    ensures forall b :: b in ImageFiles(Fold(files)) <==> b in GroupKeys(files) && LastOfKind(files, b, ImageKind).Some?
    ensures forall b | b in ImageFiles(Fold(files)) :: ImageFiles(Fold(files))[b] == LastOfKind(files, b, ImageKind).value
  {
    FoldGroups(files);
  }

  /** Every image file in a group has a name, is an image, and has the group's base name. */
  lemma FoldImagesInGroup(files: seq<UploadFile>)
    ensures forall b | b in Fold(files) && Fold(files)[b].imageFile.Some? :: InGroup(Fold(files)[b].imageFile.value, b, ImageKind)
  {
    FoldGroups(files);
  }

  /** A single file makes a group with an image file exactly when its name is an image name
      with a non-blank base name. */
  lemma SingleFileImages(file: UploadFile)
    ensures Groupable(file) && KindOfName(file.originalFilename.value) == ImageKind ==>
              |ImageFiles(Fold([file]))| == 1 && FileNames(ImageFiles(Fold([file]))) == {file.originalFilename.value}
    ensures Groupable(file) && KindOfName(file.originalFilename.value) == ImageKind ==>
              Fold([file]) == map[BaseName(file.originalFilename.value) := Group(Some(file), None, None)]
    ensures !Groupable(file) || KindOfName(file.originalFilename.value) != ImageKind ==>
              ImageFiles(Fold([file])) == map[]
  {
    assert [file][..0] == [];
    assert Fold([file]) == AddFile(map[], file);
    if Groupable(file) && KindOfName(file.originalFilename.value) == ImageKind {
      var b := BaseName(file.originalFilename.value);
      assert Fold([file]) == map[b := Group(Some(file), None, None)];
      var m := ImageFiles(Fold([file]));
      assert m == map[b := file];
      assert m.Keys == {b};
    }
  }

  /** determineAnnotationJson: a JSON file wins over a YOLO file even when it cannot be read
      (an IOException gives the empty document, with no fall-back to YOLO); an undecodable image
      behind a YOLO file is not an IOException and propagates. */
  function DetermineAnnotationJson(group: Group): (r: Result<JsonDoc>)
    ensures group.jsonFile.Some? && group.jsonFile.value.asJson.Parsed? ==> r == Ok(group.jsonFile.value.asJson.doc)
    ensures group.jsonFile.Some? && group.jsonFile.value.asJson.JsonUnreadable? ==> r == Ok(map[])
    ensures group.jsonFile.None? && group.yoloFile.Some? ==>
              match group.yoloFile.value.asYolo
              case Converted(doc) => r == Ok(doc)
              case YoloUnreadable => r == Ok(map[])
              case ImageUndecodable => r == Err(NullPointer)
    ensures group.jsonFile.None? && group.yoloFile.None? ==> r == Ok(map[])
  {
    if group.jsonFile.Some? then
      match group.jsonFile.value.asJson
      case Parsed(doc) => Ok(doc)
      case JsonUnreadable => Ok(map[])
    else if group.yoloFile.Some? then
      match group.yoloFile.value.asYolo
      case Converted(doc) => Ok(doc)
      case YoloUnreadable => Ok(map[])
      case ImageUndecodable => Err(NullPointer)
    else Ok(map[])
  }

  /** The annotation never fails for a group whose JSON file is present. */
  lemma JsonFileNeverFails(group: Group)
    requires group.jsonFile.Some?
    ensures DetermineAnnotationJson(group).Ok?
    ensures group.yoloFile.Some? ==> DetermineAnnotationJson(group) != Err(NullPointer)
  {
  }

  // ---- Storage paths ----

  /** String.replace("\\", "/") */
  function ForwardSlashes(s: string): (r: string)
    ensures |r| == |s|
    ensures forall i | 0 <= i < |s| :: r[i] == if s[i] == '\\' then '/' else s[i]
  {
    seq(|s|, i requires 0 <= i < |s| => if s[i] == '\\' then '/' else s[i])
  }

  lemma ForwardSlashesConcat(a: string, b: string)
    ensures ForwardSlashes(a + b) == ForwardSlashes(a) + ForwardSlashes(b)
  {
    assert forall i | 0 <= i < |a + b| :: ForwardSlashes(a + b)[i] == (ForwardSlashes(a) + ForwardSlashes(b))[i];
  }

  lemma ForwardSlashesKeeps(a: string)
    requires forall i | 0 <= i < |a| :: a[i] != '\\'
    ensures ForwardSlashes(a) == a
  {
  }

  /** The file name under the folder's directory: an eight-character random prefix, a dash,
      and the original name. The random prefix is a parameter. */
  function FileSuffix(uuid: string, originalFilename: string): string {
    uuid + "-" + originalFilename
  }

  /** The storage path saveImageAndAnnotation computes. The switch knows only the legacy space
      values: a null space, or a missing owner under "organization" or "private", throws a
      NullPointerException; every other space, the four current ones included, goes under "public". */
  function StoragePath(folder: Folder, uuid: string, originalFilename: string): (r: Result<string>)
    ensures r.Err? ==> r.code == NullPointer
    ensures r.Ok? ==> forall i | 0 <= i < |r.value| :: r.value[i] != '\\'
  {
    var suffix := FileSuffix(uuid, originalFilename);
    match folder.space
    case None => Err(NullPointer)
    case Some(space) =>
      if space == LEGACY_ORGANIZATION then
        if folder.ownerOrganizationId.None? then Err(NullPointer)
        else Ok(ForwardSlashes("organization/" + IdText(folder.ownerOrganizationId.value) + "/" + suffix))
      else if space == LEGACY_PRIVATE then
        if folder.ownerUserId.None? then Err(NullPointer)
        else Ok(ForwardSlashes("user/" + IdText(folder.ownerUserId.value) + "/" + suffix))
      else Ok(ForwardSlashes("public/" + suffix))
  }

  /** The directory layout: organization/<org>/, user/<owner>/ or public/, then the file name
      with backslashes turned into slashes. A storage path is never blank. */
  lemma StoragePathLayout(folder: Folder, uuid: string, originalFilename: string)
    ensures var suffix := ForwardSlashes(FileSuffix(uuid, originalFilename));
      && (folder.space == Some(LEGACY_ORGANIZATION) && folder.ownerOrganizationId.Some? ==>
            StoragePath(folder, uuid, originalFilename) ==
              Ok("organization/" + IdText(folder.ownerOrganizationId.value) + "/" + suffix))
      && (folder.space == Some(LEGACY_PRIVATE) && folder.ownerUserId.Some? ==>
            StoragePath(folder, uuid, originalFilename) == Ok("user/" + IdText(folder.ownerUserId.value) + "/" + suffix))
      && (folder.space.Some? && folder.space != Some(LEGACY_ORGANIZATION) && folder.space != Some(LEGACY_PRIVATE) ==>
            StoragePath(folder, uuid, originalFilename) == Ok("public/" + suffix))
    ensures StoragePath(folder, uuid, originalFilename).Ok? ==> !IsBlank(StoragePath(folder, uuid, originalFilename).value)
  {
    var suffix := FileSuffix(uuid, originalFilename);
    if folder.space == Some(LEGACY_ORGANIZATION) && folder.ownerOrganizationId.Some? {
      var prefix := "organization/" + IdText(folder.ownerOrganizationId.value) + "/";
      ForwardSlashesConcat(prefix, suffix);
      ForwardSlashesKeeps(prefix);
      assert ("organization/" + IdText(folder.ownerOrganizationId.value) + "/" + suffix) == prefix + suffix;
      assert (prefix + ForwardSlashes(suffix))[0] == 'o';
    } else if folder.space == Some(LEGACY_PRIVATE) && folder.ownerUserId.Some? {
      var prefix := "user/" + IdText(folder.ownerUserId.value) + "/";
      ForwardSlashesConcat(prefix, suffix);
      ForwardSlashesKeeps(prefix);
      assert ("user/" + IdText(folder.ownerUserId.value) + "/" + suffix) == prefix + suffix;
      assert (prefix + ForwardSlashes(suffix))[0] == 'u';
    } else if folder.space.Some? && folder.space != Some(LEGACY_ORGANIZATION) && folder.space != Some(LEGACY_PRIVATE) {
      ForwardSlashesConcat("public/", suffix);
      ForwardSlashesKeeps("public/");
      assert ("public/" + ForwardSlashes(suffix))[0] == 'p';
    }
  }

  /** The properties saveImageAndAnnotation puts in its node-creation request: the folder's
      space and owners, nulls included. */
  function OwnershipRequest(folder: Folder): Props {
    map[SPACE_KEY := OptStr(folder.space), OWNER_USER_KEY := OptId(folder.ownerUserId),
        OWNER_ORG_KEY := OptId(folder.ownerOrganizationId)]
  }

  /** An image node carries exactly the folder's non-null ownership fields. */
  lemma ImageNodeMirrorsFolder(folder: Folder)
    ensures var p := CreatedNodeProps(OwnershipRequest(folder), folder);
      && p.Keys <= {SPACE_KEY, OWNER_USER_KEY, OWNER_ORG_KEY}
      && (SPACE_KEY in p <==> folder.space.Some?)
      && (folder.space.Some? ==> p[SPACE_KEY] == Str(folder.space.value))
      && (OWNER_USER_KEY in p <==> folder.ownerUserId.Some?)
      && (folder.ownerUserId.Some? ==> p[OWNER_USER_KEY] == IdVal(folder.ownerUserId.value))
      && (OWNER_ORG_KEY in p <==> folder.ownerOrganizationId.Some?)
      && (folder.ownerOrganizationId.Some? ==> p[OWNER_ORG_KEY] == IdVal(folder.ownerOrganizationId.value))
  {
    CreatedNodePropsOverride(OwnershipRequest(folder), folder);
  }

  // ---- Upload ----

  /** this.save(image) for a storage path not yet taken: a new Images row under a fresh id. The row is what the graph node of
      its storage path resolves to, and it has no annotation yet. */
  method SaveImageRow(db: Database, folder: Folder, originalFilename: string, path: string, user: User)
    returns (image: Image)
    requires db.Valid() && folder.id in db.folders && db.folders[folder.id] == folder
    requires path !in db.pathIndex
    modifies db
    ensures db.Valid() && old(db.nextId) <= db.nextId
    ensures image == Image(image.id, folder.id, originalFilename, path, user.id)
    ensures image.id !in old(db.images)
    ensures db.Snapshot() == old(db.Snapshot()).(images := old(db.images)[image.id := image],
                                                 pathIndex := old(db.pathIndex)[path := image.id])
    ensures ImageByPath(db.Snapshot(), path) == Some(image)
    ensures NodeFolder(db.Snapshot(), path) == Some(folder)
    ensures AnnotationsOf(db.Snapshot(), image.id) == {}
  {
    var id := db.FreshId();
    image := Image(id, folder.id, originalFilename, path, user.id);
    db.InsertImage(image);
    assert ImageByPath(db.Snapshot(), path) == Some(image);
  }

  /** The node and annotation half of saveImageAndAnnotation, for a row just saved: the image
      node is created through the graph service (whose legacy check needs a platform admin),
      then the annotation through the annotation service. `ok` is false when either refuses. */
  method AttachNodeAndAnnotation(db: Database, g: GraphStore, folder: Folder, image: Image, json: JsonDoc, user: User)
    returns (ok: bool)
    requires db.Valid() && g.Valid()
    requires !IsBlank(image.storagePath) && ImageByPath(db.Snapshot(), image.storagePath) == Some(image)
    requires NodeFolder(db.Snapshot(), image.storagePath) == Some(folder)
    requires AnnotationsOf(db.Snapshot(), image.id) == {}
    modifies db, g
    ensures db.Valid() && g.Valid() && old(db.nextId) <= db.nextId
    ensures db.Snapshot() == old(db.Snapshot()).(annotations := db.annotations)
    ensures Extends(old(db.annotations), db.annotations)
    ensures g.rels == old(g.rels) && Extends(old(g.nodes), g.nodes)
    ensures ok ==>
              && g.nodes == old(g.nodes)[image.storagePath := CreatedNodeProps(OwnershipRequest(folder), folder)]
              && (exists a | a in db.annotations :: db.annotations[a] == Annotation(a, image.id, json, user.id))
              && NewOnlyFor(old(db.annotations), db.annotations, {image.id})
              && image.storagePath !in old(g.nodes)
              && LegacyMayAccess(folder, user, Write, db.members)
    ensures image.storagePath !in old(g.nodes) && IsPlatformAdmin(user) && LegacyMayAccess(folder, user, Write, db.members) ==> ok
  {
    ghost var admitted := IsPlatformAdmin(user) && LegacyMayAccess(folder, user, Write, db.members);
    assert admitted ==> GraphStore.CreateNodeGuard(db.Snapshot(), image.storagePath, user) == Pass;
    var node := g.CreateNode(db.Snapshot(), image.storagePath, OwnershipRequest(folder), user);
    if node.Err? {
      return false;
    }
    assert admitted ==> ImageNodeGate(db.Snapshot(), image.id, user, Write) == Pass;
    ghost var before := db.annotations;
    var annotation := CreateAnnotation(db, image.id, Some(json), user);
    if annotation.Err? {
      return false;
    }
    NewOnlyForAdd(before, annotation.value.id, annotation.value, {image.id});
    assert db.annotations[annotation.value.id] == annotation.value;
    ok := true;
  }

  /** saveImageAndAnnotation: storage path, Images row, graph node, annotation. A storage path
      already taken is refused by the Images table and surfaces as SYSTEM_ERROR, as do a failed
      node creation and a failed annotation (each is caught and re-thrown). This step does not
      roll back; its caller's transaction does. */
  method SaveImageAndAnnotation(db: Database, g: GraphStore, folder: Folder, originalFilename: string,
                                json: JsonDoc, user: User, uuid: string) returns (r: Result<Image>)
    requires db.Valid() && g.Valid()
    requires folder.id in db.folders && db.folders[folder.id] == folder
    modifies db, g
    ensures db.Valid() && g.Valid() && old(db.nextId) <= db.nextId
    ensures db.Snapshot() == old(db.Snapshot()).(images := db.images, pathIndex := db.pathIndex, annotations := db.annotations)
    ensures Extends(old(db.images), db.images) && Extends(old(db.annotations), db.annotations)
    ensures g.rels == old(g.rels) && Extends(old(g.nodes), g.nodes)
    ensures r.Err? ==> r.code == NullPointer || r.code == SystemError
    ensures StoragePath(folder, uuid, originalFilename).Err? ==>
              r == Err(NullPointer) && db.Snapshot() == old(db.Snapshot()) && g.nodes == old(g.nodes)
    ensures r.Ok? ==>
              && r.value == Image(r.value.id, folder.id, originalFilename, StoragePath(folder, uuid, originalFilename).value, user.id)
              && r.value.id !in old(db.images)
              && db.images == old(db.images)[r.value.id := r.value]
              && g.nodes == old(g.nodes)[r.value.storagePath := CreatedNodeProps(OwnershipRequest(folder), folder)]
              && (exists a | a in db.annotations :: db.annotations[a] == Annotation(a, r.value.id, json, user.id))
              && NewOnlyFor(old(db.annotations), db.annotations, {r.value.id})
              && r.value.storagePath !in old(g.nodes)
              && LegacyMayAccess(folder, user, Write, db.members)
    ensures StoragePath(folder, uuid, originalFilename).Ok? &&
            StoragePath(folder, uuid, originalFilename).value !in old(db.pathIndex) &&
            StoragePath(folder, uuid, originalFilename).value !in old(g.nodes) &&
            IsPlatformAdmin(user) && LegacyMayAccess(folder, user, Write, db.members) ==>
              r.Ok?
  {
    var path := StoragePath(folder, uuid, originalFilename);
    if path.Err? {
      return Err(path.code);
    }
    StoragePathLayout(folder, uuid, originalFilename);
    if path.value in db.pathIndex {
      return Err(SystemError);
    }
    var image := SaveImageRow(db, folder, originalFilename, path.value, user);
    var ok := AttachNodeAndAnnotation(db, g, folder, image, json, user);
    if !ok {
      return Err(SystemError);
    }
    r := Ok(image);
  }

  /** One turn of the saving loop, for a group with an image file: its annotation document,
      then saveImageAndAnnotation under the image file's name. */
  method SaveGroup(db: Database, g: GraphStore, folder: Folder, group: Group, user: User, uuid: string)
    returns (r: Result<Image>)
    requires db.Valid() && g.Valid()
    requires folder.id in db.folders && db.folders[folder.id] == folder
    requires group.imageFile.Some? && group.imageFile.value.originalFilename.Some?
    modifies db, g
    ensures db.Valid() && g.Valid() && old(db.nextId) <= db.nextId
    ensures db.folders == old(db.folders) && db.members == old(db.members)
    ensures db.organizations == old(db.organizations) && db.users == old(db.users)
    ensures db.Snapshot() == old(db.Snapshot()).(images := db.images, pathIndex := db.pathIndex, annotations := db.annotations)
    ensures Extends(old(db.images), db.images) && Extends(old(db.annotations), db.annotations)
    ensures g.rels == old(g.rels) && Extends(old(g.nodes), g.nodes)
    ensures DetermineAnnotationJson(group).Err? ==> r == Err(NullPointer)
    ensures r.Ok? ==>
              && group.imageFile.value.originalFilename == Some(r.value.originalFilename)
              && DetermineAnnotationJson(group).Ok?
              && SavedImage(r.value, DetermineAnnotationJson(group).value, folder, user.id, old(db.images),
                            db.images, db.annotations, g.nodes)
              && db.images == old(db.images)[r.value.id := r.value]
              && NewOnlyFor(old(db.annotations), db.annotations, {r.value.id})
              && g.nodes == old(g.nodes)[r.value.storagePath := CreatedNodeProps(OwnershipRequest(folder), folder)]
              && r.value.storagePath !in old(g.nodes)
              && LegacyMayAccess(folder, user, Write, db.members)
  {
    var json := DetermineAnnotationJson(group);
    if json.Err? {
      return Err(json.code);
    }
    var file := group.imageFile.value;
    r := SaveImageAndAnnotation(db, g, folder, file.originalFilename.value, json.value, user, uuid);
  }

  /** The keys, in visiting order, whose group has an image file. */
  function WithImageFile(groups: map<string, Group>, keys: seq<string>): (r: seq<string>)
    requires forall k | k in keys :: k in groups
    ensures |r| <= |keys|
    ensures forall j | 0 <= j < |r| :: r[j] in groups && groups[r[j]].imageFile.Some?
    decreases |keys|
  {
    if |keys| == 0 then []
    else
      var last := keys[|keys| - 1];
      WithImageFile(groups, keys[..|keys| - 1]) + (if groups[last].imageFile.Some? then [last] else [])
  }

  /** Exactly the visited keys whose group has an image file are kept. */
  lemma {:induction false} WithImageFileMembers(groups: map<string, Group>, keys: seq<string>)
    requires forall k | k in keys :: k in groups
    ensures forall b :: b in WithImageFile(groups, keys) <==> b in keys && groups[b].imageFile.Some?
    decreases |keys|
  {
    if |keys| > 0 {
      WithImageFileMembers(groups, keys[..|keys| - 1]);
      assert keys == keys[..|keys| - 1] + [keys[|keys| - 1]];
    }
  }

  lemma {:induction false} WithImageFileDistinct(groups: map<string, Group>, keys: seq<string>)
    requires forall k | k in keys :: k in groups
    requires forall i, j | 0 <= i < j < |keys| :: keys[i] != keys[j]
    ensures forall i, j | 0 <= i < j < |WithImageFile(groups, keys)| :: WithImageFile(groups, keys)[i] != WithImageFile(groups, keys)[j]
    decreases |keys|
  {
    if |keys| > 0 {
      var init := keys[..|keys| - 1];
      WithImageFileDistinct(groups, init);
      WithImageFileMembers(groups, init);
      var last := keys[|keys| - 1];
      assert last !in init;
      assert last !in WithImageFile(groups, init);
    }
  }

  lemma WithImageFileStep(groups: map<string, Group>, keys: seq<string>, i: nat)
    requires i < |keys| && forall k | k in keys :: k in groups
    ensures WithImageFile(groups, keys[..i + 1]) ==
              WithImageFile(groups, keys[..i]) + (if groups[keys[i]].imageFile.Some? then [keys[i]] else [])
  {
    assert keys[..i + 1][..i] == keys[..i];
  }

  /** What saving one image leaves behind: a new row of the folder by the user, the graph node
      of its storage path holding the folder's ownership properties, and an annotation with
      the document `json`, edited by the user. */
  predicate SavedImage(x: Image, json: JsonDoc, folder: Folder, userId: Id, before: map<Id, Image>,
                       images: map<Id, Image>, annotations: map<Id, Annotation>, nodes: map<string, Props>) {
    && x.folderId == folder.id && x.uploaderId == userId
    && x.id !in before && x.id in images && images[x.id] == x
    && x.storagePath in nodes && nodes[x.storagePath] == CreatedNodeProps(OwnershipRequest(folder), folder)
    && exists a | a in annotations :: annotations[a] == Annotation(a, x.id, json, userId)
  }

  /** Each image of `saved` was saved from the group of its base name, with that group's
      annotation document. */
  predicate Stored(groups: map<string, Group>, saved: seq<Image>, folder: Folder, userId: Id, before: map<Id, Image>,
                   images: map<Id, Image>, annotations: map<Id, Annotation>, nodes: map<string, Props>) {
    forall x | x in saved ::
      && BaseName(x.originalFilename) in groups
      && DetermineAnnotationJson(groups[BaseName(x.originalFilename)]).Ok?
      && SavedImage(x, DetermineAnnotationJson(groups[BaseName(x.originalFilename)]).value, folder, userId, before,
                    images, annotations, nodes)
  }

  /** A saved image stays saved while the tables and the graph only grow. */
  lemma SavedImageGrows(x: Image, json: JsonDoc, folder: Folder, userId: Id, before: map<Id, Image>,
                        images: map<Id, Image>, annotations: map<Id, Annotation>, nodes: map<string, Props>,
                        images': map<Id, Image>, annotations': map<Id, Annotation>, nodes': map<string, Props>)
    requires SavedImage(x, json, folder, userId, before, images, annotations, nodes)
    requires Extends(images, images') && Extends(annotations, annotations') && Extends(nodes, nodes')
    ensures SavedImage(x, json, folder, userId, before, images', annotations', nodes')
  {
    var a :| a in annotations && annotations[a] == Annotation(a, x.id, json, userId);
    assert a in annotations' && annotations'[a] == annotations[a];
  }

  lemma StoredGrows(groups: map<string, Group>, saved: seq<Image>, folder: Folder, userId: Id, before: map<Id, Image>,
                    images: map<Id, Image>, annotations: map<Id, Annotation>, nodes: map<string, Props>,
                    images': map<Id, Image>, annotations': map<Id, Annotation>, nodes': map<string, Props>, x: Image)
    requires Stored(groups, saved, folder, userId, before, images, annotations, nodes)
    requires Extends(images, images') && Extends(annotations, annotations') && Extends(nodes, nodes')
    requires BaseName(x.originalFilename) in groups && DetermineAnnotationJson(groups[BaseName(x.originalFilename)]).Ok?
    requires SavedImage(x, DetermineAnnotationJson(groups[BaseName(x.originalFilename)]).value, folder, userId, before,
                        images', annotations', nodes')
    ensures Stored(groups, saved + [x], folder, userId, before, images', annotations', nodes')
  {
    forall y | y in saved
      ensures SavedImage(y, DetermineAnnotationJson(groups[BaseName(y.originalFilename)]).value, folder, userId, before,
                         images', annotations', nodes')
    {
      SavedImageGrows(y, DetermineAnnotationJson(groups[BaseName(y.originalFilename)]).value, folder, userId, before,
                      images, annotations, nodes, images', annotations', nodes');
    }
  }

  /** The ids of saved images. */
  function IdsOf(saved: seq<Image>): set<Id> {
    set x | x in saved :: x.id
  }

  lemma IdsOfAppend(saved: seq<Image>, x: Image)
    ensures IdsOf(saved + [x]) == IdsOf(saved) + {x.id}
  {
    assert x in saved + [x];
  }

  /** The storage paths of saved images: the graph nodes their saving adds. */
  function SavedPaths(saved: seq<Image>): set<string> {
    set x | x in saved :: x.storagePath
  }

  lemma SavedPathsAppend(saved: seq<Image>, x: Image)
    ensures SavedPaths(saved + [x]) == SavedPaths(saved) + {x.storagePath}
  {
    assert x in saved + [x];
  }

  /** Every annotation that `after` holds beyond `before` belongs to one of the images `ids`. */
  predicate NewOnlyFor(before: map<Id, Annotation>, after: map<Id, Annotation>, ids: set<Id>) {
    forall a | a in after && a !in before :: after[a].imageId in ids
  }

  lemma NewOnlyForAdd(before: map<Id, Annotation>, a: Id, v: Annotation, ids: set<Id>)
    requires v.imageId in ids
    ensures NewOnlyFor(before, before[a := v], ids)
  {
  }

  /** The annotations and nodes one more saved image adds keep to the saved images. */
  lemma FramesStep(results: seq<Image>, x: Image,
                   annotationsBefore: map<Id, Annotation>, annotations0: map<Id, Annotation>, annotations1: map<Id, Annotation>,
                   nodesBefore: map<string, Props>, nodes0: map<string, Props>, nodes1: map<string, Props>, p: Props)
    requires NewOnlyFor(annotationsBefore, annotations0, IdsOf(results)) && Extends(annotations0, annotations1)
    requires NewOnlyFor(annotations0, annotations1, {x.id})
    requires nodes0.Keys == nodesBefore.Keys + SavedPaths(results) && nodes1 == nodes0[x.storagePath := p]
    ensures NewOnlyFor(annotationsBefore, annotations1, IdsOf(results + [x]))
    ensures nodes1.Keys == nodesBefore.Keys + SavedPaths(results + [x])
  {
    IdsOfAppend(results, x);
    SavedPathsAppend(results, x);
  }

  /** The j-th saved image carries the name of the image file of the j-th named group. */
  predicate NamedAfter(groups: map<string, Group>, named: seq<string>, images: seq<Image>) {
    && |images| == |named|
    && (forall j | 0 <= j < |named| :: named[j] in groups && groups[named[j]].imageFile.Some?)
    && forall j | 0 <= j < |named| :: groups[named[j]].imageFile.value.originalFilename == Some(images[j].originalFilename)
  }

  lemma NamedAfterAppend(groups: map<string, Group>, named: seq<string>, images: seq<Image>, key: string, image: Image)
    requires NamedAfter(groups, named, images)
    requires key in groups && groups[key].imageFile.Some?
    requires groups[key].imageFile.value.originalFilename == Some(image.originalFilename)
    ensures NamedAfter(groups, named + [key], images + [image])
  {
  }

  /** Visiting every group once and keeping those with an image file visits each image file
      exactly once. */
  lemma VisitedImageGroups(groups: map<string, Group>, keys: seq<string>)
    requires forall x :: x in keys <==> x in groups
    requires forall i, j | 0 <= i < j < |keys| :: keys[i] != keys[j]
    ensures |WithImageFile(groups, keys)| == |ImageFiles(groups)|
    ensures forall b :: b in WithImageFile(groups, keys) <==> b in ImageFiles(groups)
  {
    var named := WithImageFile(groups, keys);
    WithImageFileMembers(groups, keys);
    WithImageFileDistinct(groups, keys);
    DistinctCard(named);
    assert (set b | b in named) == ImageFiles(groups).Keys;
  }

  /** The bookkeeping of one turn of the saving loop: the image saved from the group of `key`
      joins the results. */
  lemma SaveStep(groups: map<string, Group>, key: string, named: seq<string>, results: seq<Image>, x: Image,
                 folder: Folder, userId: Id, imagesBefore: map<Id, Image>,
                 images0: map<Id, Image>, annotations0: map<Id, Annotation>, nodes0: map<string, Props>,
                 images1: map<Id, Image>, annotations1: map<Id, Annotation>, nodes1: map<string, Props>)
    requires key in groups && groups[key].imageFile.Some? && InGroup(groups[key].imageFile.value, key, ImageKind)
    requires groups[key].imageFile.value.originalFilename == Some(x.originalFilename)
    requires NamedAfter(groups, named, results)
    requires images0.Keys == imagesBefore.Keys + IdsOf(results)
    requires Stored(groups, results, folder, userId, imagesBefore, images0, annotations0, nodes0)
    requires Extends(annotations0, annotations1) && Extends(nodes0, nodes1)
    requires images1 == images0[x.id := x]
    requires DetermineAnnotationJson(groups[key]).Ok?
    requires x.id !in images0
    requires SavedImage(x, DetermineAnnotationJson(groups[key]).value, folder, userId, images0, images1, annotations1, nodes1)
    requires Extends(imagesBefore, images0)
    ensures NamedAfter(groups, named + [key], results + [x])
    ensures images1.Keys == imagesBefore.Keys + IdsOf(results + [x])
    ensures Stored(groups, results + [x], folder, userId, imagesBefore, images1, annotations1, nodes1)
  {
    NamedAfterAppend(groups, named, results, key, x);
    assert BaseName(x.originalFilename) == key;
    assert x.id !in imagesBefore;
    assert Extends(images0, images1);
    StoredGrows(groups, results, folder, userId, imagesBefore, images0, annotations0, nodes0,
                images1, annotations1, nodes1, x);
    IdsOfAppend(results, x);
  }

  /** The body of the saving loop for the group of `key`, which has an image file: the saved
      image joins the results. `imagesBefore`, `annotationsBefore` and `nodesBefore` are the
      tables and nodes the loop started from. */
  method SaveNext(db: Database, g: GraphStore, folder: Folder, groups: map<string, Group>, key: string, user: User,
                  uuid: string, results: seq<Image>, ghost named: seq<string>, ghost imagesBefore: map<Id, Image>,
                  ghost annotationsBefore: map<Id, Annotation>, ghost nodesBefore: map<string, Props>)
    returns (r: Result<seq<Image>>)
    requires db.Valid() && g.Valid()
    requires folder.id in db.folders && db.folders[folder.id] == folder
    requires key in groups && groups[key].imageFile.Some? && InGroup(groups[key].imageFile.value, key, ImageKind)
    requires Extends(imagesBefore, db.images) && Extends(annotationsBefore, db.annotations) && Extends(nodesBefore, g.nodes)
    requires db.images.Keys == imagesBefore.Keys + IdsOf(results)
    requires NamedAfter(groups, named, results)
    requires Stored(groups, results, folder, user.id, imagesBefore, db.images, db.annotations, g.nodes)
    requires NewOnlyFor(annotationsBefore, db.annotations, IdsOf(results))
    requires g.nodes.Keys == nodesBefore.Keys + SavedPaths(results)
    modifies db, g
    ensures db.Valid() && g.Valid() && old(db.nextId) <= db.nextId
    ensures db.Snapshot() == old(db.Snapshot()).(images := db.images, pathIndex := db.pathIndex, annotations := db.annotations)
    ensures Extends(imagesBefore, db.images) && Extends(annotationsBefore, db.annotations) && Extends(nodesBefore, g.nodes)
    ensures g.rels == old(g.rels)
    ensures r.Ok? ==> NamedAfter(groups, named + [key], r.value)
    ensures r.Ok? ==> db.images.Keys == imagesBefore.Keys + IdsOf(r.value)
    ensures r.Ok? ==> Stored(groups, r.value, folder, user.id, imagesBefore, db.images, db.annotations, g.nodes)
    ensures r.Ok? ==> NewOnlyFor(annotationsBefore, db.annotations, IdsOf(r.value))
    ensures r.Ok? ==> g.nodes.Keys == nodesBefore.Keys + SavedPaths(r.value)
    ensures r.Ok? ==> LegacyMayAccess(folder, user, Write, db.members)
  {
    ghost var images0, annotations0, nodes0 := db.images, db.annotations, g.nodes;
    var saved := SaveGroup(db, g, folder, groups[key], user, uuid);
    ExtendsTransitive(imagesBefore, images0, db.images);
    ExtendsTransitive(annotationsBefore, annotations0, db.annotations);
    ExtendsTransitive(nodesBefore, nodes0, g.nodes);
    if saved.Err? {
      return Err(saved.code);
    }
    SaveStep(groups, key, named, results, saved.value, folder, user.id, imagesBefore, images0, annotations0, nodes0,
             db.images, db.annotations, g.nodes);
    FramesStep(results, saved.value, annotationsBefore, annotations0, db.annotations, nodesBefore, nodes0, g.nodes,
               CreatedNodeProps(OwnershipRequest(folder), folder));
    r := Ok(results + [saved.value]);
  }

  /** The second loop of uploadImagesWithAnnotationsBatch: the groups are visited in the order
      of `keys`, and each one with an image file is saved; the random prefix of the i-th group
      visited is uuids(i). The first failure stops the loop; rolling back is the caller's. */
  method SaveGroups(db: Database, g: GraphStore, folder: Folder, groups: map<string, Group>, keys: seq<string>,
                    user: User, uuids: nat -> string) returns (r: Result<seq<Image>>)
    requires db.Valid() && g.Valid()
    requires folder.id in db.folders && db.folders[folder.id] == folder
    requires forall k | k in keys :: k in groups
    requires forall b | b in groups && groups[b].imageFile.Some? :: InGroup(groups[b].imageFile.value, b, ImageKind)
    modifies db, g
    ensures db.Valid() && g.Valid() && old(db.nextId) <= db.nextId
    ensures db.Snapshot() == old(db.Snapshot()).(images := db.images, pathIndex := db.pathIndex, annotations := db.annotations)
    ensures Extends(old(db.images), db.images) && Extends(old(db.annotations), db.annotations)
    ensures g.rels == old(g.rels) && Extends(old(g.nodes), g.nodes)
    ensures r.Ok? ==> |r.value| == |WithImageFile(groups, keys)|
    ensures r.Ok? ==> forall j | 0 <= j < |r.value| ::
              groups[WithImageFile(groups, keys)[j]].imageFile.value.originalFilename == Some(r.value[j].originalFilename)
    ensures r.Ok? ==> db.images.Keys == old(db.images).Keys + IdsOf(r.value)
    ensures r.Ok? ==> Stored(groups, r.value, folder, user.id, old(db.images), db.images, db.annotations, g.nodes)
    ensures r.Ok? ==> NewOnlyFor(old(db.annotations), db.annotations, IdsOf(r.value))
    ensures r.Ok? ==> g.nodes.Keys == old(g.nodes).Keys + SavedPaths(r.value)
    ensures r.Ok? && |r.value| == 0 ==> db.Snapshot() == old(db.Snapshot()) && g.nodes == old(g.nodes)
    ensures r.Ok? && |r.value| > 0 ==> LegacyMayAccess(folder, user, Write, old(db.members))
  {
    var results: seq<Image> := [];
    ghost var named: seq<string> := [];
    var i := 0;
    while i < |keys|
      invariant 0 <= i <= |keys|
      invariant db.Valid() && g.Valid() && old(db.nextId) <= db.nextId
      invariant db.Snapshot() == old(db.Snapshot()).(images := db.images, pathIndex := db.pathIndex, annotations := db.annotations)
      invariant Extends(old(db.images), db.images) && Extends(old(db.annotations), db.annotations)
      invariant g.rels == old(g.rels) && Extends(old(g.nodes), g.nodes)
      invariant named == WithImageFile(groups, keys[..i])
      invariant NamedAfter(groups, named, results)
      invariant db.images.Keys == old(db.images).Keys + IdsOf(results)
      invariant Stored(groups, results, folder, user.id, old(db.images), db.images, db.annotations, g.nodes)
      invariant NewOnlyFor(old(db.annotations), db.annotations, IdsOf(results))
      invariant g.nodes.Keys == old(g.nodes).Keys + SavedPaths(results)
      invariant |results| == 0 ==> db.Snapshot() == old(db.Snapshot()) && g.nodes == old(g.nodes)
      invariant |results| > 0 ==> LegacyMayAccess(folder, user, Write, db.members)
    {
      var key := keys[i];
      WithImageFileStep(groups, keys, i);
      if groups[key].imageFile.Some? {
        var next := SaveNext(db, g, folder, groups, key, user, uuids(i), results, named,
                             old(db.images), old(db.annotations), old(g.nodes));
        if next.Err? {
          return Err(next.code);
        }
        results := next.value;
        named := named + [key];
      }
      i := i + 1;
    }
    assert keys[..i] == keys;
    r := Ok(results);
  }

  /** The original names of saved images. */
  function SavedNames(saved: seq<Image>): set<string> {
    set x | x in saved :: x.originalFilename
  }

  /** The original names of image files. */
  function FileNames(m: map<string, UploadFile>): set<string> {
    set b | b in m && m[b].originalFilename.Some? :: m[b].originalFilename.value
  }

  /** Each visited image file has a saved image of its name. */
  lemma EveryImageFileSaved(groups: map<string, Group>, keys: seq<string>, images: seq<Image>)
    requires forall x :: x in keys <==> x in groups
    requires forall b :: b in WithImageFile(groups, keys) <==> b in ImageFiles(groups)
    requires |images| == |WithImageFile(groups, keys)|
    requires forall j | 0 <= j < |images| ::
               groups[WithImageFile(groups, keys)[j]].imageFile.value.originalFilename == Some(images[j].originalFilename)
    ensures FileNames(ImageFiles(groups)) <= SavedNames(images)
  {
    var named := WithImageFile(groups, keys);
    forall n | n in FileNames(ImageFiles(groups))
      ensures n in SavedNames(images)
    {
      var b :| b in ImageFiles(groups) && ImageFiles(groups)[b].originalFilename == Some(n);
      var j :| 0 <= j < |named| && named[j] == b;
      assert images[j] in images;
    }
  }

  /** Each saved image is named after a visited image file. */
  lemma EverySavedImageFiled(groups: map<string, Group>, keys: seq<string>, images: seq<Image>)
    requires forall x :: x in keys <==> x in groups
    requires forall b :: b in WithImageFile(groups, keys) <==> b in ImageFiles(groups)
    requires |images| == |WithImageFile(groups, keys)|
    requires forall j | 0 <= j < |images| ::
               groups[WithImageFile(groups, keys)[j]].imageFile.value.originalFilename == Some(images[j].originalFilename)
    ensures SavedNames(images) <= FileNames(ImageFiles(groups))
  {
    var named := WithImageFile(groups, keys);
    forall n | n in SavedNames(images)
      ensures n in FileNames(ImageFiles(groups))
    {
      var j :| 0 <= j < |images| && images[j].originalFilename == n;
      assert named[j] in named;
    }
  }

  /** Saving the groups in the order of an enumeration of all keys saves each image file once. */
  lemma ListedImageFiles(groups: map<string, Group>, keys: seq<string>, images: seq<Image>)
    requires forall x :: x in keys <==> x in groups
    requires forall i, j | 0 <= i < j < |keys| :: keys[i] != keys[j]
    requires |images| == |WithImageFile(groups, keys)|
    requires forall j | 0 <= j < |images| ::
               groups[WithImageFile(groups, keys)[j]].imageFile.value.originalFilename == Some(images[j].originalFilename)
    ensures |images| == |ImageFiles(groups)| && SavedNames(images) == FileNames(ImageFiles(groups))
  {
    VisitedImageGroups(groups, keys);
    EveryImageFileSaved(groups, keys, images);
    EverySavedImageFiled(groups, keys, images);
  }

  /** The grouping and saving part of the batch. */
  method SaveFiles(db: Database, g: GraphStore, folder: Folder, files: seq<UploadFile>, user: User, uuids: nat -> string)
    returns (r: Result<seq<Image>>)
    requires db.Valid() && g.Valid()
    requires folder.id in db.folders && db.folders[folder.id] == folder
    modifies db, g
    ensures db.Valid() && g.Valid() && old(db.nextId) <= db.nextId
    ensures db.Snapshot() == old(db.Snapshot()).(images := db.images, pathIndex := db.pathIndex, annotations := db.annotations)
    ensures Extends(old(db.images), db.images) && Extends(old(db.annotations), db.annotations)
    ensures g.rels == old(g.rels) && Extends(old(g.nodes), g.nodes)
    ensures r.Ok? ==> |r.value| == |ImageFiles(Fold(files))| && SavedNames(r.value) == FileNames(ImageFiles(Fold(files)))
    ensures r.Ok? ==> db.images.Keys == old(db.images).Keys + IdsOf(r.value)
    ensures r.Ok? ==> Stored(Fold(files), r.value, folder, user.id, old(db.images), db.images, db.annotations, g.nodes)
    ensures r.Ok? ==> NewOnlyFor(old(db.annotations), db.annotations, IdsOf(r.value))
    ensures r.Ok? ==> g.nodes.Keys == old(g.nodes).Keys + SavedPaths(r.value)
    ensures r.Ok? && |r.value| == 0 ==> db.Snapshot() == old(db.Snapshot()) && g.nodes == old(g.nodes)
    ensures r.Ok? && |r.value| > 0 ==> LegacyMayAccess(folder, user, Write, old(db.members))
  {
    var groups := GroupFiles(files);
    FoldImagesInGroup(files);
    var keys := Enumerate(groups.Keys);
    r := SaveGroups(db, g, folder, groups, keys, user, uuids);
    if r.Ok? {
      ListedImageFiles(groups, keys, r.value);
    }
  }

  /** uploadImagesWithAnnotationsBatch (and uploadImagesBatch, which is the same call with an
      empty class map). The folder gate is the four-space WRITE check; every group with an
      image file is then saved, in the unspecified order of the group map, so the images saved
      are those of ImageFiles(Fold(files)), one per base name. Any failure rolls the tables
      back. Because each save also passes the legacy three-space check of createNode, only a
      platform admin with legacy access to a folder tagged "organization" or "private" can get
      an image in. */
  method UploadImagesWithAnnotationsBatch(db: Database, g: GraphStore, folderId: Id, files: seq<UploadFile>,
                                          user: User, uuids: nat -> string) returns (r: Result<seq<Image>>)
    requires db.Valid() && g.Valid()
    modifies db, g
    ensures db.Valid() && g.Valid() && old(db.nextId) <= db.nextId
    ensures folderId !in old(db.folders) ==> r == Err(NotFound) && db.Snapshot() == old(db.Snapshot()) && g.nodes == old(g.nodes)
    ensures folderId in old(db.folders) && CheckFolderPermission(old(db.folders)[folderId], Some(user), Write, old(db.members)).Fail? ==>
              r == Err(CheckFolderPermission(old(db.folders)[folderId], Some(user), Write, old(db.members)).code) &&
              db.Snapshot() == old(db.Snapshot()) && g.nodes == old(g.nodes)
    ensures r.Err? ==> db.Snapshot() == old(db.Snapshot())
    ensures g.rels == old(g.rels) && Extends(old(g.nodes), g.nodes)
    ensures r.Ok? ==> folderId in old(db.folders) && CheckFolderPermission(old(db.folders)[folderId], Some(user), Write, old(db.members)).Pass?
    ensures r.Ok? ==> |r.value| == |ImageFiles(Fold(files))| && SavedNames(r.value) == FileNames(ImageFiles(Fold(files)))
    ensures r.Ok? ==> db.Snapshot() == old(db.Snapshot()).(images := db.images, pathIndex := db.pathIndex, annotations := db.annotations)
    ensures r.Ok? ==> Extends(old(db.images), db.images) && Extends(old(db.annotations), db.annotations)
    ensures r.Ok? ==> db.images.Keys == old(db.images).Keys + IdsOf(r.value)
    ensures r.Ok? ==> Stored(Fold(files), r.value, old(db.folders)[folderId], user.id, old(db.images), db.images, db.annotations, g.nodes)
    ensures r.Ok? ==> NewOnlyFor(old(db.annotations), db.annotations, IdsOf(r.value))
    ensures r.Ok? ==> g.nodes.Keys == old(g.nodes).Keys + SavedPaths(r.value)
    ensures r.Ok? && |r.value| == 0 ==> db.Snapshot() == old(db.Snapshot()) && g.nodes == old(g.nodes)
    ensures r.Ok? && |r.value| > 0 ==>
              IsPlatformAdmin(user) && LegacyMayAccess(old(db.folders)[folderId], user, Write, old(db.members))
  {
    if folderId !in db.folders {
      return Err(NotFound);
    }
    var folder := db.folders[folderId];
    var gate := CheckFolderPermission(folder, Some(user), Write, db.members);
    if gate.Fail? {
      return Err(gate.code);
    }
    ghost var members := db.members;
    var start := db.Snapshot();
    r := SaveFiles(db, g, folder, files, user, uuids);
    if r.Err? {
      db.Restore(start);
    } else if |r.value| > 0 {
      assert LegacyMayAccess(folder, user, Write, members);
      if !IsPlatformAdmin(user) {
        NoNonAdminPassesBothChecks(folder, user, members);
        assert false;
      }
    }
  }

  /** The one group of a single image file has neither a JSON nor a YOLO file, so its
      annotation document is empty. */
  lemma SingleFileDocument(file: UploadFile)
    requires |ImageFiles(Fold([file]))| > 0
    ensures Groupable(file) && KindOfName(file.originalFilename.value) == ImageKind
    ensures |ImageFiles(Fold([file]))| == 1 && FileNames(ImageFiles(Fold([file]))) == {file.originalFilename.value}
    ensures BaseName(file.originalFilename.value) in Fold([file])
    ensures DetermineAnnotationJson(Fold([file])[BaseName(file.originalFilename.value)]) == Ok(map[])
  {
    SingleFileImages(file);
  }

  /** A batch that saved one image of the given name, from a group whose annotation document
      is empty, saved it with that document. */
  lemma SingleSaved(name: string, groups: map<string, Group>, saved: seq<Image>, folder: Folder, userId: Id,
                    before: map<Id, Image>, images: map<Id, Image>, annotations: map<Id, Annotation>,
                    nodes: map<string, Props>)
    requires |saved| == 1 && SavedNames(saved) == {name}
    requires BaseName(name) in groups && DetermineAnnotationJson(groups[BaseName(name)]) == Ok(map[])
    requires Stored(groups, saved, folder, userId, before, images, annotations, nodes)
    requires images.Keys == before.Keys + IdsOf(saved) && Extends(before, images)
    ensures saved[0].originalFilename == name
    ensures SavedImage(saved[0], map[], folder, userId, before, images, annotations, nodes)
    ensures images == before[saved[0].id := saved[0]]
  {
    var x := saved[0];
    OneSaved(saved, name);
    StoredOne(name, groups, x, folder, userId, before, images, annotations, nodes);
    MapFromKeys(images, before, x.id, x);
  }

  lemma OneSaved(saved: seq<Image>, name: string)
    requires |saved| == 1 && SavedNames(saved) == {name}
    ensures saved == [saved[0]] && saved[0].originalFilename == name && IdsOf(saved) == {saved[0].id}
  {
    assert saved[0].originalFilename in SavedNames(saved);
  }

  lemma StoredOne(name: string, groups: map<string, Group>, x: Image, folder: Folder, userId: Id,
                  before: map<Id, Image>, images: map<Id, Image>, annotations: map<Id, Annotation>,
                  nodes: map<string, Props>)
    requires x.originalFilename == name
    requires BaseName(name) in groups && DetermineAnnotationJson(groups[BaseName(name)]) == Ok(map[])
    requires Stored(groups, [x], folder, userId, before, images, annotations, nodes)
    ensures SavedImage(x, map[], folder, userId, before, images, annotations, nodes)
  {
    assert x in [x];
  }

  /** A map that holds one new entry and extends another is the other with that entry. */
  lemma MapFromKeys<K, V>(m: map<K, V>, before: map<K, V>, k: K, v: V)
    requires m.Keys == before.Keys + {k} && Extends(before, m) && k in m && m[k] == v
    ensures m == before[k := v]
  {
  }

  /** A batch that saved one image added exactly its node, and annotations of that image only. */
  lemma SingleFrames(saved: seq<Image>, nodesBefore: map<string, Props>, nodes: map<string, Props>, p: Props,
                     annotationsBefore: map<Id, Annotation>, annotations: map<Id, Annotation>)
    requires |saved| == 1
    requires nodes.Keys == nodesBefore.Keys + SavedPaths(saved) && Extends(nodesBefore, nodes)
    requires saved[0].storagePath in nodes && nodes[saved[0].storagePath] == p
    requires NewOnlyFor(annotationsBefore, annotations, IdsOf(saved))
    ensures nodes == nodesBefore[saved[0].storagePath := p]
    ensures NewOnlyFor(annotationsBefore, annotations, {saved[0].id})
  {
    assert saved == [saved[0]];
    assert SavedPaths(saved) == {saved[0].storagePath};
    assert IdsOf(saved) == {saved[0].id};
    MapFromKeys(nodes, nodesBefore, saved[0].storagePath, p);
  }

  /** uploadImage: a one-file batch; a file that yields no image (no name, a blank base name,
      or not an image extension) is OPERATION_ERROR. */
  method UploadImage(db: Database, g: GraphStore, folderId: Id, file: UploadFile, user: User, uuids: nat -> string)
    returns (r: Result<Image>)
    requires db.Valid() && g.Valid()
    modifies db, g
    ensures db.Valid() && g.Valid() && old(db.nextId) <= db.nextId
    ensures r.Err? ==> db.Snapshot() == old(db.Snapshot())
    ensures r.Ok? ==>
              && file.originalFilename == Some(r.value.originalFilename)
              && KindOfName(r.value.originalFilename) == ImageKind
              && r.value.folderId == folderId && r.value.uploaderId == user.id
              && r.value.id !in old(db.images) && r.value.id in db.images && db.images[r.value.id] == r.value
              && IsPlatformAdmin(user)
    ensures r.Ok? ==>
              && folderId in old(db.folders)
              && SavedImage(r.value, map[], old(db.folders)[folderId], user.id, old(db.images),
                            db.images, db.annotations, g.nodes)
              && db.images == old(db.images)[r.value.id := r.value]
              && db.Snapshot() == old(db.Snapshot()).(images := db.images, pathIndex := db.pathIndex, annotations := db.annotations)
    ensures g.rels == old(g.rels)
    ensures r.Ok? ==>
              && g.nodes == old(g.nodes)[r.value.storagePath :=
                                           CreatedNodeProps(OwnershipRequest(old(db.folders)[folderId]), old(db.folders)[folderId])]
              && Extends(old(db.annotations), db.annotations)
              && NewOnlyFor(old(db.annotations), db.annotations, {r.value.id})
    ensures !Groupable(file) || KindOfName(file.originalFilename.value) != ImageKind ==> r.Err?
  {
    var start := db.Snapshot();
    var batch := UploadImagesWithAnnotationsBatch(db, g, folderId, [file], user, uuids);
    if batch.Err? {
      return Err(batch.code);
    }
    SingleFileImages(file);
    if |batch.value| == 0 {
      db.Restore(start);
      return Err(OperationError);
    }
    SingleFileDocument(file);
    SingleSaved(file.originalFilename.value, Fold([file]), batch.value, old(db.folders)[folderId], user.id,
                old(db.images), db.images, db.annotations, g.nodes);
    SingleFrames(batch.value, old(g.nodes), g.nodes, CreatedNodeProps(OwnershipRequest(old(db.folders)[folderId]), old(db.folders)[folderId]),
                 old(db.annotations), db.annotations);
    r := Ok(batch.value[0]);
  }

  // ---- Deletion ----

  /** deleteImage: an unknown id is a silent no-op. Otherwise WRITE on the image node, then the
      Images row and its annotations go, then the graph node goes through the graph service,
      which re-checks the node with the legacy check AFTER the row is gone: for a non-admin it
      finds no image, and the NOT_FOUND is re-thrown as SYSTEM_ERROR and rolls everything back. */
  method DeleteImage(db: Database, g: GraphStore, imageId: Id, user: User) returns (r: Outcome)
    requires db.Valid() && g.Valid()
    modifies db, g
    ensures db.Valid() && g.Valid() && db.nextId == old(db.nextId)
    ensures imageId !in old(db.images) ==>
              r == Pass && db.Snapshot() == old(db.Snapshot()) && g.nodes == old(g.nodes) && g.rels == old(g.rels)
    ensures imageId in old(db.images) ==>
              var path := old(db.images)[imageId].storagePath;
              var gate := CheckNodePermission(old(db.Snapshot()), path, Some(user), Write);
              && (gate.Fail? ==> r == gate && db.Snapshot() == old(db.Snapshot()) && g.nodes == old(g.nodes) && g.rels == old(g.rels))
              && (gate.Pass? && !IsPlatformAdmin(user) ==>
                    r == Fail(SystemError) && db.Snapshot() == old(db.Snapshot()) && g.nodes == old(g.nodes) && g.rels == old(g.rels))
              && (IsPlatformAdmin(user) ==>
                    && r == Pass
                    && db.Snapshot() == old(db.Snapshot()).(images := old(db.images) - {imageId},
                                                             pathIndex := old(db.pathIndex) - {path},
                                                             annotations := old(db.annotations) - AnnotationsOf(old(db.Snapshot()), imageId))
                    && g.nodes == old(g.nodes) - {path} && g.rels == WithoutNode(old(g.rels), path))
    ensures r == Pass && imageId in old(db.images) ==> IsPlatformAdmin(user)
    ensures r == Pass ==> db.images == old(db.images) - {imageId}
    ensures r == Pass && imageId in old(db.images) ==> old(db.images)[imageId].storagePath !in g.nodes
    ensures r.Fail? ==> db.Snapshot() == old(db.Snapshot())
    ensures g.nodes.Keys <= old(g.nodes).Keys
  {
    if imageId !in db.images {
      return Pass;
    }
    var start := db.Snapshot();
    var path := db.images[imageId].storagePath;
    var gate := CheckNodePermission(start, path, Some(user), Write);
    if gate.Fail? {
      return gate;
    }
    var annotations := AnnotationsOf(start, imageId);
    db.RemoveImage(imageId);
    db.RemoveAnnotations(annotations);
    assert ImageByPath(db.Snapshot(), path).None?;
    var deleted := g.DeleteNode(db.Snapshot(), path, user);
    if deleted.Err? {
      db.Restore(start);
      return Fail(SystemError);
    }
    r := Pass;
  }

  /** The storage paths of the listed images that exist: the graph nodes their deletion removes. */
  function PathsOfIds(t: Tables, ids: set<Id>): (r: set<string>)
    ensures forall k | k in ids && k in t.images :: t.images[k].storagePath in r
  {
    set k | k in ids && k in t.images :: t.images[k].storagePath
  }

  /** The annotation rows of the listed images that exist. */
  function AnnotationsOfIds(t: Tables, ids: set<Id>): (r: set<Id>)
    ensures forall a :: a in r <==> a in t.annotations && t.annotations[a].imageId in ids && t.annotations[a].imageId in t.images
  {
    set a | a in t.annotations && t.annotations[a].imageId in ids && t.annotations[a].imageId in t.images
  }

  /** The tables once deleteImage has removed each listed image that exists: its row, its
      storage-path entry and its annotations go; every other row of every table stays. */
  function WithoutImages(t: Tables, ids: set<Id>): Tables {
    t.(images := t.images - ids,
       pathIndex := t.pathIndex - PathsOfIds(t, ids),
       annotations := t.annotations - AnnotationsOfIds(t, ids))
  }

  /** Deleting no image changes nothing. */
  lemma WithoutNoImages(t: Tables)
    ensures WithoutImages(t, {}) == t && PathsOfIds(t, {}) == {}
  {
    assert t.images - {} == t.images;
    assert AnnotationsOfIds(t, {}) == {};
  }

  /** What one deleteImage call does, in terms of the set form: an unknown id changes nothing,
      a known one removes exactly its row, path and annotations. */
  lemma WithoutOneImage(t: Tables, id: Id)
    ensures id !in t.images ==> WithoutImages(t, {id}) == t && PathsOfIds(t, {id}) == {}
    ensures id in t.images ==>
              && PathsOfIds(t, {id}) == {t.images[id].storagePath}
              && WithoutImages(t, {id}) == t.(images := t.images - {id},
                                              pathIndex := t.pathIndex - {t.images[id].storagePath},
                                              annotations := t.annotations - AnnotationsOf(t, id))
  {
    if id !in t.images {
      assert t.images - {id} == t.images;
      assert AnnotationsOfIds(t, {id}) == {};
    } else {
      assert AnnotationsOfIds(t, {id}) == AnnotationsOf(t, id);
    }
  }

  /** Deleting two sets of images in turn is deleting their union, and removes the union of
      their nodes. */
  lemma WithoutImagesCompose(t: Tables, s: set<Id>, q: set<Id>)
    ensures WithoutImages(WithoutImages(t, s), q) == WithoutImages(t, s + q)
  {
    var mid := WithoutImages(t, s);
    assert mid.images - q == t.images - (s + q);
    PathsCompose(t, s, q);
    assert mid.pathIndex - PathsOfIds(mid, q) == t.pathIndex - PathsOfIds(t, s + q);
    assert mid.annotations - AnnotationsOfIds(mid, q) == t.annotations - AnnotationsOfIds(t, s + q);
  }

  /** The nodes removed by two deletions in turn are those of the union. */
  lemma PathsCompose(t: Tables, s: set<Id>, q: set<Id>)
    ensures PathsOfIds(t, s) + PathsOfIds(WithoutImages(t, s), q) == PathsOfIds(t, s + q)
  {
  }

  /** The node one deletion removes: the row's storage path, or none for an unknown id. */
  lemma OnePath(t: Tables, id: Id)
    ensures PathsOfIds(t, {id}) == if id in t.images then {t.images[id].storagePath} else {}
  {
  }

  /** One more deletion after a set of them, on the tables: an id with no row left changes
      nothing; otherwise exactly what one deleteImage removes. */
  lemma BatchStepTables(t0: Tables, removed: set<Id>, x: Id)
    ensures var t := WithoutImages(t0, removed);
            && (x !in t.images ==> WithoutImages(t0, removed + {x}) == t)
            && (x in t.images ==>
                  WithoutImages(t0, removed + {x}) == t.(images := t.images - {x},
                                                         pathIndex := t.pathIndex - {t.images[x].storagePath},
                                                         annotations := t.annotations - AnnotationsOf(t, x)))
    ensures x in t0.images && x !in removed ==> x in WithoutImages(t0, removed).images
  {
    WithoutImagesCompose(t0, removed, {x});
    WithoutOneImage(WithoutImages(t0, removed), x);
  }

  /** The same step on the graph: the node of the deleted row goes with its relationships. */
  lemma BatchStepGraph(t0: Tables, removed: set<Id>, x: Id, nodes0: map<string, Props>, rels0: seq<Rel>)
    ensures var t := WithoutImages(t0, removed);
            var nodes := nodes0 - PathsOfIds(t0, removed);
            var rels := WithoutNodes(rels0, PathsOfIds(t0, removed));
            && (x !in t.images ==>
                  nodes0 - PathsOfIds(t0, removed + {x}) == nodes && WithoutNodes(rels0, PathsOfIds(t0, removed + {x})) == rels)
            && (x in t.images ==>
                  && nodes0 - PathsOfIds(t0, removed + {x}) == nodes - {t.images[x].storagePath}
                  && WithoutNodes(rels0, PathsOfIds(t0, removed + {x})) == WithoutNode(rels, t.images[x].storagePath))
  {
    var t := WithoutImages(t0, removed);
    var p, q := PathsOfIds(t0, removed), PathsOfIds(t, {x});
    PathsCompose(t0, removed, {x});
    assert (nodes0 - p) - q == nodes0 - (p + q);
    WithoutNodesCompose(rels0, p, q);
    OnePath(t, x);
    var rels := WithoutNodes(rels0, p);
    if x in t.images {
      WithoutOneNode(rels, t.images[x].storagePath);
    } else {
      WithoutNoNodes(rels);
    }
  }

  /** One turn of the deleteImagesBatch loop: deleteImage after the ids in `removed` have
      been deleted from the tables `t0`, the nodes `nodes0` and the relationships `rels0`. */
  method DeleteNext(db: Database, g: GraphStore, imageId: Id, user: User,
                    ghost t0: Tables, ghost nodes0: map<string, Props>, ghost rels0: seq<Rel>, ghost removed: set<Id>)
    returns (r: Outcome)
    requires db.Valid() && g.Valid()
    requires db.Snapshot() == WithoutImages(t0, removed)
    requires g.nodes == nodes0 - PathsOfIds(t0, removed) && g.rels == WithoutNodes(rels0, PathsOfIds(t0, removed))
    modifies db, g
    ensures db.Valid() && g.Valid() && db.nextId == old(db.nextId)
    ensures r == Pass ==>
              && db.Snapshot() == WithoutImages(t0, removed + {imageId})
              && g.nodes == nodes0 - PathsOfIds(t0, removed + {imageId})
              && g.rels == WithoutNodes(rels0, PathsOfIds(t0, removed + {imageId}))
    ensures r == Pass && imageId in t0.images && imageId !in removed ==> IsPlatformAdmin(user)
    ensures IsPlatformAdmin(user) ==> r == Pass
    ensures g.nodes.Keys <= old(g.nodes).Keys && db.folders == old(db.folders)
  {
    BatchStepTables(t0, removed, imageId);
    BatchStepGraph(t0, removed, imageId, nodes0, rels0);
    r := DeleteImage(db, g, imageId, user);
  }

  /** The loop of deleteImagesBatch: each id is deleted in turn, stopping at the first failure.
      Rolling back is the caller's. */
  method DeleteEach(db: Database, g: GraphStore, ids: seq<Id>, user: User) returns (r: Outcome)
    requires db.Valid() && g.Valid()
    modifies db, g
    ensures db.Valid() && g.Valid() && db.nextId == old(db.nextId)
    ensures r == Pass ==>
              && db.Snapshot() == WithoutImages(old(db.Snapshot()), Elements(ids))
              && g.nodes == old(g.nodes) - PathsOfIds(old(db.Snapshot()), Elements(ids))
              && g.rels == WithoutNodes(old(g.rels), PathsOfIds(old(db.Snapshot()), Elements(ids)))
    ensures r == Pass && (exists k | k in ids :: k in old(db.images)) ==> IsPlatformAdmin(user)
    ensures IsPlatformAdmin(user) ==> r == Pass
    ensures g.nodes.Keys <= old(g.nodes).Keys && db.folders == old(db.folders)
  {
    ghost var t0 := db.Snapshot();
    ghost var removed: set<Id> := {};
    WithoutNoImages(t0);
    WithoutNoNodes(g.rels);
    var i := 0;
    while i < |ids|
      invariant 0 <= i <= |ids|
      invariant db.Valid() && g.Valid() && db.nextId == old(db.nextId)
      invariant removed == Elements(ids[..i])
      invariant db.Snapshot() == WithoutImages(t0, removed)
      invariant g.nodes == old(g.nodes) - PathsOfIds(t0, removed)
      invariant g.rels == WithoutNodes(old(g.rels), PathsOfIds(t0, removed))
      invariant g.nodes.Keys <= old(g.nodes).Keys && db.folders == old(db.folders)
      invariant (exists k | k in removed :: k in t0.images) ==> IsPlatformAdmin(user)
    {
      var deleted := DeleteNext(db, g, ids[i], user, t0, old(g.nodes), old(g.rels), removed);
      if deleted.Fail? {
        return deleted;
      }
      ElementsSnoc(ids, i);
      removed := removed + {ids[i]};
      i := i + 1;
    }
    assert ids[..i] == ids;
    r := Pass;
  }

  /** deleteImagesBatch: an empty id list is PARAMS_ERROR (a null request or list is modelled
      as empty); the deletions run in one transaction, so the first failure undoes the table
      changes of the earlier ones. On success every listed image that existed is gone with its
      annotations and its graph node; nothing else changes. */
  method DeleteImagesBatch(db: Database, g: GraphStore, ids: seq<Id>, user: User) returns (r: Outcome)
    requires db.Valid() && g.Valid()
    modifies db, g
    ensures db.Valid() && g.Valid() && db.nextId == old(db.nextId)
    ensures |ids| == 0 ==> r == Fail(ParamsError) && db.Snapshot() == old(db.Snapshot()) && g.nodes == old(g.nodes)
    ensures r.Fail? ==> db.Snapshot() == old(db.Snapshot())
    ensures r == Pass ==>
              && db.Snapshot() == WithoutImages(old(db.Snapshot()), Elements(ids))
              && g.nodes == old(g.nodes) - PathsOfIds(old(db.Snapshot()), Elements(ids))
              && g.rels == WithoutNodes(old(g.rels), PathsOfIds(old(db.Snapshot()), Elements(ids)))
    ensures r == Pass && (exists k | k in ids :: k in old(db.images)) ==> IsPlatformAdmin(user)
    ensures |ids| > 0 && IsPlatformAdmin(user) ==> r == Pass
    ensures g.nodes.Keys <= old(g.nodes).Keys && db.folders == old(db.folders)
  {
    if |ids| == 0 {
      return Fail(ParamsError);
    }
    var start := db.Snapshot();
    r := DeleteEach(db, g, ids, user);
    if r.Fail? {
      db.Restore(start);
    }
  }

  // ---- Reads and rename ----

  /** getImageVOById */
  function GetImageVOById(t: Tables, imageId: Id, user: User): (r: Result<Image>)
    ensures imageId !in t.images ==> r == Err(NotFound)
    ensures r.Ok? ==> imageId in t.images && r.value == t.images[imageId]
  {
    if imageId !in t.images then Err(NotFound)
    else
      var gate := CheckNodePermission(t, t.images[imageId].storagePath, Some(user), Read);
      if gate.Fail? then Err(gate.code) else Ok(t.images[imageId])
  }

  /** For a non-admin, reading an image by id is exactly READ on the folder that holds it. */
  lemma GetImageFollowsFolderGate(t: Tables, imageId: Id, u: User)
    requires Consistent(t) && imageId in t.images && !IsPlatformAdmin(u)
    ensures t.images[imageId].folderId !in t.folders ==> GetImageVOById(t, imageId, u) == Err(NotFound)
    ensures t.images[imageId].folderId in t.folders ==>
              (GetImageVOById(t, imageId, u).Ok? <==>
                 CheckFolderPermission(t.folders[t.images[imageId].folderId], Some(u), Read, t.members) == Pass)
  {
    NodeGateDelegates(t, t.images[imageId].storagePath, u, Read);
  }

  predicate OccursAt(s: string, part: string, i: int) {
    0 <= i <= |s| - |part| && s[i..i + |part|] == part
  }

  /** The keyword taken literally as a substring of the name: the `like` condition with
      `_` and `%` inside the keyword read as ordinary characters. */
  predicate Contains(s: string, part: string) {
    exists i | 0 <= i <= |s| - |part| :: OccursAt(s, part, i)
  }

  /** The rows listImagesByPage selects before paging: the folder's images, narrowed to file
      names containing the keyword when the keyword is not blank. */
  function ListImages(t: Tables, folderId: Id, keyword: Option<string>, user: User): (r: Result<set<Id>>)
    ensures folderId !in t.folders ==> r == Err(NotFound)
    ensures r.Ok? <==> folderId in t.folders && CheckFolderPermission(t.folders[folderId], Some(user), Read, t.members) == Pass
    ensures r.Ok? ==> forall k :: k in r.value <==>
              k in t.images && t.images[k].folderId == folderId &&
              (IsBlankOrNull(keyword) || Contains(t.images[k].originalFilename, keyword.value))
  {
    if folderId !in t.folders then Err(NotFound)
    else
      var gate := CheckFolderPermission(t.folders[folderId], Some(user), Read, t.members);
      if gate.Fail? then Err(gate.code)
      else Ok(set k | k in ImagesIn(t, folderId) &&
                      (IsBlankOrNull(keyword) || Contains(t.images[k].originalFilename, keyword.value)))
  }

  /** A blank keyword lists the whole folder. */
  lemma BlankKeywordListsFolder(t: Tables, folderId: Id, keyword: Option<string>, user: User)
    requires IsBlankOrNull(keyword) && ListImages(t, folderId, keyword, user).Ok?
    ensures ListImages(t, folderId, keyword, user).value == ImagesIn(t, folderId)
  {
  }

  /** updateImage: a non-blank new name replaces the original file name; nothing else changes,
      in particular not the storage path that names the graph node. */
  method UpdateImage(db: Database, imageId: Id, newName: Option<string>, user: User) returns (r: Result<Image>)
    requires db.Valid()
    modifies db
    ensures db.Valid() && db.nextId == old(db.nextId)
    ensures ImageNodeGate(old(db.Snapshot()), imageId, user, Write).Fail? ==>
              r == Err(ImageNodeGate(old(db.Snapshot()), imageId, user, Write).code) && db.Snapshot() == old(db.Snapshot())
    ensures ImageNodeGate(old(db.Snapshot()), imageId, user, Write).Pass? ==>
              var before := old(db.images)[imageId];
              var after := before.(originalFilename := if IsBlankOrNull(newName) then before.originalFilename else newName.value);
              r == Ok(after) && db.Snapshot() == old(db.Snapshot()).(images := old(db.images)[imageId := after])
  {
    var gate := ImageNodeGate(db.Snapshot(), imageId, user, Write);
    if gate.Fail? {
      return Err(gate.code);
    }
    var image := db.images[imageId];
    if !IsBlankOrNull(newName) {
      image := image.(originalFilename := newName.value);
    }
    db.UpdateImageRow(image);
    r := Ok(image);
  }

  /** The images of a folder with a given original file name. */
  function NamedIn(t: Tables, folderId: Id, filename: string): (r: set<Id>)
    ensures forall k :: k in r <==> k in t.images && t.images[k].folderId == folderId && t.images[k].originalFilename == filename
  {
    set k | k in t.images && t.images[k].folderId == folderId && t.images[k].originalFilename == filename
  }

  /** getImageVOByFolderAndName: getOne returns null for no row and throws for several. */
  method GetImageVOByFolderAndName(db: Database, folderId: Option<Id>, filename: Option<string>, user: User)
    returns (r: Result<Option<Image>>)
    requires db.Valid()
    ensures folderId.None? || IsBlankOrNull(filename) ==> r == Err(ParamsError)
    ensures folderId.Some? && !IsBlankOrNull(filename) && folderId.value !in db.folders ==> r == Err(NotFound)
    ensures folderId.Some? && !IsBlankOrNull(filename) && folderId.value in db.folders ==>
              var gate := CheckFolderPermission(db.folders[folderId.value], Some(user), Read, db.members);
              var named := NamedIn(db.Snapshot(), folderId.value, filename.value);
              && (gate.Fail? ==> r == Err(gate.code))
              && (gate.Pass? && |named| > 1 ==> r == Err(SystemError))
              && (gate.Pass? && named == {} ==> r == Ok(None))
              && (gate.Pass? && |named| == 1 ==>
                    r.Ok? && r.value.Some? && r.value.value.id in named && db.images[r.value.value.id] == r.value.value)
  {
    if folderId.None? || IsBlankOrNull(filename) {
      return Err(ParamsError);
    }
    if folderId.value !in db.folders {
      return Err(NotFound);
    }
    var gate := CheckFolderPermission(db.folders[folderId.value], Some(user), Read, db.members);
    if gate.Fail? {
      return Err(gate.code);
    }
    var named := NamedIn(db.Snapshot(), folderId.value, filename.value);
    if named == {} {
      return Ok(None);
    }
    if |named| > 1 {
      return Err(SystemError);
    }
    var k :| k in named;
    r := Ok(Some(db.images[k]));
  }
}
