/** The relational database behind the MyBatis-Plus mappers, as one mutable object.
    Each method is one mapper call (save, updateById, removeById, insert, delete) and
    keeps the table invariants of Entities.Consistent. */
module Store {
  import opened Common
  import opened Entities

  /** No row of any table uses this id. */
  ghost predicate IdFree(t: Tables, id: Id) {
    id !in t.folders && id !in t.images && id !in t.annotations && id !in t.organizations && id !in t.users
  }

  /** A new image under a free id and an unused storage path keeps the table invariants. */
  lemma InsertImageKeepsInvariants(t: Tables, img: Image, n: Id)
    requires Consistent(t) && IdsBelow(t, n) && IdFree(t, img.id) && img.id < n && img.storagePath !in t.pathIndex
    ensures var t' := t.(images := t.images[img.id := img], pathIndex := t.pathIndex[img.storagePath := img.id]);
      Consistent(t') && IdsBelow(t', n)
  {
    var t' := t.(images := t.images[img.id := img], pathIndex := t.pathIndex[img.storagePath := img.id]);
    forall p | p in t'.pathIndex
      ensures t'.pathIndex[p] in t'.images && t'.images[t'.pathIndex[p]].storagePath == p
    {
      if p != img.storagePath {
        assert t.pathIndex[p] != img.id;
      }
    }
    forall k | k in t'.images
      ensures t'.images[k].storagePath in t'.pathIndex && t'.pathIndex[t'.images[k].storagePath] == k
    {
      if k != img.id {
        assert t.images[k].storagePath != img.storagePath;
      }
    }
  }

  lemma UpdateImageKeepsInvariants(t: Tables, img: Image, n: Id)
    requires Consistent(t) && IdsBelow(t, n) && img.id in t.images && t.images[img.id].storagePath == img.storagePath
    ensures var t' := t.(images := t.images[img.id := img]);
      Consistent(t') && IdsBelow(t', n)
  {
    var t' := t.(images := t.images[img.id := img]);
    forall p | p in t'.pathIndex
      ensures t'.pathIndex[p] in t'.images && t'.images[t'.pathIndex[p]].storagePath == p
    {
      if t.pathIndex[p] == img.id {
        assert t.images[img.id].storagePath == p;
      }
    }
  }

  class Database {
    var folders: map<Id, Folder>
    var images: map<Id, Image>
    var pathIndex: map<string, Id>
    var annotations: map<Id, Annotation>
    var organizations: map<Id, Organization>
    var members: Members
    var users: map<Id, User>
    /** The next id the key generators hand out. */
    var nextId: Id

    function Snapshot(): Tables
      reads this
    {
      Tables(folders, images, pathIndex, annotations, organizations, members, users)
    }

    ghost predicate Valid()
      reads this
    {
      Consistent(Snapshot()) && IdsBelow(Snapshot(), nextId)
    }

    constructor ()
      ensures Valid() && Snapshot() == EmptyTables()
    {
      folders, images, pathIndex, annotations := map[], map[], map[], map[];
      organizations, members, users := map[], map[], map[];
      nextId := 0;
    }

    /** A fresh primary key (ASSIGN_UUID / ASSIGN_ID / AUTO). */
    method FreshId() returns (id: Id)
      requires Valid()
      modifies this`nextId
      ensures Valid()
      ensures IdFree(Snapshot(), id) && id == old(nextId) && nextId == old(nextId) + 1
    {
      id := nextId;
      nextId := nextId + 1;
    }

    /** Transaction rollback: every table goes back to the state s. */
    method Restore(s: Tables)
      requires Consistent(s) && IdsBelow(s, nextId)
      modifies this
      ensures Valid() && Snapshot() == s && nextId == old(nextId)
    {
      folders, images, pathIndex, annotations := s.folders, s.images, s.pathIndex, s.annotations;
      organizations, members, users := s.organizations, s.members, s.users;
    }

    /** folderMapper.insert / updateById of a whole row. */
    method PutFolder(f: Folder)
      requires Valid() && f.id < nextId
      modifies this`folders
      ensures Valid() && folders == old(folders)[f.id := f]
    {
      folders := folders[f.id := f];
    }

    /** folderMapper.removeById (logical delete). */
    method RemoveFolder(id: Id)
      requires Valid()
      modifies this`folders
      ensures Valid() && folders == old(folders) - {id}
    {
      folders := folders - {id};
    }

    /** imageMapper.insert: a new row under a fresh id and an unused storage path. */
    method InsertImage(img: Image)
      requires Valid() && IdFree(Snapshot(), img.id) && img.id < nextId && img.storagePath !in pathIndex
      modifies this`images, this`pathIndex
      ensures Valid()
      ensures images == old(images)[img.id := img] && pathIndex == old(pathIndex)[img.storagePath := img.id]
    {
      InsertImageKeepsInvariants(Snapshot(), img, nextId);
      images := images[img.id := img];
      pathIndex := pathIndex[img.storagePath := img.id];
    }

    /** imageMapper.updateById of a row whose storage path is unchanged. */
    method UpdateImageRow(img: Image)
      requires Valid() && img.id in images && images[img.id].storagePath == img.storagePath
      modifies this`images
      ensures Valid() && images == old(images)[img.id := img]
    {
      UpdateImageKeepsInvariants(Snapshot(), img, nextId);
      images := images[img.id := img];
    }

    /** imageMapper.removeById: the row and its index entry go. */
    method RemoveImage(id: Id)
      requires Valid() && id in images
      modifies this`images, this`pathIndex
      ensures Valid()
      ensures images == old(images) - {id} && pathIndex == old(pathIndex) - {old(images)[id].storagePath}
    {
      var path := images[id].storagePath;
      images := images - {id};
      pathIndex := pathIndex - {path};
    }

    /** annotationMapper.insert for an image that has no annotation yet. */
    method InsertAnnotation(a: Annotation)
      requires Valid() && IdFree(Snapshot(), a.id) && a.id < nextId && a.imageId < nextId
      requires AnnotationsOf(Snapshot(), a.imageId) == {}
      modifies this`annotations
      ensures Valid() && annotations == old(annotations)[a.id := a]
    {
      annotations := annotations[a.id := a];
    }

    /** annotationMapper.updateById that keeps the image the annotation belongs to. */
    method UpdateAnnotationRow(a: Annotation)
      requires Valid() && a.id in annotations && annotations[a.id].imageId == a.imageId
      modifies this`annotations
      ensures Valid() && annotations == old(annotations)[a.id := a]
    {
      annotations := annotations[a.id := a];
    }

    /** annotationMapper.delete of the given rows. */
    method RemoveAnnotations(ids: set<Id>)
      requires Valid()
      modifies this`annotations
      ensures Valid() && annotations == old(annotations) - ids
    {
      annotations := annotations - ids;
    }

    /** organizationMapper.insert / updateById of a whole row. */
    method PutOrganization(o: Organization)
      requires Valid() && o.id < nextId
      modifies this`organizations
      ensures Valid() && organizations == old(organizations)[o.id := o]
    {
      organizations := organizations[o.id := o];
    }

    /** organizationMapper.removeById */
    method RemoveOrganization(id: Id)
      requires Valid()
      modifies this`organizations
      ensures Valid() && organizations == old(organizations) - {id}
    {
      organizations := organizations - {id};
    }

    /** memberMapper.insert */
    method PutMember(orgId: Id, userId: Id, role: string)
      requires Valid()
      modifies this`members
      ensures Valid() && members == old(members)[(orgId, userId) := role]
    {
      members := members[(orgId, userId) := role];
    }

    /** memberMapper.delete with a wrapper selecting the given rows. */
    method RemoveMembers(keys: set<(Id, Id)>)
      requires Valid()
      modifies this`members
      ensures Valid() && members == old(members) - keys
    {
      members := members - keys;
    }

    /** userMapper.insert of a new account. */
    method InsertUser(u: User)
      requires Valid() && IdFree(Snapshot(), u.id) && u.id < nextId
      requires forall k | k in users :: users[k].userAccount != u.userAccount
      modifies this`users
      ensures Valid() && users == old(users)[u.id := u]
    {
      users := users[u.id := u];
    }
  }
}
