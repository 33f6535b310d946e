/** The annotation service (AnnotationServiceImpl): one JSON annotation per image, guarded by
    the node gate of the image's storage path. */
module Annotations {
  import opened Common
  import opened Entities
  import opened Store
  import opened Permission

  /** The node gate applied to an image by id: an unknown image is NOT_FOUND. */
  function ImageNodeGate(t: Tables, imageId: Id, user: User, perm: Perm): (r: Outcome)
    ensures imageId !in t.images ==> r == Fail(NotFound)
    ensures imageId in t.images ==> r == CheckNodePermission(t, t.images[imageId].storagePath, Some(user), perm)
  {
    if imageId !in t.images then Fail(NotFound)
    else CheckNodePermission(t, t.images[imageId].storagePath, Some(user), perm)
  }

  /** serializeJsonContent: null content is stored as the empty object "{}". Serialization
      itself is a foreign call, so the stored text is represented by the document it encodes. */
  function SerializeJsonContent(content: Option<JsonDoc>): (r: JsonDoc)
    ensures content.None? ==> r == map[]
    ensures content.Some? ==> r == content.value
  {
    if content.None? then map[] else content.value
  }

  /** Null content and an empty document are stored alike. */
  lemma NullContentIsEmptyObject()
    ensures SerializeJsonContent(None) == SerializeJsonContent(Some(map[]))
  {
  }

  /** createAnnotation */
  method CreateAnnotation(db: Database, imageId: Id, content: Option<JsonDoc>, user: User) returns (r: Result<Annotation>)
    requires db.Valid()
    modifies db
    ensures db.Valid() && old(db.nextId) <= db.nextId
    ensures ImageNodeGate(old(db.Snapshot()), imageId, user, Write).Fail? ==>
              r == Err(ImageNodeGate(old(db.Snapshot()), imageId, user, Write).code) && db.Snapshot() == old(db.Snapshot())
    ensures ImageNodeGate(old(db.Snapshot()), imageId, user, Write).Pass? && AnnotationsOf(old(db.Snapshot()), imageId) != {} ==>
              r == Err(OperationError) && db.Snapshot() == old(db.Snapshot())
    ensures r.Ok? <==> ImageNodeGate(old(db.Snapshot()), imageId, user, Write).Pass? && AnnotationsOf(old(db.Snapshot()), imageId) == {}
    ensures r.Ok? ==>
              && r.value == Annotation(r.value.id, imageId, SerializeJsonContent(content), user.id)
              && r.value.id !in old(db.annotations)
              && db.Snapshot() == old(db.Snapshot()).(annotations := old(db.annotations)[r.value.id := r.value])
  {
    var gate := ImageNodeGate(db.Snapshot(), imageId, user, Write);
    if gate.Fail? {
      return Err(gate.code);
    }
    if AnnotationsOf(db.Snapshot(), imageId) != {} {
      return Err(OperationError);
    }
    var id := db.FreshId();
    var a := Annotation(id, imageId, SerializeJsonContent(content), user.id);
    db.InsertAnnotation(a);
    r := Ok(a);
  }

  /** getAnnotationByImageId: no image is not an error but an empty answer. */
  method GetAnnotationByImageId(db: Database, imageId: Id, user: User) returns (r: Result<Option<Annotation>>)
    requires db.Valid()
    ensures imageId !in db.images ==> r == Ok(None)
    ensures imageId in db.images && ImageNodeGate(db.Snapshot(), imageId, user, Read).Fail? ==>
              r == Err(ImageNodeGate(db.Snapshot(), imageId, user, Read).code)
    ensures imageId in db.images && ImageNodeGate(db.Snapshot(), imageId, user, Read).Pass? ==>
              r.Ok? && (r.value.None? <==> AnnotationsOf(db.Snapshot(), imageId) == {})
    ensures r.Ok? && r.value.Some? ==> r.value.value in db.annotations.Values && r.value.value.imageId == imageId
  {
    if imageId !in db.images {
      return Ok(None);
    }
    var gate := ImageNodeGate(db.Snapshot(), imageId, user, Read);
    if gate.Fail? {
      return Err(gate.code);
    }
    var found := AnnotationsOf(db.Snapshot(), imageId);
    if found == {} {
      return Ok(None);
    }
    var k :| k in found;
    r := Ok(Some(db.annotations[k]));
  }

  /** updateAnnotation: replaces the content and records the editor; the image never changes. */
  method UpdateAnnotation(db: Database, annotationId: Id, content: Option<JsonDoc>, user: User) returns (r: Result<Annotation>)
    requires db.Valid()
    modifies db
    ensures db.Valid() && old(db.nextId) <= db.nextId
    ensures annotationId !in old(db.annotations) ==> r == Err(NotFound) && db.Snapshot() == old(db.Snapshot())
    ensures annotationId in old(db.annotations) ==>
              var gate := ImageNodeGate(old(db.Snapshot()), old(db.annotations)[annotationId].imageId, user, Write);
              && (gate.Fail? ==> r == Err(gate.code) && db.Snapshot() == old(db.Snapshot()))
              && (gate.Pass? ==>
                    var a := old(db.annotations)[annotationId].(jsonContent := SerializeJsonContent(content), lastEditorId := user.id);
                    r == Ok(a) && db.Snapshot() == old(db.Snapshot()).(annotations := old(db.annotations)[annotationId := a]))
  {
    if annotationId !in db.annotations {
      return Err(NotFound);
    }
    var annotation := db.annotations[annotationId];
    var gate := ImageNodeGate(db.Snapshot(), annotation.imageId, user, Write);
    if gate.Fail? {
      return Err(gate.code);
    }
    var a := annotation.(jsonContent := SerializeJsonContent(content), lastEditorId := user.id);
    db.UpdateAnnotationRow(a);
    r := Ok(a);
  }

  /** deleteAnnotation: nothing to do for an unknown id; an orphan (its image is gone) is
      deleted without any permission check; otherwise WRITE on the image is required. */
  method DeleteAnnotation(db: Database, annotationId: Id, user: User) returns (r: Outcome)
    requires db.Valid()
    modifies db
    ensures db.Valid() && old(db.nextId) <= db.nextId
    ensures annotationId !in old(db.annotations) ==> r == Pass && db.Snapshot() == old(db.Snapshot())
    ensures annotationId in old(db.annotations) && old(db.annotations)[annotationId].imageId !in old(db.images) ==>
              r == Pass && db.Snapshot() == old(db.Snapshot()).(annotations := old(db.annotations) - {annotationId})
    ensures annotationId in old(db.annotations) && old(db.annotations)[annotationId].imageId in old(db.images) ==>
              var gate := ImageNodeGate(old(db.Snapshot()), old(db.annotations)[annotationId].imageId, user, Write);
              && (gate.Fail? ==> r == gate && db.Snapshot() == old(db.Snapshot()))
              && (gate.Pass? ==> r == Pass && db.Snapshot() == old(db.Snapshot()).(annotations := old(db.annotations) - {annotationId}))
  {
    if annotationId !in db.annotations {
      return Pass;
    }
    var annotation := db.annotations[annotationId];
    if annotation.imageId in db.images {
      var gate := ImageNodeGate(db.Snapshot(), annotation.imageId, user, Write);
      if gate.Fail? {
        return gate;
      }
    }
    db.RemoveAnnotations({annotationId});
    r := Pass;
  }
}
