/** The graph service (GraphServiceImpl): CircuitNode nodes named by an image's storage path,
    typed relationships between them, and the legacy three-value permission check that
    guards every graph operation. */
module Graph {
  import opened Common
  import opened Entities
  import opened Permission

  // Property keys the services read and write on nodes.
  const NAME_KEY := "name"
  const SPACE_KEY := "space"
  const OWNER_USER_KEY := "ownerUserId"
  const OWNER_ORG_KEY := "ownerOrganizationId"

  /** A relationship (a)-[r:relType]->(b) with its properties; also the RelationshipVO. */
  datatype Rel = Rel(from: string, relType: string, to: string, props: Props)

  /** NodeVO: the node's name and its other properties. */
  datatype NodeView = NodeView(name: Option<string>, properties: Props)

  predicate NoNulls(p: Props) {
    forall k | k in p :: p[k] != Null
  }

  /** Neo4j `SET x += m`: every key of m overwrites, and a key mapped to null is removed. */
  function MergeProps(p: Props, m: Props): (r: Props)
    ensures forall k :: k in r <==> (k in m && m[k] != Null) || (k !in m && k in p)
    ensures forall k | k in r :: r[k] == if k in m then m[k] else p[k]
  {
    map k | k in p.Keys + m.Keys && (k in m ==> m[k] != Null) :: if k in m then m[k] else p[k]
  }

  /** What `SET +=` leaves behind never holds null, and applying the same map twice changes nothing more. */
  lemma MergePropsLaws(p: Props, m: Props)
    ensures NoNulls(p) ==> NoNulls(MergeProps(p, m))
    ensures MergeProps(MergeProps(p, m), m) == MergeProps(p, m)
    ensures forall k | k in m && m[k] != Null :: MergeProps(p, m)[k] == m[k]
    ensures forall k | k !in m && k in p :: MergeProps(p, m)[k] == p[k]
  {
    assert MergeProps(MergeProps(p, m), m).Keys == MergeProps(p, m).Keys;
  }

  function OptStr(s: Option<string>): Value {
    if s.Some? then Str(s.value) else Null
  }

  function OptId(i: Option<Id>): Value {
    if i.Some? then IdVal(i.value) else Null
  }

  // ---- The legacy permission check ----

  /** The policy checkPermissionByFolder implements: the three-value scheme, and no admin bypass. */
  predicate LegacyMayAccess(folder: Folder, u: User, perm: Perm, members: Members) {
    || (folder.space == Some(LEGACY_PUBLIC) && perm == Read)
    || (folder.space == Some(LEGACY_ORGANIZATION)
        && RoleInOrg(members, u.id, folder.ownerOrganizationId).Some?
        && (perm == Read || RoleInOrg(members, u.id, folder.ownerOrganizationId) == Some(ORG_ADMIN)))
    || (folder.space == Some(LEGACY_PRIVATE) && folder.ownerUserId == Some(u.id))
  }

  /** checkPermissionByFolder. It knows only "public", "organization" and "private"; a null
      space or a private folder without owner raises a NullPointerException. */
  function CheckPermissionByFolder(folder: Folder, user: Option<User>, perm: Perm, members: Members): (r: Outcome)
    ensures user.Some? ==> (r == Pass <==> LegacyMayAccess(folder, user.value, perm, members))
    ensures folder.space.Some? && IsCurrentSpace(folder.space.value) ==> r == Fail(SystemError)
  {
    match folder.space
    case None => Fail(NullPointer)
    case Some(space) =>
      if space == LEGACY_PUBLIC then
        if perm == Write then Fail(NoAuth) else Pass
      else if space == LEGACY_ORGANIZATION then
        if user.None? then Fail(NullPointer)
        else
          var role := RoleInOrg(members, user.value.id, folder.ownerOrganizationId);
          if role.None? then Fail(NoAuth)
          else if perm == Write && role.value != ORG_ADMIN then Fail(NoAuth)
          else Pass
      else if space == LEGACY_PRIVATE then
        if folder.ownerUserId.None? || user.None? then Fail(NullPointer)
        else if folder.ownerUserId.value != user.value.id then Fail(NoAuth)
        else Pass
      else Fail(SystemError)
  }

  /** The folder an image node belongs to: node name -> image -> folder. */
  function NodeFolder(t: Tables, nodeName: string): (r: Option<Folder>)
    ensures r.Some? ==> r.value in t.folders.Values
    ensures r.Some? <==> ImageByPath(t, nodeName).Some? && ImageByPath(t, nodeName).value.folderId in t.folders
  {
    match ImageByPath(t, nodeName)
    case None => None
    case Some(image) => if image.folderId in t.folders then Some(t.folders[image.folderId]) else None
  }

  /** checkPermission: login, admin bypass, node -> folder resolution, then the legacy check. */
  function CheckPermission(t: Tables, nodeName: string, user: Option<User>, perm: Perm): (r: Outcome)
    ensures user.None? ==> r == Fail(NotLogin)
    ensures user.Some? && IsPlatformAdmin(user.value) ==> r == Pass
    ensures user.Some? && !IsPlatformAdmin(user.value) && NodeFolder(t, nodeName).None? ==> r == Fail(NotFound)
    ensures user.Some? && !IsPlatformAdmin(user.value) && NodeFolder(t, nodeName).Some? ==>
              r == CheckPermissionByFolder(NodeFolder(t, nodeName).value, user, perm, t.members)
  {
    if user.None? then Fail(NotLogin)
    else if IsPlatformAdmin(user.value) then Pass
    else match ImageByPath(t, nodeName)
      case None => Fail(NotFound)
      case Some(image) =>
        if image.folderId !in t.folders then Fail(NotFound)
        else CheckPermissionByFolder(t.folders[image.folderId], user, perm, t.members)
  }

  /** A node whose image lives in a folder tagged with any of the four current space values
      is out of reach of every non-admin caller of the graph service. */
  lemma LegacyCheckRejectsCurrentSpaces(t: Tables, nodeName: string, u: User, perm: Perm)
    requires !IsPlatformAdmin(u)
    requires NodeFolder(t, nodeName).Some?
    requires NodeFolder(t, nodeName).value.space.Some? && IsCurrentSpace(NodeFolder(t, nodeName).value.space.value)
    ensures CheckPermission(t, nodeName, Some(u), perm) == Fail(SystemError)
  {
  }

  // ---- Relationship type names ----

  predicate IsRelNameStart(c: char) {
    ('a' <= c <= 'z') || ('A' <= c <= 'Z') || c == '_'
  }

  predicate IsRelNameChar(c: char) {
    IsRelNameStart(c) || ('0' <= c <= '9')
  }

  /** validateRelationshipName: the name matches ^[a-zA-Z_][a-zA-Z0-9_]*$ */
  function ValidateRelationshipName(name: string): (r: Outcome)
    ensures r == Pass <==> |name| > 0 && IsRelNameStart(name[0]) && forall i | 0 < i < |name| :: IsRelNameChar(name[i])
    ensures r.Fail? ==> r.code == ParamsError
  {
    if |name| > 0 && IsRelNameStart(name[0]) && forall i | 0 < i < |name| :: IsRelNameChar(name[i])
    then Pass else Fail(ParamsError)
  }

  /** A name the check accepts is never blank and holds none of the characters that could
      end the `[r:...]` pattern it is spliced into: the allow-list is what keeps the
      formatted Cypher text injection-free. */
  lemma ValidRelationshipNameIsSafe(name: string)
    requires ValidateRelationshipName(name) == Pass
    ensures !IsBlank(name)
    ensures forall i | 0 <= i < |name| :: name[i] !in "`[]{}():-> \t\n'\""
  {
    assert !IsWhitespace(name[0]);
    forall i | 0 <= i < |name|
      ensures name[i] !in "`[]{}():-> \t\n'\""
    {
      assert IsRelNameChar(name[i]);
    }
  }

  // ---- Node and relationship views ----

  /** nodeToVO: the node's full property map, with "name" moved out into the view's name. */
  function NodeToView(full: Props): (v: NodeView)
    ensures NAME_KEY !in v.properties
    ensures forall k | k != NAME_KEY :: (k in v.properties <==> k in full)
    ensures forall k | k in v.properties :: v.properties[k] == full[k]
  {
    NodeView(if NAME_KEY in full && full[NAME_KEY].Str? then Some(full[NAME_KEY].s) else None, full - {NAME_KEY})
  }

  /** The full property map of a stored node: its properties plus its name. */
  function FullProps(name: string, p: Props): Props {
    p[NAME_KEY := Str(name)]
  }

  /** nodeToVO gives back exactly the name and the properties a node was stored with. */
  lemma NodeToViewRoundTrip(name: string, p: Props)
    requires NAME_KEY !in p
    ensures NodeToView(FullProps(name, p)) == NodeView(Some(name), p)
  {
    assert FullProps(name, p) - {NAME_KEY} == p;
  }

  /** The four-space folder gate and the legacy check never both let the same non-admin
      WRITE: the first admits non-admins only in the four current spaces, the second only in
      the three legacy ones. */
  lemma NoNonAdminPassesBothChecks(folder: Folder, u: User, members: Members)
    requires !IsPlatformAdmin(u)
    ensures !(CheckFolderPermission(folder, Some(u), Write, members) == Pass && LegacyMayAccess(folder, u, Write, members))
  {
  }

  /** The properties createNode stores: the request's properties, then the folder's space and
      owners on top, with null values dropped. A "name" entry of the request is not kept. */
  function CreatedNodeProps(request: Props, folder: Folder): (r: Props)
    ensures NoNulls(r) && NAME_KEY !in r
  {
    MergeProps(map[], (request - {NAME_KEY})[SPACE_KEY := OptStr(folder.space)]
                                           [OWNER_USER_KEY := OptId(folder.ownerUserId)]
                                           [OWNER_ORG_KEY := OptId(folder.ownerOrganizationId)])
  }

  /** The folder's ownership fields always win over the request, and every other
      non-null request property is kept as given. */
  lemma CreatedNodePropsOverride(request: Props, folder: Folder)
    ensures SPACE_KEY in CreatedNodeProps(request, folder) <==> folder.space.Some?
    ensures folder.space.Some? ==> CreatedNodeProps(request, folder)[SPACE_KEY] == Str(folder.space.value)
    ensures OWNER_USER_KEY in CreatedNodeProps(request, folder) <==> folder.ownerUserId.Some?
    ensures folder.ownerUserId.Some? ==> CreatedNodeProps(request, folder)[OWNER_USER_KEY] == IdVal(folder.ownerUserId.value)
    ensures OWNER_ORG_KEY in CreatedNodeProps(request, folder) <==> folder.ownerOrganizationId.Some?
    ensures folder.ownerOrganizationId.Some? ==>
              CreatedNodeProps(request, folder)[OWNER_ORG_KEY] == IdVal(folder.ownerOrganizationId.value)
    ensures forall k | k in request && k != NAME_KEY && k != SPACE_KEY && k != OWNER_USER_KEY && k != OWNER_ORG_KEY ::
              (k in CreatedNodeProps(request, folder) <==> request[k] != Null)
              && (request[k] != Null ==> CreatedNodeProps(request, folder)[k] == request[k])
  {
  }

  /** The keys updateNode's loop emits a REMOVE clause for: the non-blank ones. */
  function RemovableKeys(keys: seq<string>): (r: set<string>)
    ensures forall k :: k in r <==> k in keys && !IsBlank(k)
  {
    set i | 0 <= i < |keys| && !IsBlank(keys[i]) :: keys[i]
  }

  /** `SET n += toSet` followed by the REMOVE clauses. A "name" entry of toSet is not applied. */
  function UpdatedProps(p: Props, toSet: Props, toRemove: seq<string>): Props {
    MergeProps(p, toSet - {NAME_KEY}) - RemovableKeys(toRemove)
  }

  /** Removal wins over setting; other set keys take their new value; untouched keys keep theirs. */
  lemma UpdatedPropsEffect(p: Props, toSet: Props, toRemove: seq<string>)
    ensures forall k | k in toRemove && !IsBlank(k) :: k !in UpdatedProps(p, toSet, toRemove)
    ensures forall k | k in toSet && k != NAME_KEY && toSet[k] != Null && k !in RemovableKeys(toRemove) ::
              k in UpdatedProps(p, toSet, toRemove) && UpdatedProps(p, toSet, toRemove)[k] == toSet[k]
    ensures forall k | k in p && (k !in toSet || k == NAME_KEY) && k !in RemovableKeys(toRemove) ::
              k in UpdatedProps(p, toSet, toRemove) && UpdatedProps(p, toSet, toRemove)[k] == p[k]
    ensures NoNulls(p) && NAME_KEY !in p ==> NoNulls(UpdatedProps(p, toSet, toRemove)) && NAME_KEY !in UpdatedProps(p, toSet, toRemove)
  {
  }

  /** The REMOVE loop of updateNode over propertiesToRemove, one key at a time. */
  method RemoveEachKey(p: Props, toRemove: seq<string>) returns (q: Props)
    ensures q == p - RemovableKeys(toRemove)
  {
    q := p;
    var i := 0;
    while i < |toRemove|
      invariant 0 <= i <= |toRemove|
      invariant q == p - RemovableKeys(toRemove[..i])
    {
      if !IsBlank(toRemove[i]) {
        q := q - {toRemove[i]};
      }
      assert toRemove[..i + 1] == toRemove[..i] + [toRemove[i]];
      i := i + 1;
    }
    assert toRemove[..i] == toRemove;
  }

  // ---- Relationship sequences ----

  predicate Matches(r: Rel, from: string, relType: string, to: string) {
    r.from == from && r.relType == relType && r.to == to
  }

  /** DETACH DELETE: the relationships that do not touch the node, in order. */
  function WithoutNode(rels: seq<Rel>, name: string): (r: seq<Rel>)
    ensures |r| <= |rels|
    ensures forall x :: x in r <==> x in rels && x.from != name && x.to != name
  {
    if |rels| == 0 then []
    else if rels[0].from == name || rels[0].to == name then WithoutNode(rels[1..], name)
    else [rels[0]] + WithoutNode(rels[1..], name)
  }

  /** DETACH DELETE of several nodes, one after another: the relationships touching none of them, in order. */
  function WithoutNodes(rels: seq<Rel>, names: set<string>): (r: seq<Rel>)
    ensures |r| <= |rels|
    ensures forall x :: x in r <==> x in rels && x.from !in names && x.to !in names
  {
    if |rels| == 0 then []
    else if rels[0].from in names || rels[0].to in names then WithoutNodes(rels[1..], names)
    else [rels[0]] + WithoutNodes(rels[1..], names)
  }

  /** Deleting one node is deleting the set holding just that node. */
  lemma {:induction false} WithoutOneNode(rels: seq<Rel>, name: string)
    ensures WithoutNode(rels, name) == WithoutNodes(rels, {name})
  {
    if |rels| > 0 {
      WithoutOneNode(rels[1..], name);
    }
  }

  /** Deleting no node keeps every relationship. */
  lemma {:induction false} WithoutNoNodes(rels: seq<Rel>)
    ensures WithoutNodes(rels, {}) == rels
  {
    if |rels| > 0 {
      WithoutNoNodes(rels[1..]);
      assert rels == [rels[0]] + rels[1..];
    }
  }

  /** Deleting two sets of nodes in turn is deleting their union. */
  lemma {:induction false} WithoutNodesCompose(rels: seq<Rel>, p: set<string>, q: set<string>)
    ensures WithoutNodes(WithoutNodes(rels, p), q) == WithoutNodes(rels, p + q)
  {
    if |rels| > 0 {
      WithoutNodesCompose(rels[1..], p, q);
      if !(rels[0].from in p || rels[0].to in p) {
        var kept := WithoutNodes(rels, p);
        assert kept[0] == rels[0] && kept[1..] == WithoutNodes(rels[1..], p);
      }
    }
  }

  /** `MATCH (a {name: from})-[r:relType]->(b {name: to}) DELETE r`. */
  function WithoutMatches(rels: seq<Rel>, from: string, relType: string, to: string): (r: seq<Rel>)
    ensures |r| <= |rels|
    ensures forall x :: x in r <==> x in rels && !Matches(x, from, relType, to)
  {
    if |rels| == 0 then []
    else if Matches(rels[0], from, relType, to) then WithoutMatches(rels[1..], from, relType, to)
    else [rels[0]] + WithoutMatches(rels[1..], from, relType, to)
  }

  /** SET/REMOVE applied to every matched relationship; the others stay as they are. */
  function UpdateMatches(rels: seq<Rel>, from: string, relType: string, to: string, toSet: Props, toRemove: seq<string>): (r: seq<Rel>)
    ensures |r| == |rels|
    ensures forall i | 0 <= i < |rels| ::
              r[i] == if Matches(rels[i], from, relType, to)
                      then rels[i].(props := MergeProps(rels[i].props, toSet) - RemovableKeys(toRemove))
                      else rels[i]
  {
    if |rels| == 0 then []
    else
      var head := if Matches(rels[0], from, relType, to)
                  then rels[0].(props := MergeProps(rels[0].props, toSet) - RemovableKeys(toRemove))
                  else rels[0];
      [head] + UpdateMatches(rels[1..], from, relType, to, toSet, toRemove)
  }

  /** findFirst over the matched relationships. */
  function FirstMatch(rels: seq<Rel>, from: string, relType: string, to: string): (r: Option<Rel>)
    ensures r.None? <==> forall i | 0 <= i < |rels| :: !Matches(rels[i], from, relType, to)
    ensures r.Some? ==> exists i | 0 <= i < |rels| :: rels[i] == r.value && Matches(r.value, from, relType, to)
                          && forall j | 0 <= j < i :: !Matches(rels[j], from, relType, to)
  {
    if |rels| == 0 then None
    else if Matches(rels[0], from, relType, to) then Some(rels[0])
    else
      var r := FirstMatch(rels[1..], from, relType, to);
      if r.Some? then
        ghost var i :| 0 <= i < |rels[1..]| && rels[1..][i] == r.value && Matches(r.value, from, relType, to)
                       && forall j | 0 <= j < i :: !Matches(rels[1..][j], from, relType, to);
        assert rels[i + 1] == r.value;
        r
      else r
  }

  /** How many relationships match: the number of rows updateRelationship's MATCH returns. */
  function MatchCount(rels: seq<Rel>, from: string, relType: string, to: string): (n: nat)
    ensures n <= |rels|
    ensures n == 0 <==> FirstMatch(rels, from, relType, to).None?
  {
    if |rels| == 0 then 0
    else (if Matches(rels[0], from, relType, to) then 1 else 0) + MatchCount(rels[1..], from, relType, to)
  }

  /** Two different positions of the sequence match. */
  predicate TwoMatch(rels: seq<Rel>, from: string, relType: string, to: string) {
    exists i, j | 0 <= i < j < |rels| :: Matches(rels[i], from, relType, to) && Matches(rels[j], from, relType, to)
  }

  /** With a matching head, a second match is any match in the tail. */
  lemma TwoMatchHead(rels: seq<Rel>, from: string, relType: string, to: string)
    requires |rels| > 0 && Matches(rels[0], from, relType, to)
    ensures TwoMatch(rels, from, relType, to) <==> FirstMatch(rels[1..], from, relType, to).Some?
  {
    var tail := rels[1..];
    if TwoMatch(rels, from, relType, to) {
      var i, j :| 0 <= i < j < |rels| && Matches(rels[i], from, relType, to) && Matches(rels[j], from, relType, to);
      assert tail[j - 1] == rels[j];
    }
    if FirstMatch(tail, from, relType, to).Some? {
      var m := FirstMatch(tail, from, relType, to).value;
      var k :| 0 <= k < |tail| && tail[k] == m && Matches(m, from, relType, to);
      assert rels[k + 1] == m;
    }
  }

  /** With a head that does not match, the pairs are those of the tail. */
  lemma TwoMatchSkip(rels: seq<Rel>, from: string, relType: string, to: string)
    requires |rels| > 0 && !Matches(rels[0], from, relType, to)
    ensures TwoMatch(rels, from, relType, to) <==> TwoMatch(rels[1..], from, relType, to)
  {
    var tail := rels[1..];
    if TwoMatch(rels, from, relType, to) {
      var i, j :| 0 <= i < j < |rels| && Matches(rels[i], from, relType, to) && Matches(rels[j], from, relType, to);
      assert tail[i - 1] == rels[i] && tail[j - 1] == rels[j];
    }
    if TwoMatch(tail, from, relType, to) {
      var i, j :| 0 <= i < j < |tail| && Matches(tail[i], from, relType, to) && Matches(tail[j], from, relType, to);
      assert rels[i + 1] == tail[i] && rels[j + 1] == tail[j];
    }
  }

  /** Two or more rows exactly when two different positions match. */
  lemma {:induction false} SeveralMatches(rels: seq<Rel>, from: string, relType: string, to: string)
    ensures MatchCount(rels, from, relType, to) >= 2 <==> TwoMatch(rels, from, relType, to)
  {
    if |rels| > 0 {
      if Matches(rels[0], from, relType, to) {
        TwoMatchHead(rels, from, relType, to);
      } else {
        SeveralMatches(rels[1..], from, relType, to);
        TwoMatchSkip(rels, from, relType, to);
      }
    }
  }

  /** The relationships with both endpoints among the given node names, in order. */
  function RelsWithin(rels: seq<Rel>, names: set<string>): (r: seq<Rel>)
    ensures |r| <= |rels|
    ensures forall x :: x in r <==> x in rels && x.from in names && x.to in names
  {
    if |rels| == 0 then []
    else if rels[0].from in names && rels[0].to in names then [rels[0]] + RelsWithin(rels[1..], names)
    else RelsWithin(rels[1..], names)
  }

  // ---- Visibility for get-all ----

  /** The WHERE clause of getAllNodesForCurrentUser for a non-admin: public nodes, the user's
      private nodes, and organization nodes of the user's organizations. */
  predicate VisibleTo(p: Props, userId: Id, orgIds: set<Id>) {
    || (SPACE_KEY in p && p[SPACE_KEY] == Str(LEGACY_PUBLIC))
    || (SPACE_KEY in p && p[SPACE_KEY] == Str(LEGACY_PRIVATE) && OWNER_USER_KEY in p && p[OWNER_USER_KEY] == IdVal(userId))
    || (SPACE_KEY in p && p[SPACE_KEY] == Str(LEGACY_ORGANIZATION) && OWNER_ORG_KEY in p
        && p[OWNER_ORG_KEY].IdVal? && p[OWNER_ORG_KEY].id in orgIds)
  }

  /** A node tagged with one of the four current space values is hidden from every non-admin. */
  lemma CurrentSpaceNodesHidden(p: Props, userId: Id, orgIds: set<Id>, space: string)
    requires SPACE_KEY in p && p[SPACE_KEY] == Str(space) && IsCurrentSpace(space)
    ensures !VisibleTo(p, userId, orgIds)
  {
  }

  class GraphStore {
    /** CircuitNode nodes by name (the name itself is not repeated in the map). */
    var nodes: map<string, Props>
    var rels: seq<Rel>

    ghost predicate Valid()
      reads this
    {
      && (forall n | n in nodes :: NoNulls(nodes[n]) && NAME_KEY !in nodes[n])
      && (forall i | 0 <= i < |rels| :: rels[i].from in nodes && rels[i].to in nodes && NoNulls(rels[i].props))
    }

    constructor ()
      ensures Valid() && nodes == map[] && rels == []
    {
      nodes := map[];
      rels := [];
    }

    /** The checks createNode makes before it opens a session. */
    static function CreateNodeGuard(t: Tables, name: string, user: User): (r: Outcome)
      ensures r == Pass ==> !IsBlank(name) && NodeFolder(t, name).Some?
      ensures r == Pass ==> LegacyMayAccess(NodeFolder(t, name).value, user, Write, t.members)
    {
      if IsBlank(name) then Fail(ParamsError)
      else match ImageByPath(t, name)
        case None => Fail(NotFound)
        case Some(image) =>
          if image.folderId !in t.folders then Fail(NotFound)
          else CheckPermissionByFolder(t.folders[image.folderId], Some(user), Write, t.members)
    }

    /** createNode. The duplicate-name PARAMS_ERROR is thrown inside the session and re-wrapped
        as SYSTEM_ERROR by the catch block. */
    method CreateNode(t: Tables, name: string, request: Props, user: User) returns (r: Result<string>)
      requires Valid()
      modifies this
      ensures Valid()
      ensures CreateNodeGuard(t, name, user).Fail? ==>
                r == Err(CreateNodeGuard(t, name, user).code) && nodes == old(nodes) && rels == old(rels)
      ensures CreateNodeGuard(t, name, user).Pass? && name in old(nodes) ==>
                r == Err(SystemError) && nodes == old(nodes) && rels == old(rels)
      ensures CreateNodeGuard(t, name, user).Pass? && name !in old(nodes) ==>
                r == Ok(name) && rels == old(rels)
                && nodes == old(nodes)[name := CreatedNodeProps(request, NodeFolder(t, name).value)]
    {
      var guard := CreateNodeGuard(t, name, user);
      if guard.Fail? {
        return Err(guard.code);
      }
      if name in nodes {
        return Err(SystemError);
      }
      nodes := nodes[name := CreatedNodeProps(request, NodeFolder(t, name).value)];
      r := Ok(name);
    }

    /** deleteNode: DETACH DELETE removes the node and every relationship touching it. */
    method DeleteNode(t: Tables, name: string, user: User) returns (r: Result<string>)
      requires Valid()
      modifies this
      ensures Valid()
      ensures CheckPermission(t, name, Some(user), Write).Fail? ==>
                r == Err(CheckPermission(t, name, Some(user), Write).code) && nodes == old(nodes) && rels == old(rels)
      ensures CheckPermission(t, name, Some(user), Write).Pass? ==>
                r == Ok(name) && nodes == old(nodes) - {name} && rels == WithoutNode(old(rels), name)
    {
      var guard := CheckPermission(t, name, Some(user), Write);
      if guard.Fail? {
        return Err(guard.code);
      }
      nodes := nodes - {name};
      rels := WithoutNode(rels, name);
      forall i | 0 <= i < |rels|
        ensures rels[i].from in nodes && rels[i].to in nodes && NoNulls(rels[i].props)
      {
        assert rels[i] in old(rels);
      }
      r := Ok(name);
    }

    /** updateNode: nothing to do when both the set-map and the remove-list are empty
        (even for a node that does not exist); a missing node is NOT_FOUND, re-wrapped. */
    method UpdateNode(t: Tables, name: string, toSet: Props, toRemove: seq<string>, user: User) returns (r: Result<string>)
      requires Valid()
      modifies this
      ensures Valid()
      ensures rels == old(rels)
      ensures CheckPermission(t, name, Some(user), Write).Fail? ==>
                r == Err(CheckPermission(t, name, Some(user), Write).code) && nodes == old(nodes)
      ensures CheckPermission(t, name, Some(user), Write).Pass? && |toSet| == 0 && |toRemove| == 0 ==>
                r == Ok(name) && nodes == old(nodes)
      ensures CheckPermission(t, name, Some(user), Write).Pass? && (|toSet| > 0 || |toRemove| > 0) && name !in old(nodes) ==>
                r == Err(SystemError) && nodes == old(nodes)
      ensures CheckPermission(t, name, Some(user), Write).Pass? && (|toSet| > 0 || |toRemove| > 0) && name in old(nodes) ==>
                r == Ok(name) && nodes == old(nodes)[name := UpdatedProps(old(nodes)[name], toSet, toRemove)]
    {
      var guard := CheckPermission(t, name, Some(user), Write);
      if guard.Fail? {
        return Err(guard.code);
      }
      if |toSet| == 0 && |toRemove| == 0 {
        return Ok(name);
      }
      if name !in nodes {
        return Err(SystemError);
      }
      var p := MergeProps(nodes[name], toSet - {NAME_KEY});
      p := RemoveEachKey(p, toRemove);
      UpdatedPropsEffect(nodes[name], toSet, toRemove);
      nodes := nodes[name := p];
      r := Ok(name);
    }

    /** findNode: the node's view, or none when no node has that name. */
    function FindNode(t: Tables, name: string, user: User): (r: Result<Option<NodeView>>)
      reads this
      ensures CheckPermission(t, name, Some(user), Read).Fail? ==> r == Err(CheckPermission(t, name, Some(user), Read).code)
      ensures CheckPermission(t, name, Some(user), Read).Pass? ==> r.Ok?
      ensures r.Ok? ==> (r.value.Some? <==> name in nodes)
      ensures r.Ok? && r.value.Some? && Valid() ==> r.value.value == NodeView(Some(name), nodes[name])
    {
      var guard := CheckPermission(t, name, Some(user), Read);
      if guard.Fail? then Err(guard.code)
      else if name in nodes then
        NodeToViewRoundTripAt(name);
        Ok(Some(NodeToView(FullProps(name, nodes[name]))))
      else Ok(None)
    }

    lemma NodeToViewRoundTripAt(name: string)
      requires name in nodes
      ensures Valid() ==> NodeToView(FullProps(name, nodes[name])) == NodeView(Some(name), nodes[name])
    {
      if Valid() {
        NodeToViewRoundTrip(name, nodes[name]);
      }
    }

    /** getAllNodesForCurrentUser: everything for an admin, else the nodes the legacy filter lets through. */
    function GetAllNodes(members: Members, user: Option<User>): (r: Result<map<string, Props>>)
      reads this
      ensures user.None? <==> r == Err(NotLogin)
      ensures r.Ok? ==> r.value.Keys <= nodes.Keys && forall n | n in r.value :: r.value[n] == nodes[n]
      ensures user.Some? && IsPlatformAdmin(user.value) ==> r == Ok(nodes)
      ensures user.Some? && !IsPlatformAdmin(user.value) ==>
                r.Ok? && forall n | n in nodes ::
                  (n in r.value <==> VisibleTo(nodes[n], user.value.id, OrganizationsOf(members, user.value.id)))
    {
      if user.None? then Err(NotLogin)
      else if IsPlatformAdmin(user.value) then Ok(nodes)
      else
        var orgIds := OrganizationsOf(members, user.value.id);
        Ok(map n | n in nodes && VisibleTo(nodes[n], user.value.id, orgIds) :: nodes[n])
    }

    /** getAllRelationshipsForCurrentUser: the relationships between visible nodes only. */
    function GetAllRelationships(members: Members, user: Option<User>): (r: Result<seq<Rel>>)
      reads this
      ensures user.None? <==> r == Err(NotLogin)
      ensures user.Some? ==> r.Ok?
      ensures r.Ok? ==> forall x | x in r.value :: x in rels && x.from in GetAllNodes(members, user).value
                                                    && x.to in GetAllNodes(members, user).value
      ensures r.Ok? ==> forall x | x in rels && x.from in GetAllNodes(members, user).value
                                   && x.to in GetAllNodes(members, user).value :: x in r.value
      ensures r.Ok? && |GetAllNodes(members, user).value| == 0 ==> r.value == []
    {
      match GetAllNodes(members, user)
      case Err(code) => Err(code)
      case Ok(visible) =>
        if |visible| == 0 then Ok([]) else Ok(RelsWithin(rels, visible.Keys))
    }

    /** The two endpoint checks every relationship operation starts with. */
    static function CheckEndpoints(t: Tables, from: string, to: string, user: User, perm: Perm): (r: Outcome)
      ensures r == Pass <==> CheckPermission(t, from, Some(user), perm) == Pass && CheckPermission(t, to, Some(user), perm) == Pass
      ensures CheckPermission(t, from, Some(user), perm).Fail? ==> r == CheckPermission(t, from, Some(user), perm)
    {
      var a := CheckPermission(t, from, Some(user), perm);
      if a.Fail? then a else CheckPermission(t, to, Some(user), perm)
    }

    /** createRelationship. An invalid type name or a missing endpoint is thrown inside the
        session and re-wrapped as SYSTEM_ERROR. Null property values are not stored. */
    method CreateRelationship(t: Tables, from: string, to: string, relType: string, props: Props, user: User)
      returns (r: Result<string>)
      requires Valid()
      modifies this
      ensures Valid() && nodes == old(nodes)
      ensures IsBlank(from) || IsBlank(to) || IsBlank(relType) ==> r == Err(ParamsError) && rels == old(rels)
      ensures r.Ok? ==> CheckEndpoints(t, from, to, user, Write) == Pass && ValidateRelationshipName(relType) == Pass
      ensures r.Ok? <==> !IsBlank(from) && !IsBlank(to) && !IsBlank(relType)
                         && CheckEndpoints(t, from, to, user, Write) == Pass && ValidateRelationshipName(relType) == Pass
                         && from in old(nodes) && to in old(nodes)
      ensures r.Ok? ==> r.value == relType && rels == old(rels) + [Rel(from, relType, to, MergeProps(map[], props))]
      ensures r.Err? ==> rels == old(rels)
      ensures !IsBlank(from) && !IsBlank(to) && !IsBlank(relType) && CheckEndpoints(t, from, to, user, Write) == Pass && r.Err? ==>
                r.code == SystemError
    {
      if IsBlank(from) || IsBlank(to) || IsBlank(relType) {
        return Err(ParamsError);
      }
      var guard := CheckEndpoints(t, from, to, user, Write);
      if guard.Fail? {
        return Err(guard.code);
      }
      if ValidateRelationshipName(relType).Fail? || from !in nodes || to !in nodes {
        return Err(SystemError);
      }
      MergePropsLaws(map[], props);
      rels := rels + [Rel(from, relType, to, MergeProps(map[], props))];
      r := Ok(relType);
    }

    /** deleteRelationship: deletes every matching relationship; none matching is not an error. */
    method DeleteRelationship(t: Tables, from: string, to: string, relType: string, user: User) returns (r: Result<string>)
      requires Valid()
      modifies this
      ensures Valid() && nodes == old(nodes)
      ensures CheckEndpoints(t, from, to, user, Write).Fail? ==>
                r == Err(CheckEndpoints(t, from, to, user, Write).code) && rels == old(rels)
      ensures CheckEndpoints(t, from, to, user, Write).Pass? && ValidateRelationshipName(relType).Fail? ==>
                r == Err(SystemError) && rels == old(rels)
      ensures CheckEndpoints(t, from, to, user, Write).Pass? && ValidateRelationshipName(relType).Pass? ==>
                r == Ok(relType) && rels == WithoutMatches(old(rels), from, relType, to)
    {
      var guard := CheckEndpoints(t, from, to, user, Write);
      if guard.Fail? {
        return Err(guard.code);
      }
      if ValidateRelationshipName(relType).Fail? {
        return Err(SystemError);
      }
      rels := WithoutMatches(rels, from, relType, to);
      forall i | 0 <= i < |rels|
        ensures rels[i].from in nodes && rels[i].to in nodes && NoNulls(rels[i].props)
      {
        assert rels[i] in old(rels);
      }
      r := Ok(relType);
    }

    /** updateRelationship: SET/REMOVE on the matching relationship. No match is NOT_FOUND, and
        several matches make `single()` throw; either way the write transaction rolls back and the
        catch block re-wraps the error as SYSTEM_ERROR. */
    method UpdateRelationship(t: Tables, from: string, to: string, relType: string, toSet: Props, toRemove: seq<string>, user: User)
      returns (r: Result<string>)
      requires Valid()
      modifies this
      ensures Valid() && nodes == old(nodes)
      ensures CheckEndpoints(t, from, to, user, Write).Fail? ==>
                r == Err(CheckEndpoints(t, from, to, user, Write).code) && rels == old(rels)
      ensures CheckEndpoints(t, from, to, user, Write).Pass? && ValidateRelationshipName(relType).Fail? ==>
                r == Err(SystemError) && rels == old(rels)
      ensures CheckEndpoints(t, from, to, user, Write).Pass? && ValidateRelationshipName(relType).Pass?
              && MatchCount(old(rels), from, relType, to) != 1 ==>
                r == Err(SystemError) && rels == old(rels)
      ensures CheckEndpoints(t, from, to, user, Write).Pass? && ValidateRelationshipName(relType).Pass?
              && MatchCount(old(rels), from, relType, to) == 1 ==>
                r == Ok(relType) && rels == UpdateMatches(old(rels), from, relType, to, toSet, toRemove)
    {
      var guard := CheckEndpoints(t, from, to, user, Write);
      if guard.Fail? {
        return Err(guard.code);
      }
      if ValidateRelationshipName(relType).Fail? || MatchCount(rels, from, relType, to) != 1 {
        return Err(SystemError);
      }
      ghost var before := rels;
      rels := UpdateMatches(rels, from, relType, to, toSet, toRemove);
      forall i | 0 <= i < |rels|
        ensures rels[i].from in nodes && rels[i].to in nodes && NoNulls(rels[i].props)
      {
        MergePropsLaws(before[i].props, toSet);
      }
      r := Ok(relType);
    }

    /** findRelationship: the first matching relationship, or none. */
    function FindRelationship(t: Tables, from: string, to: string, relType: string, user: User): (r: Result<Option<Rel>>)
      reads this
      ensures CheckEndpoints(t, from, to, user, Read).Fail? ==> r == Err(CheckEndpoints(t, from, to, user, Read).code)
      ensures CheckEndpoints(t, from, to, user, Read).Pass? && ValidateRelationshipName(relType).Fail? ==> r == Err(SystemError)
      ensures r.Ok? ==> r.value == FirstMatch(rels, from, relType, to)
      ensures r.Ok? <==> CheckEndpoints(t, from, to, user, Read).Pass? && ValidateRelationshipName(relType).Pass?
    {
      var guard := CheckEndpoints(t, from, to, user, Read);
      if guard.Fail? then Err(guard.code)
      else if ValidateRelationshipName(relType).Fail? then Err(SystemError)
      else Ok(FirstMatch(rels, from, relType, to))
    }

    /** The propagation call approveMergeRequest makes for each image node: set the node's
        space and owning organization and remove its owning user, through `SET +=` with a
        null ownerUserId. The graph service declares no such operation; this is its stated intent.
        A node that does not exist is left alone. */
    method UpdateNodePermissions(name: string, space: string, orgId: Option<Id>)
      requires Valid()
      modifies this
      ensures Valid() && rels == old(rels)
      ensures name !in old(nodes) ==> nodes == old(nodes)
      ensures name in old(nodes) ==>
                nodes == old(nodes)[name := MergeProps(old(nodes)[name], OwnershipUpdate(space, orgId))]
    {
      if name in nodes {
        MergePropsLaws(nodes[name], OwnershipUpdate(space, orgId));
        nodes := nodes[name := MergeProps(nodes[name], OwnershipUpdate(space, orgId))];
      }
    }
  }

  /** The property map of the propagation call: {space, ownerOrganizationId, ownerUserId: null}. */
  function OwnershipUpdate(space: string, orgId: Option<Id>): (m: Props)
    ensures m.Keys == {SPACE_KEY, OWNER_ORG_KEY, OWNER_USER_KEY}
  {
    map[SPACE_KEY := Str(space), OWNER_ORG_KEY := OptId(orgId), OWNER_USER_KEY := Null]
  }

  /** After propagation the node carries the new space and organization and no owning user. */
  lemma OwnershipUpdateEffect(p: Props, space: string, orgId: Option<Id>)
    ensures var q := MergeProps(p, OwnershipUpdate(space, orgId));
      && SPACE_KEY in q && q[SPACE_KEY] == Str(space)
      && OWNER_USER_KEY !in q
      && (orgId.Some? ==> OWNER_ORG_KEY in q && q[OWNER_ORG_KEY] == IdVal(orgId.value))
      && (orgId.None? ==> OWNER_ORG_KEY !in q)
      && forall k | k in p && k != SPACE_KEY && k != OWNER_ORG_KEY && k != OWNER_USER_KEY :: k in q && q[k] == p[k]
  {
  }
}
