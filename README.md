# AMSNet back end: access control and the workflows it gates

This project is a Dafny model of the service layer of the AMSNet back end, a Spring Boot application. The application stores annotated circuit images in folders, and mirrors every image as a node of a Neo4j knowledge graph.

The model covers:

- **The permission engine.** Three gates (folder READ/WRITE, node READ/WRITE, organization admin) over the four current space tags `platform_public`, `organization_public`, `user_public` and `user_private`.
- **The graph service.** It still has its own legacy permission check, which knows only `public`, `organization` and `private`. Also modelled: node creation with property injection, set-then-remove updates, the relationship-type allow-list, and the get-all visibility filter.
- **The folder service.** Creation by space, cascading deletion, renaming, copying into a personal space, and the merge workflow NONE → PENDING → APPROVED | REJECTED.
- **The image service.** Grouping of an upload batch by base name and extension, the choice of annotation source, the storage-path rule, saving an image with its node and annotation, idempotent deletion, and the read guards.
- **The annotation, organization and user services.**

How the model is laid out:

- The relational tables are the class `Store.Database`, with one map field per table. `Snapshot()` packs them into an `Entities.Tables` value, and the pure gates read that value. `Valid()` keeps four invariants: keys equal ids, the storage-path index is exact, there is at most one annotation per image, and account names are unique.
- The graph is the class `Graph.GraphStore`: node name → property map, plus a sequence of relationships.
- A `@Transactional` method that throws rolls the tables back (`Database.Restore`). Graph writes are not part of that transaction and persist.
- `updateById` writes only non-null fields.
- A Java `switch` on a null string is a NullPointerException (`ErrorCode.NullPointer`).
- All ids are one abstract type, `Id`. Java mixes `Long` and `String` ids. An `equals` between two ids is read literally (a `Long` never equals a `String`) only where both operand types are declared in the code shown, as at `OrganizationServiceImpl.java:148`; elsewhere it is read as id equality (see Left out).

Files: `common.dfy` (results, constants, small helpers), `entities.dfy` (rows and table invariants), `store.dfy` (the relational store), `permission.dfy`, `graph.dfy`, `filenames.dfy` (commons-io name functions), `image.dfy`, `annotation.dfy`, `user.dfy`, `organization.dfy`, `folder.dfy`.

Where the code and its intent differ, the model follows the code, with one exception: `Organizations.RemoveMember` uses the corrected owner guard, and the code as written is modelled beside it (see Findings).

- **The legacy graph check rejects every current space tag**, so `createNode` for an image of any current folder fails even for a platform admin.
  - A non-admin's `deleteImage` of an existing image therefore ends in SYSTEM_ERROR whenever the WRITE gate passes. An unknown id is a silent success, and a failing gate returns its own code.
  - A source folder that holds an image can never be copied: `copyFolder` rolls back with SYSTEM_ERROR.
  - An upload that saves an image needs a platform admin.
- **Approving a merge leaves the folder's `ownerUserId` in place.** The code sets it to null, and `updateById` skips null fields. This is harmless for access, because an `organization_public` folder is judged by organization membership (`Folders.ApprovalHandsFolderToOrganization`).
- **A non-admin creating a `platform_public` folder** gets a NullPointerException from the probe folder, which has no space, rather than NO_AUTH.
- **`removeMember` as written never protects the owner.** See Findings; the model's `RemoveMember` protects the owner, as intended.

## Model

| member | source | states |
|---|---|---|
| Permission.CheckFolderPermission | src/main/java/com/scy/mytemplate/service/impl/PermissionServiceImpl.java:58-95 | null user gives NOT_LOGIN; otherwise passes exactly when the access relation (admin, platform read, org membership/admin role, personal owner) holds; a current-space refusal is NO_AUTH (or the NPE of a null owner), an unknown space SYSTEM_ERROR |
| Permission.CheckNodePermission | src/main/java/com/scy/mytemplate/service/impl/PermissionServiceImpl.java:37-55 | NOT_LOGIN, then admin bypass, then NOT_FOUND for a node with no image or an image with no folder |
| Permission.CheckOrganizationAdmin | src/main/java/com/scy/mytemplate/service/impl/PermissionServiceImpl.java:98-110 | passes iff platform admin or membership role exactly "admin"; failures are NOT_LOGIN or NO_AUTH only |
| Permission.PlatformPublicRow | src/main/java/com/scy/mytemplate/service/impl/PermissionServiceImpl.java:68-73 | platform_public: every non-admin may read and is refused write with NO_AUTH |
| Permission.OrganizationPublicRows | src/main/java/com/scy/mytemplate/service/impl/PermissionServiceImpl.java:74-84 | organization_public: non-member refused both; plain member reads only; org admin reads and writes |
| Permission.PersonalSpaceRows | src/main/java/com/scy/mytemplate/service/impl/PermissionServiceImpl.java:85-91 | personal spaces: access iff owner, NO_AUTH otherwise, the same for READ and WRITE |
| Permission.UnknownSpaceRow | src/main/java/com/scy/mytemplate/service/impl/PermissionServiceImpl.java:92-93 | any other space value is SYSTEM_ERROR for a non-admin |
| Permission.AdminPassesEveryGate | src/main/java/com/scy/mytemplate/service/impl/PermissionServiceImpl.java:42-44 | a platform admin passes all three gates for every folder, node and organization |
| Permission.NullUserFailsEveryGate | src/main/java/com/scy/mytemplate/service/impl/PermissionServiceImpl.java:38-40 | a null user fails all three gates with NOT_LOGIN |
| Permission.NodeGateDelegates | src/main/java/com/scy/mytemplate/service/impl/PermissionServiceImpl.java:46-54 | the node gate fails closed and otherwise equals the folder gate on the image's folder |
| Permission.WriteImpliesRead | src/main/java/com/scy/mytemplate/service/impl/PermissionServiceImpl.java:67-93 | whoever passes WRITE passes READ, for folders and for nodes |
| Entities.RoleInOrg | src/main/java/com/scy/mytemplate/service/impl/PermissionServiceImpl.java:76 | the membership lookup returns the stored role of (org, user), none for a null org |
| Graph.CheckPermissionByFolder | src/main/java/com/scy/mytemplate/service/impl/GraphServiceImpl.java:344-369 | passes iff the legacy public/organization/private relation holds; every current space tag is SYSTEM_ERROR, admin or not |
| Graph.CheckPermission | src/main/java/com/scy/mytemplate/service/impl/GraphServiceImpl.java:334-342 | NOT_LOGIN, admin bypass, NOT_FOUND without image or folder, then the legacy check on the folder |
| Graph.LegacyCheckRejectsCurrentSpaces | src/main/java/com/scy/mytemplate/service/impl/GraphServiceImpl.java:350-368 | a non-admin is refused with SYSTEM_ERROR on any node of a current-space folder |
| Graph.NoNonAdminPassesBothChecks | src/main/java/com/scy/mytemplate/service/impl/GraphServiceImpl.java:72 | no non-admin passes both the folder WRITE gate and the legacy WRITE check on one folder |
| Graph.ValidateRelationshipName | src/main/java/com/scy/mytemplate/service/impl/GraphServiceImpl.java:371-375 | passes iff the name matches ^[a-zA-Z_][a-zA-Z0-9_]*$, PARAMS_ERROR otherwise |
| Graph.ValidRelationshipNameIsSafe | src/main/java/com/scy/mytemplate/service/impl/GraphServiceImpl.java:371-375 | an accepted relationship name is non-blank and holds no Cypher delimiter |
| Graph.NodeToView | src/main/java/com/scy/mytemplate/service/impl/GraphServiceImpl.java:377-383 | the view drops "name" and keeps every other property unchanged |
| Graph.NodeToViewRoundTrip | src/main/java/com/scy/mytemplate/service/impl/GraphServiceImpl.java:377-383 | storing a name beside the properties and viewing the node gives back the name and the same properties |
| Graph.MergeProps | src/main/java/com/scy/mytemplate/service/impl/GraphServiceImpl.java:86-87 | SET n += m: keys of m with non-null values are written, null values remove the key, other keys are kept |
| Graph.MergePropsLaws | src/main/java/com/scy/mytemplate/service/impl/GraphServiceImpl.java:86-87 | merging keeps the store free of nulls and is idempotent |
| Graph.CreatedNodePropsOverride | src/main/java/com/scy/mytemplate/service/impl/GraphServiceImpl.java:81-87 | for a request without a "name" property: the new node carries the folder's space and owners exactly, and every other non-null request property |
| Graph.UpdatedPropsEffect | src/main/java/com/scy/mytemplate/service/impl/GraphServiceImpl.java:126-142 | for a request with no "name" key in either list: after set-then-remove, non-blank removed keys are gone, set keys hold their values, untouched keys are kept |
| Graph.RemoveEachKey | src/main/java/com/scy/mytemplate/service/impl/GraphServiceImpl.java:130-136 | the loop over the remove list deletes exactly the non-blank keys listed |
| Graph.RemovableKeys | src/main/java/com/scy/mytemplate/service/impl/GraphServiceImpl.java:131-133 | the keys removed are exactly the listed non-blank ones |
| Graph.WithoutNode | src/main/java/com/scy/mytemplate/service/impl/GraphServiceImpl.java:106 | DETACH DELETE leaves exactly the relationships not touching the node |
| Graph.WithoutNodes | src/main/java/com/scy/mytemplate/service/impl/GraphServiceImpl.java:106 | detaching a set of nodes leaves exactly the relationships touching none of them |
| Graph.WithoutNodesCompose | src/main/java/com/scy/mytemplate/service/impl/GraphServiceImpl.java:106 | detaching one set of nodes and then another is detaching their union |
| Graph.WithoutMatches | src/main/java/com/scy/mytemplate/service/impl/GraphServiceImpl.java:233-236 | deletion leaves exactly the relationships that do not match (from, type, to) |
| Graph.UpdateMatches | src/main/java/com/scy/mytemplate/service/impl/GraphServiceImpl.java:255-270 | every matching relationship is merged and stripped, every other one is unchanged |
| Graph.MatchCount | src/main/java/com/scy/mytemplate/service/impl/GraphServiceImpl.java:269-271 | the number of matching relationships is zero iff there is no first match |
| Graph.SeveralMatches | src/main/java/com/scy/mytemplate/service/impl/GraphServiceImpl.java:271 | two or more matches, the case where `single()` throws, means exactly that two distinct positions match |
| Graph.FirstMatch | src/main/java/com/scy/mytemplate/service/impl/GraphServiceImpl.java:288-300 | none iff no relationship matches; otherwise the first matching one |
| Graph.RelsWithin | src/main/java/com/scy/mytemplate/service/impl/GraphServiceImpl.java:309-316 | exactly the relationships with both endpoints visible |
| Graph.CurrentSpaceNodesHidden | src/main/java/com/scy/mytemplate/service/impl/GraphServiceImpl.java:176-183 | a node tagged with a current space is visible to no non-admin |
| Graph.GraphStore.CreateNodeGuard | src/main/java/com/scy/mytemplate/service/impl/GraphServiceImpl.java:65-72 | passing needs a non-blank name, a resolvable folder and the legacy WRITE relation |
| Graph.GraphStore.CreateNode | src/main/java/com/scy/mytemplate/service/impl/GraphServiceImpl.java:63-97 | guard failures and an existing name change nothing (the latter SYSTEM_ERROR); otherwise exactly one node is added with the injected properties |
| Graph.GraphStore.DeleteNode | src/main/java/com/scy/mytemplate/service/impl/GraphServiceImpl.java:100-113 | WRITE failure changes nothing; otherwise the node and its relationships are gone |
| Graph.GraphStore.UpdateNode | src/main/java/com/scy/mytemplate/service/impl/GraphServiceImpl.java:116-149 | WRITE first; empty set and remove lists return untouched; a missing node is SYSTEM_ERROR; otherwise the node becomes its set-then-removed properties, a "name" key in either list aside |
| Graph.GraphStore.FindNode | src/main/java/com/scy/mytemplate/service/impl/GraphServiceImpl.java:152-168 | READ failure is reported; when READ passes the call succeeds, with the node's view iff the node exists |
| Graph.GraphStore.GetAllNodes | src/main/java/com/scy/mytemplate/service/impl/GraphServiceImpl.java:171-192 | admin sees every node; a non-admin sees a node iff it is public, private and owned, or organization-owned by one of the user's organizations |
| Graph.GraphStore.GetAllRelationships | src/main/java/com/scy/mytemplate/service/impl/GraphServiceImpl.java:307-330 | NOT_LOGIN iff no user; a logged-in call succeeds with exactly the relationships whose both endpoints are visible, empty when no node is visible |
| Graph.GraphStore.CheckEndpoints | src/main/java/com/scy/mytemplate/service/impl/GraphServiceImpl.java:204-205 | passes iff both endpoints pass the node check, reporting the first endpoint's failure first |
| Graph.GraphStore.CreateRelationship | src/main/java/com/scy/mytemplate/service/impl/GraphServiceImpl.java:197-222 | blank parts are PARAMS_ERROR; succeeds iff both endpoints are writable and exist and the type is valid; appends exactly one relationship |
| Graph.GraphStore.DeleteRelationship | src/main/java/com/scy/mytemplate/service/impl/GraphServiceImpl.java:225-243 | WRITE on both endpoints, a valid type, then every matching relationship is removed |
| Graph.GraphStore.UpdateRelationship | src/main/java/com/scy/mytemplate/service/impl/GraphServiceImpl.java:246-277 | WRITE on both endpoints, a valid type, then exactly one match is updated and its type returned; no match or several matches is SYSTEM_ERROR with the relationships unchanged |
| Graph.GraphStore.FindRelationship | src/main/java/com/scy/mytemplate/service/impl/GraphServiceImpl.java:280-304 | READ on both endpoints and a valid type, then the first match |
| Graph.GraphStore.UpdateNodePermissions | src/main/java/com/scy/mytemplate/service/impl/FolderServiceImpl.java:293-298 | the propagation call merges the ownership update into an existing node and creates none |
| Graph.OwnershipUpdateEffect | src/main/java/com/scy/mytemplate/service/impl/FolderServiceImpl.java:294-297 | after propagation the node has the new space and organization, no owning user, and all its other properties |
| Folders.CreateFolderGuard | src/main/java/com/scy/mytemplate/service/impl/FolderServiceImpl.java:71-96 | passes iff name and space are non-blank and the space is personal, organization_public with an org id and an org admin, or platform_public for a platform admin; unknown space PARAMS_ERROR, platform_public by a non-admin an NPE |
| Folders.CreatorMayUseFolder | src/main/java/com/scy/mytemplate/service/impl/FolderServiceImpl.java:75-92 | whoever may create a folder may read and write the folder created |
| Folders.CreateFolder | src/main/java/com/scy/mytemplate/service/impl/FolderServiceImpl.java:70-103 | succeeds iff the guard passes; adds exactly the new folder, owned by the creator or the organization by space |
| Folders.FolderImagePaths | src/main/java/com/scy/mytemplate/service/impl/FolderServiceImpl.java:114-120 | the nodes the batch deletion removes are exactly the storage paths of the folder's images |
| Folders.DeletedImagesLeaveNothing | src/main/java/com/scy/mytemplate/service/impl/FolderServiceImpl.java:114-120 | after the batch deletion the folder holds no image and no annotation of its former images is left |
| Folders.DeleteFolderImages | src/main/java/com/scy/mytemplate/service/impl/FolderServiceImpl.java:114-120 | on success the tables lose exactly the folder's images, their paths and annotations, the graph exactly their nodes and the relationships touching them; failure rolls the tables back; a non-empty folder needs a platform admin, who always succeeds |
| Folders.DeleteFolder | src/main/java/com/scy/mytemplate/service/impl/FolderServiceImpl.java:107-126 | NOT_FOUND, WRITE, then the folder, its images, their paths, annotations, nodes and relationships are gone and nothing else changes; any failure leaves the tables as they were; a platform admin deleting an existing folder always succeeds |
| Folders.UpdateFolder | src/main/java/com/scy/mytemplate/service/impl/FolderServiceImpl.java:130-146 | a blank name first, then NOT_FOUND and WRITE; only the name changes |
| Folders.RenameKeepsAccess | src/main/java/com/scy/mytemplate/service/impl/FolderServiceImpl.java:139 | renaming changes nobody's access |
| Folders.SelectFolderImages | src/main/java/com/scy/mytemplate/service/impl/FolderServiceImpl.java:176 | every row of the folder once, and their paths are exactly the folder's node names |
| Folders.CopiedNodePropertiesFilter | src/main/java/com/scy/mytemplate/service/impl/FolderServiceImpl.java:227-238 | the copy's request has the target space and the copying user, no owning organization, and exactly the source node's other properties |
| Folders.CopyPathLayout | src/main/java/com/scy/mytemplate/service/impl/FolderServiceImpl.java:197-199 | a copy is stored under user/<id>/, where an upload to the user's private folder would go, and the path is not blank |
| Folders.CopyAnnotation | src/main/java/com/scy/mytemplate/service/impl/FolderServiceImpl.java:213-221 | the source annotation, if any, is copied onto the new image with the copier as editor; nothing else changes |
| Folders.SaveCopyRows | src/main/java/com/scy/mytemplate/service/impl/FolderServiceImpl.java:203-221 | one new image row in the target folder, resolving to the target folder |
| Folders.CopyNode | src/main/java/com/scy/mytemplate/service/impl/FolderServiceImpl.java:223-241 | on success exactly one node is added with the filtered properties; fails with SYSTEM_ERROR whenever the target has a current space |
| Folders.DeepCopyImageEntry | src/main/java/com/scy/mytemplate/service/impl/FolderServiceImpl.java:189-242 | rows then node; the graph changes only on success; SYSTEM_ERROR for a current-space target |
| Folders.CopyImages | src/main/java/com/scy/mytemplate/service/impl/FolderServiceImpl.java:176-185 | copies each image in order, stopping at the first failure; with any image and a personal target the first copy fails and the graph is untouched |
| Folders.SaveCopyFolder | src/main/java/com/scy/mytemplate/service/impl/FolderServiceImpl.java:170-174 | adds exactly one folder owned by the copying user in the target space |
| Folders.CopyInto | src/main/java/com/scy/mytemplate/service/impl/FolderServiceImpl.java:170-186 | succeeds iff the source folder has no image; failure is SYSTEM_ERROR with the tables rolled back |
| Folders.CopyFolder | src/main/java/com/scy/mytemplate/service/impl/FolderServiceImpl.java:158-187 | NOT_FOUND, READ, personal target (PARAMS_ERROR); succeeds iff all these hold and the source has no image; the graph never changes |
| Folders.RequestMergeGuard | src/main/java/com/scy/mytemplate/service/impl/FolderServiceImpl.java:247-254 | NOT_FOUND, then the WRITE failure, then PARAMS_ERROR; passes iff a user_public folder of the caller (or an admin); the previous merge state is not read |
| Folders.RequestMerge | src/main/java/com/scy/mytemplate/service/impl/FolderServiceImpl.java:246-259 | on success only mergeState (PENDING) and the target organization change |
| Folders.DecideMergeGuard | src/main/java/com/scy/mytemplate/service/impl/FolderServiceImpl.java:280-284 | NOT_FOUND unless the folder exists and is PENDING, checked before the org-admin gate on the target |
| Folders.ApproveMergeRequest | src/main/java/com/scy/mytemplate/service/impl/FolderServiceImpl.java:279-300 | on success the folder becomes organization_public, owned by the target, APPROVED, and every node of its images receives the ownership update; failure changes nothing |
| Folders.PushOwnership | src/main/java/com/scy/mytemplate/service/impl/FolderServiceImpl.java:292-299 | after the loop the graph is the old graph with every listed node propagated |
| Folders.PropagatedStep | src/main/java/com/scy/mytemplate/service/impl/FolderServiceImpl.java:292-299 | one more propagation call extends the propagated set, even for a node already done |
| Folders.PropagatedOwnership | src/main/java/com/scy/mytemplate/service/impl/FolderServiceImpl.java:294-297 | propagated nodes are organization_public, owned by the organization, with no owning user; others are unchanged |
| Folders.ApprovedNodesHidden | src/main/java/com/scy/mytemplate/service/impl/FolderServiceImpl.java:295 | a node of an approved folder is hidden from every non-admin by get-all |
| Folders.RejectMergeRequest | src/main/java/com/scy/mytemplate/service/impl/FolderServiceImpl.java:304-313 | only mergeState changes, to REJECTED |
| Folders.ListPendingMerges | src/main/java/com/scy/mytemplate/service/impl/FolderServiceImpl.java:262-275 | for an org admin exactly the folders PENDING towards the organization, each with its requester's view |
| Folders.DecidedOnce | src/main/java/com/scy/mytemplate/service/impl/FolderServiceImpl.java:281 | an approved or rejected request cannot be decided again |
| Folders.RequestAfterDecision | src/main/java/com/scy/mytemplate/service/impl/FolderServiceImpl.java:252 | an approved folder can never be requested again; a rejected one exactly as before |
| Folders.PendingListFollowsRequests | src/main/java/com/scy/mytemplate/service/impl/FolderServiceImpl.java:264-266 | a request appears in its organization's pending list and leaves it when decided |
| Folders.ApprovalHandsFolderToOrganization | src/main/java/com/scy/mytemplate/service/impl/FolderServiceImpl.java:286-290 | after approval members read, org admins write, and the retained former owner gains nothing |
| Images.GroupFiles | src/main/java/com/scy/mytemplate/service/impl/ImageServiceImpl.java:101-123 | the grouping loop yields the fold of the batch |
| Images.FoldGroups | src/main/java/com/scy/mytemplate/service/impl/ImageServiceImpl.java:101-123 | groups are keyed by the non-blank base names, and each holds the last file of each kind |
| Images.ImageFilesReference | src/main/java/com/scy/mytemplate/service/impl/ImageServiceImpl.java:126-138 | a group yields an image iff its base name occurs and it has an image file, the last one |
| Images.SingleFileImages | src/main/java/com/scy/mytemplate/service/impl/ImageServiceImpl.java:71-77 | a single image file forms one group with that file; anything else forms no image |
| Images.DetermineAnnotationJson | src/main/java/com/scy/mytemplate/service/impl/ImageServiceImpl.java:143-156 | JSON file first, else YOLO, else empty; read errors give an empty map |
| Images.JsonFileNeverFails | src/main/java/com/scy/mytemplate/service/impl/ImageServiceImpl.java:145-149 | a group with a JSON file never fails on its annotation |
| Images.StoragePath | src/main/java/com/scy/mytemplate/service/impl/ImageServiceImpl.java:219-230 | a null space is an NPE; paths never hold a backslash |
| Images.StoragePathLayout | src/main/java/com/scy/mytemplate/service/impl/ImageServiceImpl.java:219-230 | organization → organization/<org>/, private → user/<uid>/, every other space → public/; never blank |
| Images.ImageNodeMirrorsFolder | src/main/java/com/scy/mytemplate/service/impl/ImageServiceImpl.java:260-267 | the image node carries exactly the folder's space and owners |
| Images.SaveImageAndAnnotation | src/main/java/com/scy/mytemplate/service/impl/ImageServiceImpl.java:215-286 | on success one row, one fresh node named by the path (absent before) and one annotation are added, and every annotation added belongs to this image; an admin with a legacy folder always succeeds |
| Images.SaveGroup | src/main/java/com/scy/mytemplate/service/impl/ImageServiceImpl.java:133-136 | an undecodable YOLO image is an NPE; on success one new row of the folder named after the image file, its node holding the folder's ownership properties, and an annotation with the group's document by the user; every annotation added belongs to this image; the graph gains exactly this node, absent before, and its relationships are unchanged; only the image, path and annotation tables change |
| Images.SaveFiles | src/main/java/com/scy/mytemplate/service/impl/ImageServiceImpl.java:126-138 | exactly one saved image per group with an image file, carrying that file's name; each saved image is a new row with its node holding the folder's ownership properties and an annotation with the document of its base name's group; the image table gains exactly these rows; every annotation added belongs to a saved image; the graph's nodes gain exactly the saved images' storage paths; no image group leaves tables and graph unchanged |
| Images.UploadImagesWithAnnotationsBatch | src/main/java/com/scy/mytemplate/service/impl/ImageServiceImpl.java:94-141 | NOT_FOUND and WRITE first; on success one stored image per image group, each with its node's ownership properties and the annotation its group determines, the image table gaining exactly these rows, every added annotation belonging to a saved image, the graph's nodes gaining exactly the saved images' storage paths, and the folder, user, organization and membership tables unchanged; no image group changes nothing; any failure rolls the tables back |
| Images.UploadImage | src/main/java/com/scy/mytemplate/service/impl/ImageServiceImpl.java:71-77 | a single file is saved only if it is an image file, and then by a platform admin; the image table gains exactly its row and the graph exactly its node with the folder's ownership properties, relationships unchanged; the annotations only gain, and only for it, one with an empty document |
| Images.DeleteImage | src/main/java/com/scy/mytemplate/service/impl/ImageServiceImpl.java:290-309 | unknown id is a silent no-op; WRITE; then row, annotations and node go; a non-admin ends in SYSTEM_ERROR with the tables rolled back |
| Images.AnnotationsOfIds | src/main/java/com/scy/mytemplate/service/impl/ImageServiceImpl.java:299 | the annotations removed are exactly those of the listed images that exist |
| Images.WithoutOneImage | src/main/java/com/scy/mytemplate/service/impl/ImageServiceImpl.java:290-309 | one deletion of an unknown id changes nothing; of a known id it removes exactly its row, its path and its annotations |
| Images.WithoutImagesCompose | src/main/java/com/scy/mytemplate/service/impl/ImageServiceImpl.java:317-319 | deleting one set of images and then another is deleting their union |
| Images.DeleteEach | src/main/java/com/scy/mytemplate/service/impl/ImageServiceImpl.java:317-319 | the loop, on success, leaves exactly the tables and graph without the listed images, their paths, annotations, nodes and relationships; it succeeds for a platform admin, and a non-admin succeeds only if no listed image exists |
| Images.DeleteImagesBatch | src/main/java/com/scy/mytemplate/service/impl/ImageServiceImpl.java:313-320 | an empty list is PARAMS_ERROR; on success the listed images, their paths, annotations, nodes and relationships are gone and nothing else changes; failure rolls the tables back; a platform admin always succeeds on a non-empty list |
| Images.GetImageVOById | src/main/java/com/scy/mytemplate/service/impl/ImageServiceImpl.java:343-350 | NOT_FOUND for a missing id; the stored row otherwise |
| Images.GetImageFollowsFolderGate | src/main/java/com/scy/mytemplate/service/impl/ImageServiceImpl.java:343-350 | for a non-admin, the image is returned iff the folder gate grants READ |
| Images.ListImages | src/main/java/com/scy/mytemplate/service/impl/ImageServiceImpl.java:323-340 | READ on the folder, then exactly the folder's images whose name contains the keyword |
| Images.BlankKeywordListsFolder | src/main/java/com/scy/mytemplate/service/impl/ImageServiceImpl.java:330-335 | a blank keyword lists the whole folder |
| Images.UpdateImage | src/main/java/com/scy/mytemplate/service/impl/ImageServiceImpl.java:353-364 | node WRITE; only the file name changes, only for a non-blank name; the storage path never changes |
| Images.GetImageVOByFolderAndName | src/main/java/com/scy/mytemplate/service/impl/ImageServiceImpl.java:367-383 | PARAMS_ERROR, NOT_FOUND, READ; none, the single match, or SYSTEM_ERROR for several |
| Filenames.NameSplits | src/main/java/com/scy/mytemplate/service/impl/ImageServiceImpl.java:105-107 | a file name is its base name, then the dot and the extension when there is one |
| Filenames.BaseNameHasNoSeparator | src/main/java/com/scy/mytemplate/service/impl/ImageServiceImpl.java:105 | a base name holds no path separator |
| Filenames.ExtensionHasNoDot | src/main/java/com/scy/mytemplate/service/impl/ImageServiceImpl.java:106 | an extension holds no dot and no separator |
| Filenames.KindIgnoresCase | src/main/java/com/scy/mytemplate/service/impl/ImageServiceImpl.java:106-118 | two extensions equal up to case, for every pair, are sorted into the same kind |
| Filenames.KindsOfExtensions | src/main/java/com/scy/mytemplate/service/impl/ImageServiceImpl.java:108-118 | for every extension: an image iff png, jpg or jpeg up to case; an annotation iff json up to case; a YOLO label iff txt up to case; ignored iff none of these |
| Annotations.ImageNodeGate | src/main/java/com/scy/mytemplate/service/impl/AnnotationServiceImpl.java:52-57 | NOT_FOUND for a missing image, then the node gate on its path |
| Annotations.SerializeJsonContent | src/main/java/com/scy/mytemplate/service/impl/AnnotationServiceImpl.java:155-165 | null content is stored as the empty object |
| Annotations.CreateAnnotation | src/main/java/com/scy/mytemplate/service/impl/AnnotationServiceImpl.java:50-78 | NOT_FOUND, WRITE, then OPERATION_ERROR for a second annotation; on success one row edited by the caller |
| Annotations.GetAnnotationByImageId | src/main/java/com/scy/mytemplate/service/impl/AnnotationServiceImpl.java:81-95 | null for a missing image, READ otherwise, then the image's annotation if any |
| Annotations.UpdateAnnotation | src/main/java/com/scy/mytemplate/service/impl/AnnotationServiceImpl.java:99-123 | NOT_FOUND, WRITE; content and editor change, the image never does |
| Annotations.DeleteAnnotation | src/main/java/com/scy/mytemplate/service/impl/AnnotationServiceImpl.java:127-147 | no-op when missing; an orphan goes unchecked; otherwise WRITE then removal |
| Organizations.CreateOrganization | src/main/java/com/scy/mytemplate/service/impl/OrganizationServiceImpl.java:42-66 | blank or taken name is PARAMS_ERROR; the creator owns the organization and passes its admin gate |
| Organizations.EditedViewAgainstRow | src/main/java/com/scy/mytemplate/service/impl/OrganizationServiceImpl.java:77-82 | the returned view agrees with the stored row on every non-null request field and shows null where the row kept its old value |
| Organizations.UpdateOrganization | src/main/java/com/scy/mytemplate/service/impl/OrganizationServiceImpl.java:69-83 | succeeds iff the organization exists and the caller is org or platform admin; the stored row keeps the old value of a null field; the result carries the request's name and description, nulls included |
| Organizations.DeleteOrganization | src/main/java/com/scy/mytemplate/service/impl/OrganizationServiceImpl.java:87-103 | owner or platform admin only; all membership rows go, then the organization |
| Organizations.InviteMember | src/main/java/com/scy/mytemplate/service/impl/OrganizationServiceImpl.java:106-132 | org admin with no platform bypass; the invitee must exist and not be a member; adds one row with the requested role |
| Organizations.RemoveMember | src/main/java/com/scy/mytemplate/service/impl/OrganizationServiceImpl.java:135-155 | removes exactly the (org, member) row; the owner's row is never removed |
| Organizations.OwnerProtected | src/main/java/com/scy/mytemplate/service/impl/OrganizationServiceImpl.java:148-150 | the corrected guard refuses the owner and agrees with the code on everyone else |
| Organizations.ListMembers | src/main/java/com/scy/mytemplate/service/impl/OrganizationServiceImpl.java:158-172 | any member or a platform admin gets exactly the members' views |
| Organizations.ListingMatchesReadAccess | src/main/java/com/scy/mytemplate/service/impl/OrganizationServiceImpl.java:165-168 | who may list members is exactly who may read the organization's folders |
| Users.EncryptInjective | src/main/java/com/scy/mytemplate/service/impl/UserServiceImpl.java:78 | salting keeps different passwords apart |
| Users.RegisterGuard | src/main/java/com/scy/mytemplate/service/impl/UserServiceImpl.java:55-66 | passes iff no field is blank, account ≥ 4, password ≥ 8, and the two passwords are equal; every failure is PARAMS_ERROR |
| Users.LoginGuard | src/main/java/com/scy/mytemplate/service/impl/UserServiceImpl.java:93-101 | the same blank and length checks |
| Users.RegisteredCredentialsPassLoginChecks | src/main/java/com/scy/mytemplate/service/impl/UserServiceImpl.java:55-66 | credentials that register pass login's checks |
| Users.RegisterThenLogin | src/main/java/com/scy/mytemplate/service/impl/UserServiceImpl.java:71-117 | after registering, login with the same credentials finds exactly the new user, and a different password finds none |
| Users.UserRegister | src/main/java/com/scy/mytemplate/service/impl/UserServiceImpl.java:53-89 | succeeds iff the checks pass and the account is free; adds exactly one user |
| Users.UserLogin | src/main/java/com/scy/mytemplate/service/impl/UserServiceImpl.java:92-125 | PARAMS_ERROR for bad input or no match, FORBIDDEN for a banned user, otherwise the user and their organizations |
| Users.IsAdmin | src/main/java/com/scy/mytemplate/service/impl/UserServiceImpl.java:189-191 | true iff the user is non-null with the admin role |
| Users.GetUserVO | src/main/java/com/scy/mytemplate/service/impl/UserServiceImpl.java:218-225 | null for null; otherwise the id and name |
| Users.GetUserVOs | src/main/java/com/scy/mytemplate/service/impl/UserServiceImpl.java:228-233 | one view per user in order; the empty list for an empty list |

## Left out

- Controllers, sessions (`getLoginUser`, logout), WeChat login: routing and identity plumbing. The logged-in `User` is a parameter.
- Cypher text, backtick escaping and the Neo4j driver: the graph is modelled as maps and a sequence of relationships.
- Pagination, query wrappers and the `findVisibleFoldersForUser` SQL (`listFoldersForCurrentUser`): thin library wrappers.
- File I/O (`transferTo`, `Files.copy`, `rollbackFile`, `downloadImage`), ImageIO dimension reading and the size columns: no file system. Upload files are values whose JSON or YOLO reading has already succeeded or failed.
- The skip-if-source-missing branch of `deepCopyImageEntry`: the source file is taken to exist.
- YOLO-to-JSON conversion: floating-point arithmetic. Its result is an input to the model.
- MD5: treated as an injective function (`Md5Hex`). UUIDs and the clock are parameters.
- `synchronized` locking and concurrency: the model is sequential.
- The "save returned false" branches: the store's inserts always succeed.
- Column defaults: a new account has no role and no name.
- `Folders.CreateFolder`: a blank organization id and a missing one are both modelled as no id.
- `Organizations.InviteMember`: the role is a non-null string. A null role is not modelled.
- `Folders.DeepCopyImageEntry`: does not say what the copied node holds. `Folders.CopyNode` states that, but no copy reaches it, because the node creation refuses every personal target.
- `Images.UploadImage` and `Images.SaveFiles`: the `ImageVO` returned is the stored row, without the URL or the dimensions.
- `Graph.CreatedNodePropsOverride`: holds only for requests without a "name" property. The code's `SET n.name = $name, n += $props` lets such a property rename the new node, or remove its name when null; the model keys nodes by name, so it drops a request "name" property instead.
- `Graph.GraphStore.CreateNode`: a request "name" property is dropped rather than renaming the node, for the same reason.
- `Graph.UpdatedPropsEffect`: holds only for requests whose propertiesToSet and propertiesToRemove hold no "name" key. `SET n += $propsToSet` can rename the node or remove its name, and ``REMOVE n.`name` `` removes its name, so no later lookup by name finds it; the model keeps "name" out of the property maps, so such a key is dropped from propertiesToSet and removing it is a no-op.
- `Graph.GraphStore.UpdateNode`: a "name" key in propertiesToSet is dropped rather than renaming the node, and a "name" key in propertiesToRemove leaves the node named rather than clearing its name, for the same reason.
- `Graph.FirstMatch` and `Graph.GraphStore.FindRelationship`: the first match in sequence order stands in for the order of Neo4j's `findFirst`, which the database does not specify.
- `Permission.PersonalSpaceRows`, `Graph.CheckPermissionByFolder`, `Organizations.DeleteOrganization`, `Graph.VisibleTo` and `Graph.GraphStore.GetAllNodes`: the owner comparisons at `PermissionServiceImpl.java:88`, `GraphServiceImpl.java:362` and `OrganizationServiceImpl.java:93`, and the `n.ownerOrganizationId IN $orgIds` and `n.ownerUserId = $userId` tests at `GraphServiceImpl.java:180`, are read as id equality, because the entity classes that declare the operand types are not part of this model. The node property is stored from the folder's field at `GraphServiceImpl.java:86-87`; if that field is a `String`, a property never matches the `List<Long>` of organization ids, and organization nodes are hidden from every non-admin in the source but not in the model.
- `Users.RegisterGuard` and `Users.LoginGuard`: a string's length is its number of characters, whereas Java's `String.length()` counts UTF-16 code units, so a character outside the Basic Multilingual Plane counts once instead of twice.
- `Images.StoragePath`: the path is joined with "/" as given; the normalisation of `Paths.get` (collapsing "//", dropping a trailing "/") is not modelled.
- `Images.DeleteImage`: the node check inside `deleteNode` looks the image up by storage path after its row is removed. The model takes that lookup to skip removed rows, so a non-admin's deletion fails there with NOT_FOUND, re-wrapped as SYSTEM_ERROR; the SQL of `findByStoragePath` is not part of this model.
- `Images.ListImages`: the keyword is matched literally as a substring. The code's `like` wraps the keyword in `%…%` without escaping it, so a `_` or `%` inside the keyword is a wildcard there (keyword `a_b` lists `axb.png`; keyword `%` lists the whole folder), and the database collation may also ignore case; neither is modelled.
- `Users.UserLogin`: the organizations of the returned `LoginUserVO` are modelled as the set of organization ids; the name and the role in the organization that each `UserOrganizationInfoVO` carries, and the list's order, are not modelled.
- `Organizations.ListMembers`: the users listed are taken to be exactly those with a membership row in the organization. The query behind `findUsersInOrganization` is not part of this model, so this reading is an assumption.
- `Organizations.UpdateOrganization`: the result models only the name and description of the returned `OrganizationVO`, not its other fields.
- `Filenames.Lower`: lowers the ASCII letters only, whereas `String.toLowerCase` also lowers other alphabets.

## Findings

| source | as written | input that shows it | evidently intended | confidence | as-written member | corrected member |
|---|---|---|---|---|---|---|
| src/main/java/com/scy/mytemplate/service/impl/OrganizationServiceImpl.java:148 | `organization.getOwnerId().equals(memberUserId)` compares a `Long` with a `String`, which is never equal, so the owner guard never fires | an org admin removes the member whose id is the organization's owner id: the row is deleted | the owner of an organization cannot be removed (OPERATION_ERROR) | not executed | Organizations.RemoveMemberGuardAsWritten, Organizations.OwnerRemovableAsWritten | Organizations.RemoveMemberGuard, Organizations.OwnerProtected, Organizations.RemoveMember |
