/**
 * Workspaces, folders, workflows, variables and connections: the tables with the constraints the schema puts
 * on them, and the repositories' operations as the statements they issue.
 */
module WorkspaceStore {
  import opened Common

  type Id = string

  datatype Workspace = Workspace(userId: Id, name: string, slug: string)
  datatype Folder = Folder(workspaceId: Id, name: string, slug: string, isDefault: bool)
  datatype Workflow =
    Workflow(workspaceId: Id, folderId: Option<Id>, name: string, slug: string, currentVersionId: Option<Id>)
  datatype Version = Version(workflowId: Id, version: nat)

  /** A variable or a connection; `content` is the value of the one and the credentials of the other. */
  datatype Item = Item(workspaceId: Id, folderId: Id, name: string, content: string)
  type Items = map<Id, Item>

  /**
   * The unique index on workflows: `prisma/schema.prisma` puts it on workspace, folder and name, the migration
   * that creates the table on workspace and slug. Everything here holds under either.
   */
  datatype WorkflowIndex = NamePerFolder | SlugPerWorkspace

  datatype Store = Store(
    workflowIndex: WorkflowIndex,
    workspaces: map<Id, Workspace>,
    folders: map<Id, Folder>,
    workflows: map<Id, Workflow>,
    versions: map<Id, Version>,
    variables: Items,
    connections: Items)

  function Empty(index: WorkflowIndex): Store {
    Store(index, map[], map[], map[], map[], map[], map[])
  }

  // ----- Statements and their constraints -----

  datatype Column = Key | Owner | InWorkspace | InFolder | Name | Slug | VersionNumber

  /** What the driver reports; a unique violation names the columns of the index. */
  datatype DbError = UniqueViolation(columns: set<Column>) | ForeignKeyViolation | RecordNotFound

  predicate IsUniqueViolation(e: DbError, c: Column) {
    e.UniqueViolation? && c in e.columns
  }

  function InsertWorkspace(s: Store, id: Id, w: Workspace): Result<Store, DbError> {
    if id in s.workspaces then Err(UniqueViolation({Key}))
    else if exists k :: k in s.workspaces && s.workspaces[k].userId == w.userId && s.workspaces[k].slug == w.slug
    then Err(UniqueViolation({Owner, Slug}))
    else Ok(s.(workspaces := s.workspaces[id := w]))
  }

  predicate FolderNameUsed(s: Store, id: Id, workspaceId: Id, name: string) {
    exists k :: k in s.folders && k != id && s.folders[k].workspaceId == workspaceId && s.folders[k].name == name
  }

  predicate FolderSlugUsed(s: Store, id: Id, workspaceId: Id, slug: string) {
    exists k :: k in s.folders && k != id && s.folders[k].workspaceId == workspaceId && s.folders[k].slug == slug
  }

  /** Which of two violated indexes PostgreSQL reports is its own affair: `slugFirst` leaves it open. */
  function InsertFolder(s: Store, id: Id, f: Folder, slugFirst: bool): Result<Store, DbError> {
    if id in s.folders then Err(UniqueViolation({Key}))
    else if FolderSlugUsed(s, id, f.workspaceId, f.slug) && (slugFirst || !FolderNameUsed(s, id, f.workspaceId, f.name))
    then Err(UniqueViolation({InWorkspace, Slug}))
    else if FolderNameUsed(s, id, f.workspaceId, f.name) then Err(UniqueViolation({InWorkspace, Name}))
    else if f.workspaceId !in s.workspaces then Err(ForeignKeyViolation)
    else Ok(s.(folders := s.folders[id := f]))
  }

  /** Rows without a folder never collide on a name. */
  predicate WorkflowNameUsed(s: Store, id: Id, w: Workflow) {
    w.folderId.Some? && exists k :: k in s.workflows && k != id && s.workflows[k].workspaceId == w.workspaceId
                                    && s.workflows[k].folderId == w.folderId && s.workflows[k].name == w.name
  }

  predicate WorkflowSlugUsed(s: Store, id: Id, w: Workflow) {
    exists k :: k in s.workflows && k != id
                && s.workflows[k].workspaceId == w.workspaceId && s.workflows[k].slug == w.slug
  }

  predicate WorkflowTaken(s: Store, id: Id, w: Workflow) {
    if s.workflowIndex.NamePerFolder? then WorkflowNameUsed(s, id, w) else WorkflowSlugUsed(s, id, w)
  }

  function IndexColumns(index: WorkflowIndex): set<Column> {
    if index.NamePerFolder? then {InWorkspace, InFolder, Name} else {InWorkspace, Slug}
  }

  predicate WorkflowRefs(s: Store, w: Workflow) {
    && w.workspaceId in s.workspaces
    && (w.folderId.Some? ==> w.folderId.value in s.folders)
    && (w.currentVersionId.Some? ==> w.currentVersionId.value in s.versions)
  }

  function PutWorkflow(s: Store, id: Id, w: Workflow): Result<Store, DbError> {
    if WorkflowTaken(s, id, w) then Err(UniqueViolation(IndexColumns(s.workflowIndex)))
    else if !WorkflowRefs(s, w) then Err(ForeignKeyViolation)
    else Ok(s.(workflows := s.workflows[id := w]))
  }

  function InsertWorkflow(s: Store, id: Id, w: Workflow): Result<Store, DbError> {
    if id in s.workflows then Err(UniqueViolation({Key})) else PutWorkflow(s, id, w)
  }

  function InsertVersion(s: Store, id: Id, v: Version): Result<Store, DbError> {
    if id in s.versions then Err(UniqueViolation({Key}))
    else if exists k :: k in s.versions && s.versions[k] == v then Err(UniqueViolation({Key, VersionNumber}))
    else if v.workflowId !in s.workflows then Err(ForeignKeyViolation)
    else Ok(s.(versions := s.versions[id := v]))
  }

  predicate ItemNameUsed(items: Items, id: Id, i: Item) {
    exists k :: k in items && k != id && items[k].workspaceId == i.workspaceId && items[k].folderId == i.folderId
                && items[k].name == i.name
  }

  function PutItem(s: Store, items: Items, id: Id, i: Item): Result<Items, DbError> {
    if ItemNameUsed(items, id, i) then Err(UniqueViolation({InWorkspace, InFolder, Name}))
    else if i.workspaceId !in s.workspaces || i.folderId !in s.folders then Err(ForeignKeyViolation)
    else Ok(items[id := i])
  }

  function InsertItem(s: Store, items: Items, id: Id, i: Item): Result<Items, DbError> {
    if id in items then Err(UniqueViolation({Key})) else PutItem(s, items, id, i)
  }

  // ----- The repositories -----

  datatype StoreError =
    | WorkspaceNotFound | WorkspaceSlugTaken
    | FolderNotFound | FolderNameTaken | FolderSlugTaken
    | WorkflowNotFound | WorkflowSlugTaken
    | ItemNotFound | ItemNameTaken
    | Infrastructure

  function OnCreateWorkspace(e: DbError): StoreError {
    if IsUniqueViolation(e, Slug) then WorkspaceSlugTaken else Infrastructure
  }

  /** The workspace and its default folder, in one transaction. */
  function CreateWorkspace(s: Store, id: Id, w: Workspace, folderId: Id): Result<Store, StoreError> {
    match InsertWorkspace(s, id, w)
    case Err(e) => Err(OnCreateWorkspace(e))
    case Ok(s1) =>
      match InsertFolder(s1, folderId, Folder(id, "default", "default", true), false)
      case Err(e) => Err(OnCreateWorkspace(e))
      case Ok(s2) => Ok(s2)
  }

  function OnCreateFolder(e: DbError): StoreError {
    if IsUniqueViolation(e, Name) then FolderNameTaken
    else if IsUniqueViolation(e, Slug) then FolderSlugTaken else Infrastructure
  }

  function CreateFolder(s: Store, id: Id, workspaceId: Id, name: string, slug: string, slugFirst: bool)
    : Result<Store, StoreError>
  {
    match InsertFolder(s, id, Folder(workspaceId, name, slug, false), slugFirst)
    case Err(e) => Err(OnCreateFolder(e))
    case Ok(s1) => Ok(s1)
  }

  /** The first statement of `rename`: the folder's new name and, when asked, its new flag. */
  function Renamed(s: Store, id: Id, workspaceId: Id, name: string, makeDefault: bool): Result<Store, StoreError> {
    if id !in s.folders || s.folders[id].workspaceId != workspaceId then Err(FolderNotFound)
    else if FolderNameUsed(s, id, workspaceId, name) then Err(FolderNameTaken)
    else
      var f := s.folders[id];
      Ok(s.(folders := s.folders[id := f.(name := name, isDefault := f.isDefault || makeDefault)]))
  }

  /** The second: clears the flag of the workspace's other defaults, among the rows the statement sees as such. */
  function OthersCleared(s: Store, id: Id, workspaceId: Id, visible: set<Id>): Store {
    s.(folders := map k | k in s.folders ::
         if k != id && s.folders[k].workspaceId == workspaceId && s.folders[k].isDefault && k in visible
         then s.folders[k].(isDefault := false) else s.folders[k])
  }

  /** Both in a transaction of their own that no other rename overlaps: every row is visible. */
  function RenameFolder(s: Store, id: Id, workspaceId: Id, name: string, makeDefault: bool): Result<Store, StoreError> {
    match Renamed(s, id, workspaceId, name, makeDefault)
    case Err(e) => Err(e)
    case Ok(s1) => Ok(if makeDefault then OthersCleared(s1, id, workspaceId, s1.folders.Keys) else s1)
  }

  function OnCreateWorkflow(e: DbError): StoreError {
    if IsUniqueViolation(e, Slug) then WorkflowSlugTaken else Infrastructure
  }

  /** The workflow, its version 1, and only then the link from one to the other. */
  function CreateWorkflow(s: Store, id: Id, versionId: Id, workspaceId: Id, folderId: Id, name: string, slug: string)
    : Result<Store, StoreError>
  {
    match InsertWorkflow(s, id, Workflow(workspaceId, Some(folderId), name, slug, None))
    case Err(e) => Err(OnCreateWorkflow(e))
    case Ok(s1) =>
      match InsertVersion(s1, versionId, Version(id, 1))
      case Err(e) => Err(OnCreateWorkflow(e))
      case Ok(s2) =>
        match PutWorkflow(s2, id, s2.workflows[id].(currentVersionId := Some(versionId)))
        case Err(e) => Err(OnCreateWorkflow(e))
        case Ok(s3) => Ok(s3)
  }

  function UpdateWorkflow(s: Store, id: Id, folderId: Id, name: Option<string>, slug: Option<string>)
    : Result<Store, StoreError>
  {
    if id !in s.workflows || s.workflows[id].folderId != Some(folderId) then Err(WorkflowNotFound)
    else
      var w := s.workflows[id];
      var w' := w.(name := if name.Some? then name.value else w.name,
                   slug := if slug.Some? then slug.value else w.slug);
      match PutWorkflow(s, id, w')
      case Err(e) => Err(if IsUniqueViolation(e, Slug) && slug.Some? && slug.value != []
          then WorkflowSlugTaken else Infrastructure)
      case Ok(s1) => Ok(s1)
  }

  predicate PointedAt(s: Store, workflowId: Id) {
    exists k, v :: k in s.workflows && k != workflowId && v in s.versions && s.versions[v].workflowId == workflowId
                   && s.workflows[k].currentVersionId == Some(v)
  }

  /** Deleting cascades to the workflow's versions, unless some other workflow still points at one of them. */
  function DeleteWorkflow(s: Store, id: Id, folderId: Id): Result<Store, StoreError> {
    if id !in s.workflows || s.workflows[id].folderId != Some(folderId) then Err(WorkflowNotFound)
    else if PointedAt(s, id) then Err(Infrastructure)
    else Ok(s.(workflows := s.workflows - {id},
               versions := map v | v in s.versions && s.versions[v].workflowId != id :: s.versions[v]))
  }

  function OnItem(e: DbError): StoreError {
    if IsUniqueViolation(e, Name) then ItemNameTaken else Infrastructure
  }

  function CreateItem(s: Store, items: Items, id: Id, i: Item): Result<Items, StoreError> {
    match InsertItem(s, items, id, i)
    case Err(e) => Err(OnItem(e))
    case Ok(items1) => Ok(items1)
  }

  function UpdateItem(s: Store, items: Items, id: Id, folderId: Id, name: Option<string>, content: Option<string>)
    : Result<Items, StoreError>
  {
    if id !in items || items[id].folderId != folderId then Err(ItemNotFound)
    else
      var i := items[id];
      match PutItem(s, items, id, i.(name := if name.Some? then name.value else i.name,
                                     content := if content.Some? then content.value else i.content))
      case Err(e) => Err(if IsUniqueViolation(e, Name) && name.Some? && name.value != [] then ItemNameTaken
          else Infrastructure)
      case Ok(items1) => Ok(items1)
  }

  function DeleteItem(items: Items, id: Id, folderId: Id): Result<Items, StoreError> {
    if id !in items || items[id].folderId != folderId then Err(ItemNotFound) else Ok(items - {id})
  }

  // ----- What the repositories promise their callers -----

  predicate SameName(i: Item, j: Item) {
    i.workspaceId == j.workspaceId && i.folderId == j.folderId && i.name == j.name
  }

  /** No two rows of one folder share a name: what the unique index says of the whole table. */
  ghost predicate NamesUnique(items: Items) {
    forall a, b :: a in items && b in items && SameName(items[a], items[b]) ==> a == b
  }

  /** An update of a workflow changes its name and its slug as given, each where it belongs, and no other row. */
  lemma WorkflowUpdated(s: Store, id: Id, f: Id, name: Option<string>, slug: Option<string>)
    ensures var r := UpdateWorkflow(s, id, f, name, slug);
            && (r.Err? && r.error == WorkflowNotFound <==> id !in s.workflows || s.workflows[id].folderId != Some(f))
            && (r.Ok? ==>
                  var w, w' := s.workflows[id], r.value.workflows[id];
                  && r.value == s.(workflows := r.value.workflows)
                  && r.value.workflows.Keys == s.workflows.Keys && r.value.workflows - {id} == s.workflows - {id}
                  && w'.name == (if name.Some? then name.value else w.name)
                  && w'.slug == (if slug.Some? then slug.value else w.slug)
                  && w'.workspaceId == w.workspaceId && w'.folderId == w.folderId
                  && w'.currentVersionId == w.currentVersionId)
  {
  }

  /** A creation adds its row and nothing else, or some other row has the name. */
  lemma ItemCreated(s: Store, items: Items, id: Id, row: Item)
    requires NamesUnique(items)
    ensures var r := CreateItem(s, items, id, row);
            && (r.Ok? ==> id !in items && r.value == items[id := row] && NamesUnique(r.value))
            && (r.Err? && r.error == ItemNameTaken ==> exists k :: k in items && k != id && SameName(items[k], row))
  {
  }

  /** An update changes its row in the fields given, in its own folder, or does not find it there. */
  lemma ItemUpdated(s: Store, items: Items, id: Id, f: Id, name: Option<string>, content: Option<string>)
    requires NamesUnique(items)
    ensures var r := UpdateItem(s, items, id, f, name, content);
            && (r.Err? && r.error == ItemNotFound <==> id !in items || items[id].folderId != f)
            && (r.Ok? ==>
                  && r.value.Keys == items.Keys && r.value - {id} == items - {id} && NamesUnique(r.value)
                  && r.value[id].workspaceId == items[id].workspaceId && r.value[id].folderId == f
                  && r.value[id].name == (if name.Some? then name.value else items[id].name)
                  && r.value[id].content == (if content.Some? then content.value else items[id].content))
  {
  }
}
