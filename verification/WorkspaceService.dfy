/**
 * The workspace service as requests that check ownership first and write later, with any other requests in
 * between, and what every such run keeps true of the tables.
 */
module WorkspaceService {
  import opened Common
  import opened WorkspaceStore

  /** What a request has established about its path: the workspace is the caller's, the folder is in it. */
  datatype Ticket = Ticket(userId: Id, workspaceId: Id, folderId: Option<Id>)

  datatype Op =
    | NewWorkspace(id: Id, userId: Id, name: string, slug: string, defaultFolderId: Id)
    | NewFolder(ticket: Ticket, id: Id, name: string, slug: string, slugFirst: bool)
    | Rename(ticket: Ticket, name: string, makeDefault: bool)
    | NewWorkflow(ticket: Ticket, id: Id, versionId: Id, name: string, slug: string)
    | ChangeWorkflow(ticket: Ticket, id: Id, newName: Option<string>, newSlug: Option<string>)
    | DropWorkflow(ticket: Ticket, id: Id)
    | NewVariable(ticket: Ticket, id: Id, name: string, value: string)
    | ChangeVariable(ticket: Ticket, id: Id, newName: Option<string>, newValue: Option<string>)
    | DropVariable(ticket: Ticket, id: Id)
    | NewCredential(ticket: Ticket, id: Id, name: string, credentials: string)
    | ChangeCredential(ticket: Ticket, id: Id, newName: Option<string>, newCredentials: Option<string>)
    | DropCredential(ticket: Ticket, id: Id)

  predicate NeedsFolder(op: Op) {
    !op.NewWorkspace? && !op.NewFolder?
  }

  /** A workspace is created for the caller; everything else takes place inside one that was checked. */
  predicate WellFormed(op: Op) {
    NeedsFolder(op) ==> op.ticket.folderId.Some?
  }

  function WithVariables(s: Store, r: Result<Items, StoreError>): Result<Store, StoreError> {
    match r case Ok(items) => Ok(s.(variables := items)) case Err(e) => Err(e)
  }

  function WithConnections(s: Store, r: Result<Items, StoreError>): Result<Store, StoreError> {
    match r case Ok(items) => Ok(s.(connections := items)) case Err(e) => Err(e)
  }

  /** The write of each operation, once its checks have passed. */
  function Perform(s: Store, op: Op): Result<Store, StoreError>
    requires WellFormed(op)
  {
    match op
    case NewWorkspace(id, userId, name, slug, folderId) =>
      CreateWorkspace(s, id, Workspace(userId, name, slug), folderId)
    case NewFolder(t, id, name, slug, slugFirst) => CreateFolder(s, id, t.workspaceId, name, slug, slugFirst)
    case Rename(t, name, makeDefault) => RenameFolder(s, t.folderId.value, t.workspaceId, name, makeDefault)
    case NewWorkflow(t, id, versionId, name, slug) => CreateWorkflow(s, id, versionId, t.workspaceId,
        t.folderId.value, name, slug)
    case ChangeWorkflow(t, id, name, slug) => UpdateWorkflow(s, id, t.folderId.value, name, slug)
    case DropWorkflow(t, id) => DeleteWorkflow(s, id, t.folderId.value)
    case NewVariable(t, id, name, value) =>
      WithVariables(s, CreateItem(s, s.variables, id, Item(t.workspaceId, t.folderId.value, name, value)))
    case ChangeVariable(t, id, name, value) =>
      // The service hands the new value on under the name `metadata`, which the repository does not read.
      WithVariables(s, UpdateItem(s, s.variables, id, t.folderId.value, name, None))
    case DropVariable(t, id) => WithVariables(s, DeleteItem(s.variables, id, t.folderId.value))
    case NewCredential(t, id, name, credentials) =>
      WithConnections(s, CreateItem(s, s.connections, id, Item(t.workspaceId, t.folderId.value, name, credentials)))
    case ChangeCredential(t, id, name, credentials) =>
      WithConnections(s, UpdateItem(s, s.connections, id, t.folderId.value, name, credentials))
    case DropCredential(t, id) => WithConnections(s, DeleteItem(s.connections, id, t.folderId.value))
  }

  /** What an operation that goes through does, table by table; the tables not mentioned stay as they are. */
  ghost predicate Does(s: Store, op: Op, s': Store)
    requires WellFormed(op)
  {
    match op
    case NewWorkspace(id, userId, name, slug, folderId) =>
      s' == s.(workspaces := s.workspaces[id := Workspace(userId, name, slug)],
               folders := s.folders[folderId := Folder(id, "default", "default", true)])
    case NewFolder(t, id, name, slug, _) =>
      s' == s.(folders := s.folders[id := Folder(t.workspaceId, name, slug, false)])
    case Rename(t, name, makeDefault) =>
      && s' == s.(folders := s'.folders) && s'.folders.Keys == s.folders.Keys && t.folderId.value in s.folders
      && (forall k :: k in s.folders ==>
            && s'.folders[k].name == (if k == t.folderId.value then name else s.folders[k].name)
            && s'.folders[k].slug == s.folders[k].slug && s'.folders[k].workspaceId == s.folders[k].workspaceId)
    case NewWorkflow(t, id, versionId, name, slug) =>
      s' == s.(workflows := s.workflows[id := Workflow(t.workspaceId, t.folderId, name, slug, Some(versionId))],
               versions := s.versions[versionId := Version(id, 1)])
    case ChangeWorkflow(t, id, newName, newSlug) =>
      && id in s.workflows && s.workflows[id].folderId == t.folderId
      && (var w := s.workflows[id];
          s' == s.(workflows := s.workflows[id :=
                Workflow(w.workspaceId, w.folderId, if newName.Some? then newName.value else w.name,
                         if newSlug.Some? then newSlug.value else w.slug, w.currentVersionId)]))
    case DropWorkflow(t, id) =>
      && id in s.workflows && s.workflows[id].folderId == t.folderId
      && s' == s.(workflows := s.workflows - {id}, versions := s'.versions)
      && (forall v :: v in s'.versions <==> v in s.versions && s.versions[v].workflowId != id)
      && (forall v :: v in s'.versions ==> s'.versions[v] == s.versions[v])
    case NewVariable(t, id, name, value) =>
      s' == s.(variables := s.variables[id := Item(t.workspaceId, t.folderId.value, name, value)])
    case ChangeVariable(t, id, newName, _) =>
      && id in s.variables && s.variables[id].folderId == t.folderId.value
      && s' == s.(variables := s.variables[id := Changed(s.variables[id], newName, None)])
    case DropVariable(t, id) =>
      id in s.variables && s.variables[id].folderId == t.folderId.value && s' == s.(variables := s.variables - {id})
    case NewCredential(t, id, name, credentials) =>
      s' == s.(connections := s.connections[id := Item(t.workspaceId, t.folderId.value, name, credentials)])
    case ChangeCredential(t, id, newName, newCredentials) =>
      && id in s.connections && s.connections[id].folderId == t.folderId.value
      && s' == s.(connections := s.connections[id := Changed(s.connections[id], newName, newCredentials)])
    case DropCredential(t, id) =>
      id in s.connections && s.connections[id].folderId == t.folderId.value
      && s' == s.(connections := s.connections - {id})
  }

  /** The row with the fields given, and its own where none is. */
  function Changed(i: Item, name: Option<string>, content: Option<string>): Item {
    Item(i.workspaceId, i.folderId, if name.Some? then name.value else i.name,
         if content.Some? then content.value else i.content)
  }

  lemma WorkflowOpDoes(s: Store, op: Op)
    requires WellFormed(op) && Perform(s, op).Ok? && (op.NewWorkflow? || op.ChangeWorkflow? || op.DropWorkflow?)
    ensures Does(s, op, Perform(s, op).value)
  {
    hide WorkflowTaken, PointedAt, WorkflowRefs;
    if op.NewWorkflow? {
      var row := Workflow(op.ticket.workspaceId, op.ticket.folderId, op.name, op.slug, None);
      var linked := row.(currentVersionId := Some(op.versionId));
      assert s.workflows[op.id := row][op.id := linked] == s.workflows[op.id := linked];
    } else if op.ChangeWorkflow? {
    } else {
    }
  }

  /** Every operation the service performs does that and nothing else, or changes nothing. */
  lemma PerformDoes(s: Store, op: Op)
    requires WellFormed(op) && Perform(s, op).Ok?
    ensures Does(s, op, Perform(s, op).value)
  {
    hide FolderNameUsed, FolderSlugUsed, ItemNameUsed, CreateWorkflow, UpdateWorkflow, DeleteWorkflow;
    if op.Rename? {
      RenameTouchesFolders(s, op.ticket.folderId.value, op.ticket.workspaceId, op.name, op.makeDefault);
    } else if op.NewWorkflow? || op.ChangeWorkflow? || op.DropWorkflow? {
      WorkflowOpDoes(s, op);
    } else if op.NewWorkspace? {
    } else if op.NewFolder? {
    } else if op.ChangeVariable? {
    } else if op.ChangeCredential? {
    } else {
    }
  }

  // ----- Requests -----

  datatype State = State(store: Store, tickets: set<Ticket>)

  datatype Event =
    | FindOwned(userId: Id, workspaceId: Id)
    | FindFolder(userId: Id, workspaceId: Id, folderId: Id)
    | Write(op: Op)

  /** A check that fails ends its request; a write needs its checks to have passed some time ago. */
  predicate Enabled(s: State, e: Event) {
    match e
    case FindOwned(u, w) => w in s.store.workspaces && s.store.workspaces[w].userId == u
    case FindFolder(u, w, f) =>
      Ticket(u, w, None) in s.tickets && f in s.store.folders && s.store.folders[f].workspaceId == w
    case Write(op) => WellFormed(op) && (op.NewWorkspace? || op.ticket in s.tickets)
  }

  function Next(s: State, e: Event): State
    requires Enabled(s, e)
  {
    match e
    case FindOwned(u, w) => s.(tickets := s.tickets + {Ticket(u, w, None)})
    case FindFolder(u, w, f) => s.(tickets := s.tickets + {Ticket(u, w, Some(f))})
    case Write(op) => match Perform(s.store, op) case Ok(store) => s.(store := store) case Err(_) => s
  }

  function Run(s: State, es: seq<Event>): Option<State>
    decreases |es|
  {
    if es == [] then Some(s) else if !Enabled(s, es[0]) then None else Run(Next(s, es[0]), es[1..])
  }

  // ----- What every run keeps -----

  ghost predicate IsDefaultOf(s: Store, f: Id, w: Id) {
    f in s.folders && s.folders[f].workspaceId == w && s.folders[f].isDefault
  }

  ghost predicate OneDefault(s: Store, w: Id) {
    exists f :: IsDefaultOf(s, f, w) && forall g :: IsDefaultOf(s, g, w) ==> g == f
  }

  ghost predicate InOwnFolder(s: Store, workspaceId: Id, folderId: Id) {
    folderId in s.folders && s.folders[folderId].workspaceId == workspaceId
  }

  ghost predicate FoldersOK(s: Store) {
    && (forall f :: f in s.folders ==> s.folders[f].workspaceId in s.workspaces)
    && (forall w :: w in s.workspaces ==> OneDefault(s, w))
  }

  ghost predicate WorkflowOK(s: Store, id: Id, w: Workflow) {
    && w.folderId.Some? && InOwnFolder(s, w.workspaceId, w.folderId.value)
    && w.currentVersionId.Some? && w.currentVersionId.value in s.versions
    && s.versions[w.currentVersionId.value].workflowId == id
  }

  ghost predicate WorkflowsOK(s: Store) {
    && (forall id :: id in s.workflows ==> WorkflowOK(s, id, s.workflows[id]))
    && (forall v :: v in s.versions ==> s.versions[v].workflowId in s.workflows)
  }

  ghost predicate ItemsOK(s: Store, items: Items) {
    forall id :: id in items ==> InOwnFolder(s, items[id].workspaceId, items[id].folderId)
  }

  ghost predicate StoreOK(s: Store) {
    FoldersOK(s) && WorkflowsOK(s) && ItemsOK(s, s.variables) && ItemsOK(s, s.connections)
  }

  ghost predicate TicketOK(s: Store, t: Ticket) {
    && t.workspaceId in s.workspaces && s.workspaces[t.workspaceId].userId == t.userId
    && (t.folderId.Some? ==> InOwnFolder(s, t.workspaceId, t.folderId.value))
  }

  /** No operation removes a workspace or a folder, or moves one to another owner: checks stay true. */
  ghost predicate Keeps(s: Store, s': Store) {
    && (forall w :: w in s.workspaces ==> w in s'.workspaces && s'.workspaces[w].userId == s.workspaces[w].userId)
    && (forall f :: f in s.folders ==> f in s'.folders && s'.folders[f].workspaceId == s.folders[f].workspaceId)
  }

  ghost predicate Inv(s: State) {
    StoreOK(s.store) && forall t :: t in s.tickets ==> TicketOK(s.store, t)
  }

  lemma KeepsRest(s: Store, s': Store)
    requires StoreOK(s) && Keeps(s, s') && s'.workflows == s.workflows && s'.versions == s.versions
    requires s'.variables == s.variables && s'.connections == s.connections
    ensures WorkflowsOK(s') && ItemsOK(s', s'.variables) && ItemsOK(s', s'.connections)
  {
    hide FoldersOK;
    forall id | id in s'.workflows ensures WorkflowOK(s', id, s'.workflows[id]) {
      assert WorkflowOK(s, id, s.workflows[id]);
    }
  }

  lemma DefaultsStay(s: Store, s': Store, w: Id)
    requires OneDefault(s, w) && forall g :: IsDefaultOf(s', g, w) <==> IsDefaultOf(s, g, w)
    ensures OneDefault(s', w)
  {
    hide IsDefaultOf;
    var f :| IsDefaultOf(s, f, w) && forall g :: IsDefaultOf(s, g, w) ==> g == f;
    assert IsDefaultOf(s', f, w);
  }

  lemma SameFolders(s: Store, s': Store)
    requires FoldersOK(s) && s'.workspaces == s.workspaces && s'.folders == s.folders
    ensures FoldersOK(s') && Keeps(s, s')
  {
    hide OneDefault;
    forall w | w in s'.workspaces ensures OneDefault(s', w) { DefaultsStay(s, s', w); }
  }

  lemma AddedFolder(s: Store, s': Store, id: Id, f: Folder)
    requires FoldersOK(s) && id !in s.folders && !f.isDefault && f.workspaceId in s.workspaces
    requires s'.workspaces == s.workspaces && s'.folders == s.folders[id := f]
    ensures FoldersOK(s') && Keeps(s, s')
  {
    hide OneDefault;
    forall w | w in s'.workspaces ensures OneDefault(s', w) { DefaultsStay(s, s', w); }
  }

  lemma FirstDefault(s: Store, s': Store, id: Id, folderId: Id, f: Folder)
    requires FoldersOK(s) && id !in s.workspaces && folderId !in s.folders && f.workspaceId == id && f.isDefault
    requires s'.folders == s.folders[folderId := f]
    ensures OneDefault(s', id)
  {
    assert forall g :: IsDefaultOf(s', g, id) <==> g == folderId;
    hide FoldersOK, IsDefaultOf;
    Defaulted(s', id, folderId);
  }

  lemma Defaulted(s: Store, w: Id, f: Id)
    requires IsDefaultOf(s, f, w) && forall g :: IsDefaultOf(s, g, w) ==> g == f
    ensures OneDefault(s, w)
  {
  }

  lemma AddedWorkspace(s: Store, s': Store, id: Id, w: Workspace, folderId: Id, f: Folder)
    requires FoldersOK(s) && id !in s.workspaces && folderId !in s.folders && f.workspaceId == id && f.isDefault
    requires s'.workspaces == s.workspaces[id := w] && s'.folders == s.folders[folderId := f]
    ensures FoldersOK(s') && Keeps(s, s')
  {
    hide OneDefault, IsDefaultOf;
    FirstDefault(s, s', id, folderId, f);
    forall k | k in s'.workspaces && k != id ensures OneDefault(s', k) {
      assert OneDefault(s, k);
      OtherDefaults(s, s', folderId, f, k);
      DefaultsStay(s, s', k);
    }
  }

  lemma OtherDefaults(s: Store, s': Store, folderId: Id, f: Folder, k: Id)
    requires folderId !in s.folders && f.workspaceId != k && s'.folders == s.folders[folderId := f]
    ensures forall g :: IsDefaultOf(s', g, k) <==> IsDefaultOf(s, g, k)
  {
  }

  lemma NewWorkspaceKeeps(s: Store, id: Id, w: Workspace, folderId: Id)
    requires StoreOK(s) && CreateWorkspace(s, id, w, folderId).Ok?
    ensures var s' := CreateWorkspace(s, id, w, folderId).value; StoreOK(s') && Keeps(s, s')
  {
    hide FoldersOK, WorkflowsOK, ItemsOK, Keeps;
    var s' := CreateWorkspace(s, id, w, folderId).value;
    var f := Folder(id, "default", "default", true);
    assert s' == s.(workspaces := s.workspaces[id := w], folders := s.folders[folderId := f]);
    AddedWorkspace(s, s', id, w, folderId, f);
    KeepsRest(s, s');
  }

  lemma NewFolderKeeps(s: Store, id: Id, workspaceId: Id, name: string, slug: string, slugFirst: bool)
    requires StoreOK(s) && CreateFolder(s, id, workspaceId, name, slug, slugFirst).Ok?
    ensures var s' := CreateFolder(s, id, workspaceId, name, slug, slugFirst).value; StoreOK(s') && Keeps(s, s')
  {
    hide FoldersOK, WorkflowsOK, ItemsOK, Keeps;
    var s' := CreateFolder(s, id, workspaceId, name, slug, slugFirst).value;
    AddedFolder(s, s', id, Folder(workspaceId, name, slug, false));
    KeepsRest(s, s');
  }

  // Renaming, and moving the default.

  lemma DefaultsCleared(s: Store, f: Id, w: Id, visible: set<Id>)
    ensures forall g :: IsDefaultOf(OthersCleared(s, f, w, visible), g, w) <==>
              IsDefaultOf(s, g, w) && (g == f || g !in visible)
  {
  }

  /**
   * What the second statement of `rename` achieves, by what its snapshot shows it: the workspace ends with
   * exactly one default, the renamed folder, precisely when every other default was in the snapshot.
   */
  lemma ClearingLeavesOne(s: Store, f: Id, w: Id, visible: set<Id>)
    requires IsDefaultOf(s, f, w)
    ensures var s' := OthersCleared(s, f, w, visible);
            && IsDefaultOf(s', f, w)
            && (OneDefault(s', w) <==> forall g :: IsDefaultOf(s, g, w) && g != f ==> g in visible)
            && (forall g, k :: k != w ==> (IsDefaultOf(s', g, k) <==> IsDefaultOf(s, g, k)))
  {
    var s' := OthersCleared(s, f, w, visible);
    DefaultsCleared(s, f, w, visible);
    assert forall g, k :: k != w ==> (IsDefaultOf(s', g, k) <==> IsDefaultOf(s, g, k));
    hide OthersCleared;
    if forall g :: IsDefaultOf(s, g, w) && g != f ==> g in visible {
      Defaulted(s', w, f);
    } else {
      var g :| IsDefaultOf(s, g, w) && g != f && g !in visible;
      assert IsDefaultOf(s', g, w);
    }
  }

  lemma RenamedKeeps(s: Store, f: Id, w: Id, name: string, makeDefault: bool)
    requires Renamed(s, f, w, name, makeDefault).Ok?
    ensures var s' := Renamed(s, f, w, name, makeDefault).value;
            && Keeps(s, s') && s' == s.(folders := s'.folders) && s'.folders.Keys == s.folders.Keys && f in s'.folders
            && (forall g, k :: g != f ==> (IsDefaultOf(s', g, k) <==> IsDefaultOf(s, g, k)))
            && (forall k :: IsDefaultOf(s', f, k) <==> IsDefaultOf(s, f, k) || (makeDefault && k == w))
  {
  }

  lemma ClearedKeeps(s: Store, f: Id, w: Id, visible: set<Id>)
    ensures var s' := OthersCleared(s, f, w, visible);
            Keeps(s, s') && s' == s.(folders := s'.folders) && s'.folders.Keys == s.folders.Keys
  {
  }

  lemma RenameKeepsDefaults(s: Store, f: Id, w: Id, name: string, makeDefault: bool, k: Id)
    requires FoldersOK(s) && RenameFolder(s, f, w, name, makeDefault).Ok? && k in s.workspaces
    ensures OneDefault(RenameFolder(s, f, w, name, makeDefault).value, k)
  {
    var s1 := Renamed(s, f, w, name, makeDefault).value;
    var s' := RenameFolder(s, f, w, name, makeDefault).value;
    RenamedKeeps(s, f, w, name, makeDefault);
    assert OneDefault(s, k);
    hide FoldersOK, Renamed, OneDefault;
    if !makeDefault {
      assert forall g :: IsDefaultOf(s', g, k) <==> IsDefaultOf(s, g, k);
      DefaultsStay(s, s', k);
    } else {
      assert IsDefaultOf(s1, f, w);
      ClearingLeavesOne(s1, f, w, s1.folders.Keys);
      hide OthersCleared;
      if k != w { DefaultsStay(s, s', k); }
    }
  }

  lemma RenameTouchesFolders(s: Store, f: Id, w: Id, name: string, makeDefault: bool)
    requires RenameFolder(s, f, w, name, makeDefault).Ok?
    ensures var s' := RenameFolder(s, f, w, name, makeDefault).value;
            Keeps(s, s') && s' == s.(folders := s'.folders) && s'.folders.Keys == s.folders.Keys
  {
    RenamedKeeps(s, f, w, name, makeDefault);
    var s1 := Renamed(s, f, w, name, makeDefault).value;
    ClearedKeeps(s1, f, w, s1.folders.Keys);
    hide Renamed, OthersCleared, IsDefaultOf;
  }

  lemma RenameKeeps(s: Store, f: Id, w: Id, name: string, makeDefault: bool)
    requires StoreOK(s) && RenameFolder(s, f, w, name, makeDefault).Ok?
    ensures var s' := RenameFolder(s, f, w, name, makeDefault).value; StoreOK(s') && Keeps(s, s')
  {
    hide RenameFolder, OneDefault, WorkflowsOK, ItemsOK;
    var s' := RenameFolder(s, f, w, name, makeDefault).value;
    forall k | k in s.workspaces ensures OneDefault(s', k) { RenameKeepsDefaults(s, f, w, name, makeDefault, k); }
    RenameTouchesFolders(s, f, w, name, makeDefault);
    KeepsRest(s, s');
  }

  // Workflows: the cyclic foreign key.

  /** The three statements in the repository's order go through, and leave the workflow linked to its new version. */
  lemma WorkflowCreated(s: Store, id: Id, versionId: Id, w: Id, f: Id, name: string, slug: string)
    requires StoreOK(s) && InOwnFolder(s, w, f) && id !in s.workflows && versionId !in s.versions
    requires !WorkflowTaken(s, id, Workflow(w, Some(f), name, slug, None))
    ensures CreateWorkflow(s, id, versionId, w, f, name, slug) ==
              Ok(s.(workflows := s.workflows[id := Workflow(w, Some(f), name, slug, Some(versionId))],
                    versions := s.versions[versionId := Version(id, 1)]))
  {
    var row := Workflow(w, Some(f), name, slug, None);
    var s1 := s.(workflows := s.workflows[id := row]);
    var s2 := s1.(versions := s1.versions[versionId := Version(id, 1)]);
    assert w in s.workspaces;
    assert InsertWorkflow(s, id, row) == Ok(s1);
    assert forall k :: k in s1.versions ==> s1.versions[k] != Version(id, 1);
    assert InsertVersion(s1, versionId, Version(id, 1)) == Ok(s2);
    hide StoreOK, InsertWorkflow, InsertVersion;
    assert !WorkflowTaken(s2, id, row.(currentVersionId := Some(versionId)));
    var s3 := s2.(workflows := s2.workflows[id := row.(currentVersionId := Some(versionId))]);
    assert PutWorkflow(s2, id, row.(currentVersionId := Some(versionId))) == Ok(s3);
    assert s3.workflows == s.workflows[id := Workflow(w, Some(f), name, slug, Some(versionId))];
  }

  /** Linking to the version in the first insert cannot work: the version it names does not exist yet. */
  lemma LinkFirstFails(s: Store, id: Id, versionId: Id, w: Id, f: Id, name: string, slug: string)
    requires versionId !in s.versions
    ensures InsertWorkflow(s, id, Workflow(w, Some(f), name, slug, Some(versionId))).Err?
  {
  }

  /**
   * When creating a workflow fails, and how it is reported: only for an id that is taken or a value that is
   * taken in the unique index. "Slug taken" is the answer exactly when that index is the migration's, over the
   * slug; under the schema's, over the name, the caller sees an infrastructure failure instead.
   */
  lemma WorkflowRefusals(s: Store, id: Id, versionId: Id, w: Id, f: Id, name: string, slug: string)
    requires StoreOK(s) && InOwnFolder(s, w, f)
    ensures var r, taken := CreateWorkflow(s, id, versionId, w, f, name, slug),
                WorkflowTaken(s, id, Workflow(w, Some(f), name, slug, None));
            && (r.Err? <==> id in s.workflows || versionId in s.versions || taken)
            && (r.Err? ==> r.error == if s.workflowIndex.SlugPerWorkspace? && id !in s.workflows && taken
                                      then WorkflowSlugTaken else Infrastructure)
            && (taken ==> exists k :: k in s.workflows && s.workflows[k].workspaceId == w
                                      && (s.workflows[k].name == name || s.workflows[k].slug == slug))
  {
    var row := Workflow(w, Some(f), name, slug, None);
    assert WorkflowTaken(s, id, row) ==>
        exists k :: k in s.workflows && s.workflows[k].workspaceId == w
                    && (s.workflows[k].name == name || s.workflows[k].slug == slug);
    hide StoreOK, WorkflowTaken, InOwnFolder;
    if id !in s.workflows && versionId !in s.versions && !WorkflowTaken(s, id, row) {
      WorkflowCreated(s, id, versionId, w, f, name, slug);
      hide CreateWorkflow;
    } else {
    }
  }

  lemma AddedWorkflow(s: Store, s': Store, id: Id, w: Workflow, versionId: Id)
    requires WorkflowsOK(s) && id !in s.workflows && versionId !in s.versions
    requires s' == s.(workflows := s.workflows[id := w], versions := s.versions[versionId := Version(id, 1)])
    requires WorkflowOK(s', id, w)
    ensures WorkflowsOK(s')
  {
    forall k | k in s'.workflows ensures WorkflowOK(s', k, s'.workflows[k]) {
      if k != id { assert WorkflowOK(s, k, s.workflows[k]); }
    }
  }

  lemma NewWorkflowKeeps(s: Store, id: Id, versionId: Id, w: Id, f: Id, name: string, slug: string)
    requires StoreOK(s) && InOwnFolder(s, w, f) && CreateWorkflow(s, id, versionId, w, f, name, slug).Ok?
    ensures var s' := CreateWorkflow(s, id, versionId, w, f, name, slug).value; StoreOK(s') && Keeps(s, s')
  {
    hide CreateWorkflow, FoldersOK, WorkflowsOK, Keeps, WorkflowTaken;
    WorkflowRefusals(s, id, versionId, w, f, name, slug);
    WorkflowCreated(s, id, versionId, w, f, name, slug);
    var s' := CreateWorkflow(s, id, versionId, w, f, name, slug).value;
    SameFolders(s, s');
    AddedWorkflow(s, s', id, s'.workflows[id], versionId);
  }

  predicate SamePlace(w: Workflow, w': Workflow) {
    w'.workspaceId == w.workspaceId && w'.folderId == w.folderId && w'.currentVersionId == w.currentVersionId
  }

  lemma SameWorkflows(s: Store, s': Store)
    requires WorkflowsOK(s) && s' == s.(workflows := s'.workflows) && s'.workflows.Keys == s.workflows.Keys
    requires forall k :: k in s.workflows ==> SamePlace(s.workflows[k], s'.workflows[k])
    ensures WorkflowsOK(s')
  {
    forall k | k in s'.workflows ensures WorkflowOK(s', k, s'.workflows[k]) {
      assert WorkflowOK(s, k, s.workflows[k]);
    }
  }

  lemma ChangeWorkflowKeeps(s: Store, id: Id, f: Id, name: Option<string>, slug: Option<string>)
    requires StoreOK(s) && UpdateWorkflow(s, id, f, name, slug).Ok?
    ensures var s' := UpdateWorkflow(s, id, f, name, slug).value; StoreOK(s') && Keeps(s, s')
  {
    hide FoldersOK, WorkflowsOK, Keeps;
    var s' := UpdateWorkflow(s, id, f, name, slug).value;
    SameWorkflows(s, s');
    SameFolders(s, s');
  }

  /** No other workflow ever points into this one's versions, so a delete is never refused for it. */
  lemma NobodyElsePoints(s: Store, id: Id)
    requires WorkflowsOK(s)
    ensures !PointedAt(s, id)
  {
    forall k | k in s.workflows ensures WorkflowOK(s, k, s.workflows[k]) {}
  }

  lemma DropWorkflowKeeps(s: Store, id: Id, f: Id)
    requires StoreOK(s) && DeleteWorkflow(s, id, f).Ok?
    ensures var s' := DeleteWorkflow(s, id, f).value; StoreOK(s') && Keeps(s, s')
  {
    hide FoldersOK, PointedAt, WorkflowsOK, ItemsOK;
    var s' := DeleteWorkflow(s, id, f).value;
    SameFolders(s, s');
    RestOfWorkflows(s, s', id);
    SameItems(s, s', s.variables);
    SameItems(s, s', s.connections);
  }

  lemma RestOfWorkflows(s: Store, s': Store, id: Id)
    requires WorkflowsOK(s) && s'.folders == s.folders && s'.workflows == s.workflows - {id}
    requires s'.versions == map v | v in s.versions && s.versions[v].workflowId != id :: s.versions[v]
    ensures WorkflowsOK(s')
  {
    forall k | k in s'.workflows ensures WorkflowOK(s', k, s'.workflows[k]) {
      assert WorkflowOK(s, k, s.workflows[k]);
    }
  }

  // Variables and connections.

  lemma OtherItems(s: Store, s': Store)
    requires StoreOK(s) && s' == s.(variables := s'.variables, connections := s'.connections)
    requires ItemsOK(s, s'.variables) && ItemsOK(s, s'.connections)
    ensures StoreOK(s') && Keeps(s, s')
  {
    hide FoldersOK;
    SameFolders(s, s');
    hide Keeps, ItemsOK;
    forall k | k in s'.workflows ensures WorkflowOK(s', k, s'.workflows[k]) {
      assert WorkflowOK(s, k, s.workflows[k]);
    }
    SameItems(s, s', s'.variables);
    SameItems(s, s', s'.connections);
  }

  lemma SameItems(s: Store, s': Store, items: Items)
    requires ItemsOK(s, items) && s'.folders == s.folders
    ensures ItemsOK(s', items)
  {
  }

  lemma ItemWritesKeep(s: Store, items: Items, id: Id, row: Item, f: Id, name: Option<string>, content: Option<string>)
    requires ItemsOK(s, items)
    ensures InOwnFolder(s, row.workspaceId, row.folderId) && CreateItem(s, items, id, row).Ok? ==>
              ItemsOK(s, CreateItem(s, items, id, row).value)
    ensures var r := UpdateItem(s, items, id, f, name, content); r.Ok? ==> ItemsOK(s, r.value)
    ensures DeleteItem(items, id, f).Ok? ==> ItemsOK(s, DeleteItem(items, id, f).value)
  {
    hide ItemNameUsed;
  }

  lemma PerformKeeps(s: Store, op: Op)
    requires StoreOK(s) && WellFormed(op) && (!op.NewWorkspace? ==> TicketOK(s, op.ticket)) && Perform(s, op).Ok?
    ensures StoreOK(Perform(s, op).value) && Keeps(s, Perform(s, op).value)
  {
    hide FoldersOK, WorkflowsOK, ItemsOK, Keeps, InOwnFolder;
    hide CreateWorkspace, CreateFolder, RenameFolder, CreateWorkflow, UpdateWorkflow, DeleteWorkflow;
    hide CreateItem, UpdateItem, DeleteItem;
    match op
    case NewWorkspace(id, userId, name, slug, folderId) => NewWorkspaceKeeps(s, id, Workspace(userId, name, slug),
        folderId);
    case NewFolder(t, id, name, slug, slugFirst) => NewFolderKeeps(s, id, t.workspaceId, name, slug, slugFirst);
    case Rename(t, name, makeDefault) => RenameKeeps(s, t.folderId.value, t.workspaceId, name, makeDefault);
    case NewWorkflow(t, id, versionId, name, slug) =>
      NewWorkflowKeeps(s, id, versionId, t.workspaceId, t.folderId.value, name, slug);
    case ChangeWorkflow(t, id, name, slug) => ChangeWorkflowKeeps(s, id, t.folderId.value, name, slug);
    case DropWorkflow(t, id) => DropWorkflowKeeps(s, id, t.folderId.value);
    case NewVariable(t, id, name, value) =>
      ItemWritesKeep(s, s.variables, id, Item(t.workspaceId, t.folderId.value, name, value), "", None, None);
      OtherItems(s, Perform(s, op).value);
    case ChangeVariable(t, id, name, _) =>
      ItemWritesKeep(s, s.variables, id, Item("", "", "", ""), t.folderId.value, name, None);
      OtherItems(s, Perform(s, op).value);
    case DropVariable(t, id) =>
      ItemWritesKeep(s, s.variables, id, Item("", "", "", ""), t.folderId.value, None, None);
      OtherItems(s, Perform(s, op).value);
    case NewCredential(t, id, name, credentials) =>
      ItemWritesKeep(s, s.connections, id, Item(t.workspaceId, t.folderId.value, name, credentials), "", None, None);
      OtherItems(s, Perform(s, op).value);
    case ChangeCredential(t, id, name, credentials) =>
      ItemWritesKeep(s, s.connections, id, Item("", "", "", ""), t.folderId.value, name, credentials);
      OtherItems(s, Perform(s, op).value);
    case DropCredential(t, id) =>
      ItemWritesKeep(s, s.connections, id, Item("", "", "", ""), t.folderId.value, None, None);
      OtherItems(s, Perform(s, op).value);
  }

  // ----- Whole runs -----

  lemma TicketStays(s: Store, s': Store, t: Ticket)
    requires TicketOK(s, t) && Keeps(s, s')
    ensures TicketOK(s', t)
  {
  }

  lemma StepKeepsInv(s: State, e: Event)
    requires Inv(s) && Enabled(s, e)
    ensures Inv(Next(s, e)) && Keeps(s.store, Next(s, e).store)
  {
    hide StoreOK, Perform;
    if e.Write? {
      assert !e.op.NewWorkspace? ==> TicketOK(s.store, e.op.ticket);
      if Perform(s.store, e.op).Ok? {
        PerformKeeps(s.store, e.op);
        forall t | t in s.tickets ensures TicketOK(Next(s, e).store, t) { TicketStays(s.store, Next(s, e).store, t); }
      }
    } else if e.FindFolder? {
      assert TicketOK(s.store, Ticket(e.userId, e.workspaceId, None));
    }
  }

  lemma KeepsTransitive(a: Store, b: Store, c: Store)
    requires Keeps(a, b) && Keeps(b, c)
    ensures Keeps(a, c)
  {
  }

  lemma {:induction false} RunKeepsInv(s: State, es: seq<Event>, t: State)
    requires Inv(s) && Run(s, es) == Some(t)
    ensures Inv(t) && Keeps(s.store, t.store)
    decreases |es|
  {
    if es != [] {
      hide Inv, Enabled, Next;
      StepKeepsInv(s, es[0]);
      RunKeepsInv(Next(s, es[0]), es[1..], t);
      KeepsTransitive(s.store, Next(s, es[0]).store, t.store);
    }
  }

  function Fresh(index: WorkflowIndex): State {
    State(Empty(index), {})
  }

  /**
   * In every state any interleaving of requests leads to: each workspace has exactly one default folder;
   * each workflow, variable and connection sits in a folder of its own workspace; each workflow points at a
   * version that is its own; and every ownership check that ever passed would pass again.
   */
  lemma EveryRunIsSound(index: WorkflowIndex, es: seq<Event>, t: State)
    requires Run(Fresh(index), es) == Some(t)
    ensures StoreOK(t.store) && forall k :: k in t.tickets ==> TicketOK(t.store, k)
  {
    RunKeepsInv(Fresh(index), es, t);
  }

  /** So checking first and writing later is safe: at the write the folder still is the caller's. */
  lemma CheckedWritesLandAtHome(s: State, u: Id, w: Id, f: Id, es: seq<Event>, t: State)
    requires Inv(s) && Enabled(s, FindFolder(u, w, f)) && Run(Next(s, FindFolder(u, w, f)), es) == Some(t)
    ensures w in t.store.workspaces && t.store.workspaces[w].userId == u && InOwnFolder(t.store, w, f)
  {
    StepKeepsInv(s, FindFolder(u, w, f));
    var s' := Next(s, FindFolder(u, w, f));
    assert TicketOK(s'.store, Ticket(u, w, Some(f)));
    hide Inv, Enabled, Next, Run;
    RunKeepsInv(s', es, t);
    TicketStays(s'.store, t.store, Ticket(u, w, Some(f)));
  }

  /** A value once given to a variable is never written again, by any run of any operations. */
  lemma {:induction false} VariableValuesNeverChange(s: State, es: seq<Event>, t: State, id: Id)
    requires Run(s, es) == Some(t) && id in s.store.variables && id in t.store.variables
    requires forall op :: Write(op) in es && (op.NewVariable? || op.DropVariable?) ==> op.id != id
    ensures t.store.variables[id].content == s.store.variables[id].content
    decreases |es|
  {
    if es != [] {
      if es[0].Write? { assert Write(es[0].op) in es; }
      ValueKept(s, es[0], id);
      hide Enabled, Next;
      VariableValuesNeverChange(Next(s, es[0]), es[1..], t, id);
    }
  }

  lemma ValueKept(s: State, e: Event, id: Id)
    requires Enabled(s, e) && id in s.store.variables
    requires e.Write? && (e.op.NewVariable? || e.op.DropVariable?) ==> e.op.id != id
    ensures id in Next(s, e).store.variables && Next(s, e).store.variables[id].content == s.store.variables[id].content
  {
    hide Perform;
    if e.Write? && Perform(s.store, e.op).Ok? {
      PerformDoes(s.store, e.op);
      assert Next(s, e).store == Perform(s.store, e.op).value;
      hide Enabled, Next;
      if e.op.NewVariable? || e.op.ChangeVariable? || e.op.DropVariable? {
      } else {
        assert Perform(s.store, e.op).value.variables == s.store.variables;
      }
    }
  }
}
