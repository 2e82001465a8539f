/** The repositories of the workspace tables as they run: statement after statement, rolled back on failure. */
module WorkspaceRepositories {
  import opened Common
  import opened WorkspaceStore

  class Database {
    const workflowIndex: WorkflowIndex
    var workspaces: map<Id, Workspace>
    var folders: map<Id, Folder>
    var workflows: map<Id, Workflow>
    var versions: map<Id, Version>
    var variables: Items
    var connections: Items

    function ToStore(): Store
      reads this
    {
      Store(workflowIndex, workspaces, folders, workflows, versions, variables, connections)
    }

    constructor (index: WorkflowIndex)
      ensures ToStore() == Empty(index)
    {
      workflowIndex := index;
      workspaces, folders, workflows, versions, variables, connections := map[], map[], map[], map[], map[], map[];
    }

    /** Inserts the workspace, then its default folder; if the second fails the first is undone. */
    method CreateWorkspace(id: Id, w: Workspace, folderId: Id) returns (error: Option<StoreError>)
      modifies this`workspaces, this`folders
      ensures match WorkspaceStore.CreateWorkspace(old(ToStore()), id, w, folderId)
              case Ok(s) => error.None? && ToStore() == s
              case Err(e) => error == Some(e) && ToStore() == old(ToStore())
      ensures error.None? ==>
                && id !in old(workspaces) && workspaces == old(workspaces)[id := w]
                && folderId !in old(folders)
                && folders == old(folders)[folderId := Folder(id, "default", "default", true)]
                && forall k :: k in old(workspaces) && old(workspaces)[k].userId == w.userId ==>
                     old(workspaces)[k].slug != w.slug
      ensures id !in old(workspaces)
              && (exists k :: k in old(workspaces)
                              && old(workspaces)[k].userId == w.userId && old(workspaces)[k].slug == w.slug) ==>
                error == Some(WorkspaceSlugTaken)
    {
      if id in workspaces { return Some(Infrastructure); }
      if exists k :: k in workspaces && workspaces[k].userId == w.userId && workspaces[k].slug == w.slug {
        return Some(WorkspaceSlugTaken);
      }
      var before := workspaces;
      workspaces := workspaces[id := w];
      var inserted := InsertFolder(ToStore(), folderId, Folder(id, "default", "default", true), false);
      if inserted.Err? {
        workspaces := before;
        return Some(OnCreateWorkspace(inserted.error));
      }
      folders := folders[folderId := Folder(id, "default", "default", true)];
      error := None;
    }

    method CreateFolder(id: Id, workspaceId: Id, name: string, slug: string, slugFirst: bool)
      returns (error: Option<StoreError>)
      modifies this`folders
      ensures match WorkspaceStore.CreateFolder(old(ToStore()), id, workspaceId, name, slug, slugFirst)
              case Ok(s) => error.None? && ToStore() == s
              case Err(e) => error == Some(e) && ToStore() == old(ToStore())
      ensures error.None? <==>
                && id !in old(folders) && workspaceId in workspaces
                && forall k :: k in old(folders) && old(folders)[k].workspaceId == workspaceId ==>
                     old(folders)[k].name != name && old(folders)[k].slug != slug
      ensures error.None? ==> folders == old(folders)[id := Folder(workspaceId, name, slug, false)]
      ensures error == Some(FolderNameTaken) ==>
                exists k :: k in old(folders)
                            && old(folders)[k].workspaceId == workspaceId && old(folders)[k].name == name
      ensures error == Some(FolderSlugTaken) ==>
                exists k :: k in old(folders)
                            && old(folders)[k].workspaceId == workspaceId && old(folders)[k].slug == slug
      ensures error.Some? ==>
                error == Some(FolderNameTaken) || error == Some(FolderSlugTaken) || error == Some(Infrastructure)
    {
      var row := Folder(workspaceId, name, slug, false);
      var inserted := InsertFolder(ToStore(), id, row, slugFirst);
      if inserted.Err? { return Some(OnCreateFolder(inserted.error)); }
      folders := folders[id := row];
      error := None;
    }

    /** `folder.update`, scoped to the workspace: the new name and, when asked, the flag. */
    method UpdateFolder(id: Id, workspaceId: Id, name: string, makeDefault: bool) returns (error: Option<StoreError>)
      modifies this`folders
      ensures match Renamed(old(ToStore()), id, workspaceId, name, makeDefault)
              case Ok(s) => error.None? && ToStore() == s
              case Err(e) => error == Some(e) && ToStore() == old(ToStore())
      ensures error == Some(FolderNotFound) <==> id !in old(folders) || old(folders)[id].workspaceId != workspaceId
      ensures error == Some(FolderNameTaken) ==>
                exists k :: k in old(folders) && k != id && old(folders)[k].workspaceId == workspaceId
                            && old(folders)[k].name == name
      ensures error.None? ==>
                var f := old(folders)[id];
                && folders == old(folders)[id := Folder(workspaceId, name, f.slug, f.isDefault || makeDefault)]
                && forall k :: k in old(folders) && k != id && old(folders)[k].workspaceId == workspaceId ==>
                     old(folders)[k].name != name
    {
      if id !in folders || folders[id].workspaceId != workspaceId { return Some(FolderNotFound); }
      if FolderNameUsed(ToStore(), id, workspaceId, name) { return Some(FolderNameTaken); }
      var row := folders[id].(name := name);
      if makeDefault { row := row.(isDefault := true); }
      folders := folders[id := row];
      error := None;
    }

    /** `folder.updateMany`: every other default of the workspace. */
    method ClearOtherDefaults(id: Id, workspaceId: Id)
      modifies this`folders
      ensures ToStore() == OthersCleared(old(ToStore()), id, workspaceId, old(folders.Keys))
      ensures folders.Keys == old(folders.Keys)
      ensures forall k :: k in folders ==>
                var f := old(folders)[k];
                folders[k] == Folder(f.workspaceId, f.name, f.slug,
                                     f.isDefault && (k == id || f.workspaceId != workspaceId))
    {
      folders := map k | k in folders ::
        if k != id && folders[k].workspaceId == workspaceId && folders[k].isDefault
        then folders[k].(isDefault := false) else folders[k];
    }

    /** The folder first, so that a missing folder or a taken name aborts before any default is touched. */
    method RenameFolder(id: Id, workspaceId: Id, name: string, makeDefault: bool) returns (error: Option<StoreError>)
      modifies this`folders
      ensures match WorkspaceStore.RenameFolder(old(ToStore()), id, workspaceId, name, makeDefault)
              case Ok(s) => error.None? && ToStore() == s
              case Err(e) => error == Some(e) && ToStore() == old(ToStore())
      ensures error.None? ==>
                && folders.Keys == old(folders.Keys) && id in folders && folders[id].name == name
                && (makeDefault ==> folders[id].isDefault)
                && forall k :: k in folders && k != id ==>
                     && folders[k].name == old(folders)[k].name
                     && folders[k].isDefault == (old(folders)[k].isDefault
                                                 && !(makeDefault && old(folders)[k].workspaceId == workspaceId))
    {
      hide Renamed, OthersCleared;
      error := UpdateFolder(id, workspaceId, name, makeDefault);
      if error.None? && makeDefault { ClearOtherDefaults(id, workspaceId); }
    }

    /** Workflow, version, link; any failure takes the earlier statements with it. */
    method CreateWorkflow(id: Id, versionId: Id, workspaceId: Id, folderId: Id, name: string, slug: string)
      returns (error: Option<StoreError>)
      modifies this`workflows, this`versions
      ensures match WorkspaceStore.CreateWorkflow(old(ToStore()), id, versionId, workspaceId, folderId, name, slug)
              case Ok(s) => error.None? && ToStore() == s
              case Err(e) => error == Some(e) && ToStore() == old(ToStore())
      ensures error.None? ==>
                && id !in old(workflows) && versionId !in old(versions)
                && workflows == old(workflows)[id := Workflow(workspaceId, Some(folderId), name, slug, Some(versionId))]
                && versions == old(versions)[versionId := Version(id, 1)]
                && forall k :: k in old(workflows) && old(workflows)[k].workspaceId == workspaceId ==>
                     if workflowIndex.NamePerFolder?
                     then old(workflows)[k].folderId != Some(folderId) || old(workflows)[k].name != name
                     else old(workflows)[k].slug != slug
    {
      var workflowsBefore, versionsBefore := workflows, versions;
      var row := Workflow(workspaceId, Some(folderId), name, slug, None);
      var first := InsertWorkflow(ToStore(), id, row);
      if first.Err? { return Some(OnCreateWorkflow(first.error)); }
      workflows := workflows[id := row];
      var second := InsertVersion(ToStore(), versionId, Version(id, 1));
      if second.Err? {
        workflows := workflowsBefore;
        return Some(OnCreateWorkflow(second.error));
      }
      versions := versions[versionId := Version(id, 1)];
      var third := PutWorkflow(ToStore(), id, row.(currentVersionId := Some(versionId)));
      if third.Err? {
        workflows, versions := workflowsBefore, versionsBefore;
        return Some(OnCreateWorkflow(third.error));
      }
      workflows := workflows[id := workflows[id].(currentVersionId := Some(versionId))];
      error := None;
    }

    method UpdateWorkflow(id: Id, folderId: Id, name: Option<string>, slug: Option<string>)
      returns (error: Option<StoreError>)
      modifies this`workflows
      ensures match WorkspaceStore.UpdateWorkflow(old(ToStore()), id, folderId, name, slug)
              case Ok(s) => error.None? && ToStore() == s
              case Err(e) => error == Some(e) && ToStore() == old(ToStore())
      ensures error == Some(WorkflowNotFound) <==>
                id !in old(workflows) || old(workflows)[id].folderId != Some(folderId)
      ensures error.None? ==>
                var w := old(workflows)[id];
                workflows == old(workflows)[id :=
                  Workflow(w.workspaceId, Some(folderId), if name.Some? then name.value else w.name,
                           if slug.Some? then slug.value else w.slug, w.currentVersionId)]
    {
      if id !in workflows || workflows[id].folderId != Some(folderId) { return Some(WorkflowNotFound); }
      var row := workflows[id];
      if name.Some? { row := row.(name := name.value); }
      if slug.Some? { row := row.(slug := slug.value); }
      var written := PutWorkflow(ToStore(), id, row);
      if written.Err? {
        if IsUniqueViolation(written.error, Slug) && slug.Some? && slug.value != [] { return Some(WorkflowSlugTaken); }
        return Some(Infrastructure);
      }
      workflows := workflows[id := row];
      error := None;
    }

    /** The row goes, and its versions with it by cascade. */
    method DeleteWorkflow(id: Id, folderId: Id) returns (error: Option<StoreError>)
      modifies this`workflows, this`versions
      ensures match WorkspaceStore.DeleteWorkflow(old(ToStore()), id, folderId)
              case Ok(s) => error.None? && ToStore() == s
              case Err(e) => error == Some(e) && ToStore() == old(ToStore())
      ensures error == Some(WorkflowNotFound) <==>
                id !in old(workflows) || old(workflows)[id].folderId != Some(folderId)
      ensures error.None? ==>
                && workflows == old(workflows) - {id}
                && (forall v :: v in versions <==> v in old(versions) && old(versions)[v].workflowId != id)
                && (forall v :: v in versions ==> versions[v] == old(versions)[v])
    {
      if id !in workflows || workflows[id].folderId != Some(folderId) { return Some(WorkflowNotFound); }
      if PointedAt(ToStore(), id) { return Some(Infrastructure); }
      workflows := workflows - {id};
      versions := map v | v in versions && versions[v].workflowId != id :: versions[v];
      error := None;
    }

    method CreateVariable(id: Id, row: Item) returns (error: Option<StoreError>)
      modifies this`variables
      ensures match CreateItem(old(ToStore()), old(variables), id, row)
              case Ok(items) => error.None? && variables == items
              case Err(e) => error == Some(e) && variables == old(variables)
      ensures error.None? ==> id !in old(variables) && variables == old(variables)[id := row]
    {
      var inserted := InsertItem(ToStore(), variables, id, row);
      if inserted.Err? { return Some(OnItem(inserted.error)); }
      variables := variables[id := row];
      error := None;
    }

    method UpdateVariable(id: Id, folderId: Id, name: Option<string>, value: Option<string>)
      returns (error: Option<StoreError>)
      modifies this`variables
      ensures match UpdateItem(old(ToStore()), old(variables), id, folderId, name, value)
              case Ok(items) => error.None? && variables == items
              case Err(e) => error == Some(e) && variables == old(variables)
      ensures error == Some(ItemNotFound) <==> id !in old(variables) || old(variables)[id].folderId != folderId
      ensures error.None? ==>
                var i := old(variables)[id];
                variables == old(variables)[id :=
                  Item(i.workspaceId, folderId, if name.Some? then name.value else i.name,
                       if value.Some? then value.value else i.content)]
    {
      if id !in variables || variables[id].folderId != folderId { return Some(ItemNotFound); }
      var row := variables[id];
      if name.Some? { row := row.(name := name.value); }
      if value.Some? { row := row.(content := value.value); }
      var written := PutItem(ToStore(), variables, id, row);
      if written.Err? {
        if IsUniqueViolation(written.error, Name) && name.Some? && name.value != [] { return Some(ItemNameTaken); }
        return Some(Infrastructure);
      }
      variables := variables[id := row];
      error := None;
    }

    method DeleteVariable(id: Id, folderId: Id) returns (error: Option<StoreError>)
      modifies this`variables
      ensures match DeleteItem(old(variables), id, folderId)
              case Ok(items) => error.None? && variables == items
              case Err(e) => error == Some(e) && variables == old(variables)
      ensures error.None? <==> id in old(variables) && old(variables)[id].folderId == folderId
      ensures error.None? ==> variables == old(variables) - {id}
      ensures error.Some? ==> error == Some(ItemNotFound)
    {
      if id !in variables || variables[id].folderId != folderId { return Some(ItemNotFound); }
      variables := variables - {id};
      error := None;
    }
  }
}
