/** Resource counts: one grouped query per resource, looked up per id, against counting each id on its own. */
module ResourceCounts {
  import opened Common
  import opened WorkspaceStore
  import opened WorkspaceService

  /** Where a counted row sits. */
  datatype Place = Place(workspaceId: Id, folderId: Option<Id>)
  type Places = map<Id, Place>

  function WorkflowPlaces(s: Store): Places {
    map k | k in s.workflows :: Place(s.workflows[k].workspaceId, s.workflows[k].folderId)
  }

  function ItemPlaces(items: Items): Places {
    map k | k in items :: Place(items[k].workspaceId, Some(items[k].folderId))
  }

  function OfWorkspace(p: Places, w: Id): set<Id> {
    set k | k in p && p[k].workspaceId == w
  }

  function OfFolder(p: Places, f: Id): set<Id> {
    set k | k in p && p[k].folderId == Some(f)
  }

  // ----- Grouped counting -----

  datatype Counted = Counted(id: Id, count: nat)

  /**
   * What `GROUP BY … WHERE … IN (ids)` may answer: one row for each wanted id that counts anything, with its
   * count, in any order.
   */
  ghost predicate Groups(rows: seq<Counted>, ids: seq<Id>, counts: Id -> nat) {
    && (forall i :: 0 <= i < |rows| ==> rows[i].id in ids && rows[i].count == counts(rows[i].id) && 0 < rows[i].count)
    && (forall id :: id in ids && 0 < counts(id) ==> exists i :: 0 <= i < |rows| && rows[i].id == id)
    && (forall i, j :: 0 <= i < j < |rows| ==> rows[i].id != rows[j].id)
  }

  /** `rows.find((r) => r.id === id)?.count ?? 0`. */
  function Lookup(rows: seq<Counted>, id: Id): nat {
    if rows == [] then 0 else if rows[0].id == id then rows[0].count else Lookup(rows[1..], id)
  }

  lemma {:induction false} LookupFinds(rows: seq<Counted>, id: Id)
    ensures (exists i :: 0 <= i < |rows| && rows[i].id == id && Lookup(rows, id) == rows[i].count)
         || (Lookup(rows, id) == 0 && forall i :: 0 <= i < |rows| ==> rows[i].id != id)
    decreases |rows|
  {
    if rows != [] && rows[0].id != id {
      LookupFinds(rows[1..], id);
      if i :| 0 <= i < |rows[1..]| && rows[1..][i].id == id && Lookup(rows[1..], id) == rows[1..][i].count {
        assert rows[i + 1].id == id && Lookup(rows, id) == rows[i + 1].count;
      } else {
        forall i | 0 <= i < |rows| ensures rows[i].id != id {
          if i > 0 { assert rows[1..][i - 1] == rows[i]; }
        }
      }
    }
  }

  /** The early return on an empty list aside, looking ids up in the grouped answer is counting each of them. */
  lemma LookupIsCount(rows: seq<Counted>, ids: seq<Id>, counts: Id -> nat, id: Id)
    requires Groups(rows, ids, counts) && id in ids
    ensures Lookup(rows, id) == counts(id)
  {
    LookupFinds(rows, id);
  }

  datatype NamespaceCounts = NamespaceCounts(workspaceId: Id, workflows: nat, variables: nat, credentials: nat,
      folders: nat)

  function FoldersOf(s: Store, w: Id): set<Id> {
    set f | f in s.folders && s.folders[f].workspaceId == w
  }

  function NamespacesResourcesCounts(ids: seq<Id>, workflows: seq<Counted>, variables: seq<Counted>,
                                     credentials: seq<Counted>,
                                     folders: seq<Counted>): seq<NamespaceCounts>
  {
    seq(|ids|, i requires 0 <= i < |ids| =>
      NamespaceCounts(ids[i], Lookup(workflows, ids[i]), Lookup(variables, ids[i]), Lookup(credentials, ids[i]),
                      Lookup(folders, ids[i])))
  }

  /**
   * One row per requested id, in the order and as often as requested, each with the true counts. The four queries
   * are awaited one after another, so each count is that of the tables as its own query found them.
   */
  lemma NamespaceCountsAreExact(s1: Store, s2: Store, s3: Store, s4: Store, ids: seq<Id>, workflows: seq<Counted>,
                                variables: seq<Counted>, credentials: seq<Counted>, folders: seq<Counted>)
    requires Groups(workflows, ids, w => |OfWorkspace(WorkflowPlaces(s1), w)|)
    requires Groups(variables, ids, w => |OfWorkspace(ItemPlaces(s2.variables), w)|)
    requires Groups(credentials, ids, w => |OfWorkspace(ItemPlaces(s3.connections), w)|)
    requires Groups(folders, ids, w => |FoldersOf(s4, w)|)
    ensures var r := NamespacesResourcesCounts(ids, workflows, variables, credentials, folders);
            |r| == |ids| && forall i :: 0 <= i < |ids| ==>
              r[i] == NamespaceCounts(ids[i],
                                      |OfWorkspace(WorkflowPlaces(s1), ids[i])|,
                                      |OfWorkspace(ItemPlaces(s2.variables), ids[i])|,
                                      |OfWorkspace(ItemPlaces(s3.connections), ids[i])|,
                                      |FoldersOf(s4, ids[i])|)
  {
    hide Groups, OfWorkspace, WorkflowPlaces, ItemPlaces, FoldersOf, Lookup;
    forall i | 0 <= i < |ids|
      ensures Lookup(workflows, ids[i]) == |OfWorkspace(WorkflowPlaces(s1), ids[i])|
           && Lookup(variables, ids[i]) == |OfWorkspace(ItemPlaces(s2.variables), ids[i])|
           && Lookup(credentials, ids[i]) == |OfWorkspace(ItemPlaces(s3.connections), ids[i])|
           && Lookup(folders, ids[i]) == |FoldersOf(s4, ids[i])|
    {
      LookupIsCount(workflows, ids, w => |OfWorkspace(WorkflowPlaces(s1), w)|, ids[i]);
      LookupIsCount(variables, ids, w => |OfWorkspace(ItemPlaces(s2.variables), w)|, ids[i]);
      LookupIsCount(credentials, ids, w => |OfWorkspace(ItemPlaces(s3.connections), w)|, ids[i]);
      LookupIsCount(folders, ids, w => |FoldersOf(s4, w)|, ids[i]);
    }
  }

  datatype FolderCounts = FolderCounts(folderId: Id, workflows: nat, variables: nat, credentials: nat)

  function FolderResourcesCounts(ids: seq<Id>, workflows: seq<Counted>, variables: seq<Counted>,
                                 credentials: seq<Counted>): seq<FolderCounts>
  {
    seq(|ids|, i requires 0 <= i < |ids| =>
      FolderCounts(ids[i], Lookup(workflows, ids[i]), Lookup(variables, ids[i]), Lookup(credentials, ids[i])))
  }

  /** The same per folder, from three queries. */
  lemma FolderCountsAreExact(s1: Store, s2: Store, s3: Store, ids: seq<Id>, workflows: seq<Counted>,
                             variables: seq<Counted>, credentials: seq<Counted>)
    requires Groups(workflows, ids, f => |OfFolder(WorkflowPlaces(s1), f)|)
    requires Groups(variables, ids, f => |OfFolder(ItemPlaces(s2.variables), f)|)
    requires Groups(credentials, ids, f => |OfFolder(ItemPlaces(s3.connections), f)|)
    ensures var r := FolderResourcesCounts(ids, workflows, variables, credentials);
            |r| == |ids| && forall i :: 0 <= i < |ids| ==>
              r[i] == FolderCounts(ids[i],
                                   |OfFolder(WorkflowPlaces(s1), ids[i])|,
                                   |OfFolder(ItemPlaces(s2.variables), ids[i])|,
                                   |OfFolder(ItemPlaces(s3.connections), ids[i])|)
  {
    hide Groups, OfFolder, WorkflowPlaces, ItemPlaces, Lookup;
    forall i | 0 <= i < |ids|
      ensures Lookup(workflows, ids[i]) == |OfFolder(WorkflowPlaces(s1), ids[i])|
           && Lookup(variables, ids[i]) == |OfFolder(ItemPlaces(s2.variables), ids[i])|
           && Lookup(credentials, ids[i]) == |OfFolder(ItemPlaces(s3.connections), ids[i])|
    {
      LookupIsCount(workflows, ids, f => |OfFolder(WorkflowPlaces(s1), f)|, ids[i]);
      LookupIsCount(variables, ids, f => |OfFolder(ItemPlaces(s2.variables), f)|, ids[i]);
      LookupIsCount(credentials, ids, f => |OfFolder(ItemPlaces(s3.connections), f)|, ids[i]);
    }
  }

  // ----- Conservation -----

  ghost function SumOver(p: Places, folders: set<Id>): nat
    decreases folders
  {
    if folders == {} then 0 else var f :| f in folders; |OfFolder(p, f)| + SumOver(p, folders - {f})
  }

  function InFolders(p: Places, folders: set<Id>): set<Id> {
    set k | k in p && p[k].folderId.Some? && p[k].folderId.value in folders
  }

  lemma {:induction false} SumCountsOnce(p: Places, folders: set<Id>)
    ensures SumOver(p, folders) == |InFolders(p, folders)|
    decreases folders
  {
    if folders == {} {
      assert InFolders(p, folders) == {};
    } else {
      var f :| f in folders && SumOver(p, folders) == |OfFolder(p, f)| + SumOver(p, folders - {f});
      SumCountsOnce(p, folders - {f});
      assert InFolders(p, folders) == OfFolder(p, f) + InFolders(p, folders - {f});
      assert OfFolder(p, f) !! InFolders(p, folders - {f});
    }
  }

  /** Every row with a folder has one in its own workspace: what the store invariant says of all three tables. */
  ghost predicate Placed(p: Places, s: Store) {
    forall k :: k in p && p[k].folderId.Some? ==> InOwnFolder(s, p[k].workspaceId, p[k].folderId.value)
  }

  function Unfiled(p: Places, w: Id): set<Id> {
    set k | k in p && p[k].workspaceId == w && p[k].folderId.None?
  }

  /** The folder counts of a workspace and its rows with no folder add up to the workspace's count. */
  lemma FolderCountsAddUp(p: Places, s: Store, w: Id)
    requires Placed(p, s)
    ensures SumOver(p, FoldersOf(s, w)) + |Unfiled(p, w)| == |OfWorkspace(p, w)|
  {
    var filed := InFolders(p, FoldersOf(s, w));
    SumCountsOnce(p, FoldersOf(s, w));
    assert OfWorkspace(p, w) == filed + Unfiled(p, w);
    assert filed !! Unfiled(p, w);
  }

  /** In every reachable state nothing is unfiled, so the folder counts alone add up, for all three resources. */
  lemma ReachableCountsAddUp(index: WorkflowIndex, es: seq<Event>, t: State, w: Id)
    requires Run(Fresh(index), es) == Some(t)
    ensures var folders := FoldersOf(t.store, w);
            && SumOver(WorkflowPlaces(t.store), folders) == |OfWorkspace(WorkflowPlaces(t.store), w)|
            && SumOver(ItemPlaces(t.store.variables), folders) == |OfWorkspace(ItemPlaces(t.store.variables), w)|
            && SumOver(ItemPlaces(t.store.connections), folders) == |OfWorkspace(ItemPlaces(t.store.connections), w)|
  {
    EveryRunIsSound(index, es, t);
    var s := t.store;
    forall k | k in s.workflows ensures WorkflowOK(s, k, s.workflows[k]) {}
    FolderCountsAddUp(WorkflowPlaces(s), s, w);
    FolderCountsAddUp(ItemPlaces(s.variables), s, w);
    FolderCountsAddUp(ItemPlaces(s.connections), s, w);
    assert Unfiled(WorkflowPlaces(s), w) == {} && Unfiled(ItemPlaces(s.variables), w) == {}
        && Unfiled(ItemPlaces(s.connections), w) == {};
  }
}
