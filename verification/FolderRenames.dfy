/**
 * Two renames in one workspace as PostgreSQL runs them under READ COMMITTED: each transaction updates its own
 * folder, clears the other defaults if it was asked to, and commits; the rows it wrote stay locked until it
 * ends. A statement sees what was committed when it began, and looks again at every row it had to wait for.
 */
module FolderRenames {
  import opened Common
  import opened WorkspaceStore
  import opened WorkspaceService

  /** `blind`: the clearing statement began before the other transaction had committed. */
  datatype Phase =
    | Begun
    | Updated
    | Clearing(seen: set<Id>, blind: bool)
    | Cleared(blind: bool)
    | Committed(blind: bool)
    | RolledBack

  /** One `rename` of a folder of the workspace: what it was asked for, where it stands, what it wrote. */
  datatype Renaming = Renaming(id: Id, name: string, makeDefault: bool, phase: Phase, writes: map<Id, Folder>)

  datatype Action = UpdateFolder | BeginClearing | FinishClearing | Commit | Rollback

  datatype Race = Race(committed: Store, first: Renaming, second: Renaming)

  /** The tables as the transaction sees them now: what is committed, with its own writes on top. */
  function View(c: Store, t: Renaming): Store {
    c.(folders := c.folders + t.writes)
  }

  predicate Ended(t: Renaming) {
    t.phase.Committed? || t.phase.RolledBack?
  }

  /** A row another transaction wrote is locked, and so is a name it entered into the unique index. */
  predicate MayUpdate(t: Renaming, other: Renaming) {
    t.id !in other.writes && forall k :: k in other.writes ==> other.writes[k].name != t.name
  }

  predicate CanAct(t: Renaming, other: Renaming, a: Action) {
    match a
    case UpdateFolder => t.phase.Begun? && MayUpdate(t, other)
    case BeginClearing => t.phase.Updated? && t.makeDefault
    case FinishClearing => t.phase.Clearing? && forall k :: k in t.phase.seen ==> k !in other.writes
    case Commit => t.phase.Cleared? || (t.phase.Updated? && !t.makeDefault)
    case Rollback => !Ended(t)
  }

  function Defaults(s: Store, w: Id): set<Id> {
    set k | k in s.folders && s.folders[k].workspaceId == w && s.folders[k].isDefault
  }

  /** The rows the clearing statement changes: those it saw that still are defaults when looked at again. */
  function ClearedRows(v: Store, w: Id, id: Id, seen: set<Id>): map<Id, Folder> {
    map k | k in seen && k in v.folders && k in Defaults(v, w) && k != id :: OthersCleared(v, id, w, seen).folders[k]
  }

  function Acted(c: Store, w: Id, t: Renaming, other: Renaming, a: Action): (Store, Renaming)
    requires CanAct(t, other, a)
  {
    match a
    case UpdateFolder => (
      match Renamed(View(c, t), t.id, w, t.name, t.makeDefault)
      case Ok(s) => (c, t.(phase := Updated, writes := map[t.id := s.folders[t.id]]))
      case Err(_) => (c, t.(phase := RolledBack)))
    case BeginClearing => (c, t.(phase := Clearing(Defaults(View(c, t), w) - {t.id}, !other.phase.Committed?)))
    case FinishClearing =>
      (c, t.(phase := Cleared(t.phase.blind), writes := t.writes + ClearedRows(View(c, t), w, t.id, t.phase.seen)))
    case Commit => (View(c, t), t.(phase := Committed(t.phase.Cleared? && t.phase.blind), writes := map[]))
    case Rollback => (c, t.(phase := RolledBack, writes := map[]))
  }

  datatype Event = First(action: Action) | Second(action: Action)

  predicate Enabled(x: Race, e: Event) {
    match e
    case First(a) => CanAct(x.first, x.second, a)
    case Second(a) => CanAct(x.second, x.first, a)
  }

  function Next(x: Race, w: Id, e: Event): Race
    requires Enabled(x, e)
  {
    match e
    case First(a) => var (c, t) := Acted(x.committed, w, x.first, x.second, a); Race(c, t, x.second)
    case Second(a) => var (c, t) := Acted(x.committed, w, x.second, x.first, a); Race(c, x.first, t)
  }

  function Run(x: Race, w: Id, es: seq<Event>): Option<Race>
    decreases |es|
  {
    if es == [] then Some(x) else if !Enabled(x, es[0]) then None else Run(Next(x, w, es[0]), w, es[1..])
  }

  // ----- What every interleaving keeps -----

  /** A transaction has written its own folder, with the flag it asked for or found, and cleared some others. */
  ghost predicate WritesOK(c: Store, w: Id, t: Renaming) {
    && (t.phase.Begun? || Ended(t) ==> t.writes == map[])
    && (t.phase.Updated? || t.phase.Clearing? ==> t.writes.Keys == {t.id})
    && (t.phase.Cleared? ==> t.id in t.writes)
    && (t.phase.Clearing? || t.phase.Cleared? ==> t.makeDefault)
    && (forall k :: k in t.writes ==>
          && k in c.folders && c.folders[k].workspaceId == w && t.writes[k].workspaceId == w
          && t.writes[k].isDefault == (k == t.id && (t.makeDefault || c.folders[k].isDefault)))
  }

  /** What the clearing statement saw and did, by whether the other transaction has committed. */
  ghost predicate ClearingOK(c: Store, w: Id, d: Id, t: Renaming, other: Renaming) {
    && (t.phase.Clearing? && !t.phase.blind ==> other.phase.Committed? && t.phase.seen == Defaults(c, w) - {t.id})
    && (t.phase.Clearing? && t.phase.blind ==> t.phase.seen == {d} - {t.id})
    && (t.phase.Cleared? && !t.phase.blind ==> other.phase.Committed? && Defaults(c, w) <= t.writes.Keys + {t.id})
    && (t.phase.Cleared? && t.phase.blind ==>
          t.writes.Keys == {t.id} + (if other.phase.Committed? && other.makeDefault && other.id != d then {} else {d}))
    && ((t.phase.Clearing? || t.phase.Cleared?) && t.phase.blind && other.phase.Committed? && other.makeDefault ==>
          t.id != other.id && t.id != d)
    && (t.phase.Committed? && !other.phase.Committed? ==> t.phase.blind == t.makeDefault)
    && (t.phase.Committed? && t.phase.blind ==> t.makeDefault)
  }

  /** Both cleared without seeing the other, and neither was asked about the folder that was the default. */
  predicate Raced(d: Id, a: Renaming, b: Renaming) {
    && a.phase.Committed? && b.phase.Committed? && a.phase.blind && b.phase.blind
    && a.id != d && b.id != d
  }

  ghost predicate DefaultsOK(c: Store, w: Id, d: Id, a: Renaming, b: Renaming) {
    if a.phase.Committed? && b.phase.Committed? then
      if Raced(d, a, b) then a.id != b.id && Defaults(c, w) == {a.id, b.id}
      else Defaults(c, w) == {a.id} || Defaults(c, w) == {b.id} || Defaults(c, w) == {d}
    else if a.phase.Committed? then Defaults(c, w) == {if a.makeDefault then a.id else d}
    else if b.phase.Committed? then Defaults(c, w) == {if b.makeDefault then b.id else d}
    else Defaults(c, w) == {d}
  }

  ghost predicate RaceOK(c: Store, w: Id, d: Id, a: Renaming, b: Renaming) {
    && WritesOK(c, w, a) && WritesOK(c, w, b) && a.writes.Keys !! b.writes.Keys
    && ClearingOK(c, w, d, a, b) && ClearingOK(c, w, d, b, a) && DefaultsOK(c, w, d, a, b)
  }

  function Requested(id: Id, name: string, makeDefault: bool): Renaming {
    Renaming(id, name, makeDefault, Begun, map[])
  }

  ghost predicate Inv(x: Race, w: Id, d: Id) {
    RaceOK(x.committed, w, d, x.first, x.second)
  }

  lemma StepKeepsInv(x: Race, w: Id, d: Id, e: Event)
    requires Inv(x, w, d) && Enabled(x, e)
    ensures Inv(Next(x, w, e), w, d)
  {
    hide RaceOK, CanAct, Acted;
    if e.First? {
      ActKeeps(x.committed, w, d, x.first, x.second, e.action);
    } else {
      Swapped(x.committed, w, d, x.first, x.second);
      ActKeeps(x.committed, w, d, x.second, x.first, e.action);
      var (c, t) := Acted(x.committed, w, x.second, x.first, e.action);
      Swapped(c, w, d, t, x.first);
    }
  }

  lemma {:induction false} RunKeepsInv(x: Race, w: Id, d: Id, es: seq<Event>, y: Race)
    requires Inv(x, w, d) && Run(x, w, es) == Some(y)
    ensures Inv(y, w, d)
    decreases |es|
  {
    if es != [] {
      hide Inv, Enabled, Next;
      StepKeepsInv(x, w, d, es[0]);
      RunKeepsInv(Next(x, w, es[0]), w, d, es[1..], y);
    }
  }

  // ----- The results -----

  /**
   * "Exactly one default", over every interleaving of two renames, whether they commit or roll back: it is lost
   * exactly when both commit, each began to clear before the other had committed, and the default there was is
   * neither of the two folders. In every other schedule a lock or a snapshot makes one transaction see the other.
   */
  lemma OverlappingRenames(s: Store, w: Id, d: Id, first: Renaming, second: Renaming, es: seq<Event>, x: Race)
    requires Defaults(s, w) == {d}
    requires first == Requested(first.id, first.name, first.makeDefault)
    requires second == Requested(second.id, second.name, second.makeDefault)
    requires Run(Race(s, first, second), w, es) == Some(x) && Ended(x.first) && Ended(x.second)
    ensures OneDefault(x.committed, w) <==> !Raced(d, x.first, x.second)
  {
    hide Defaults, OneDefault, Run;
    RunKeepsInv(Race(s, first, second), w, d, es, x);
    if Raced(d, x.first, x.second) {
      CountedDefaults(x.committed, w, x.first.id, x.second.id);
    } else {
      assert exists z :: Defaults(x.committed, w) == {z};
      var z :| Defaults(x.committed, w) == {z};
      CountedDefaults(x.committed, w, z, z);
    }
  }

  /** A rename that nothing interleaves with is the rename of the repository, in all its outcomes. */
  lemma AloneIsRenameFolder(s: Store, w: Id, id: Id, name: string, makeDefault: bool, other: Renaming)
    returns (es: seq<Event>, x: Race)
    requires other.writes == map[]
    ensures Run(Race(s, Requested(id, name, makeDefault), other), w, es) == Some(x) && x.second == other
    ensures match RenameFolder(s, id, w, name, makeDefault)
            case Ok(t) => x.first.phase.Committed? && x.committed == t
            case Err(_) => x.first.phase.RolledBack? && x.committed == s
  {
    var t0 := Requested(id, name, makeDefault);
    var x0 := Race(s, t0, other);
    if Renamed(s, id, w, name, makeDefault).Err? {
      assert View(s, t0) == s;
      hide Renamed;
      x := Race(s, t0.(phase := RolledBack), other);
      RunCons(x0, w, First(UpdateFolder), []);
      es := [First(UpdateFolder)] + [];
    } else {
      Updates(s, w, t0, other);
      var (_, t1) := Acted(s, w, t0, other, UpdateFolder);
      var x1 := Race(s, t1, other);
      if makeDefault {
        hide Renamed, View, WritesOK, OthersCleared;
        x := ClearsAlone(x1, w);
        assert Run(x, w, []) == Some(x);
        es := [First(BeginClearing)] + ([First(FinishClearing)] + ([First(Commit)] + []));
      } else {
        hide Renamed, View, WritesOK, OthersCleared;
        x := Next(x1, w, First(Commit));
        assert Run(x, w, []) == Some(x);
        RunCons(x1, w, First(Commit), []);
        es := [First(Commit)] + [];
      }
      hide Run;
      RunCons(x0, w, First(UpdateFolder), es);
      es := [First(UpdateFolder)] + es;
    }
  }

  /** The bad schedule is there for every two folders that are not the default, under names that are free. */
  lemma RaceIsReachable(s: Store, w: Id, d: Id, f: Id, g: Id, fName: string, gName: string)
    returns (es: seq<Event>, x: Race)
    requires Defaults(s, w) == {d} && f != g && f != d && g != d && fName != gName
    requires Renamed(s, f, w, fName, true).Ok? && Renamed(s, g, w, gName, true).Ok?
    ensures Run(Race(s, Requested(f, fName, true), Requested(g, gName, true)), w, es) == Some(x)
    ensures Ended(x.first) && Ended(x.second) && !OneDefault(x.committed, w)
  {
    hide Defaults, Renamed, WritesOK, View, Acted, OneDefault, Run;
    var a0, b0 := Requested(f, fName, true), Requested(g, gName, true);
    var x0 := Race(s, a0, b0);
    Updates(s, w, a0, b0);
    var x1 := Next(x0, w, First(UpdateFolder));
    Updates(s, w, b0, x1.first);
    var x2 := Next(x1, w, Second(UpdateFolder));
    es, x := BothClear(s, w, d, x2.first, x2.second);
    RunCons(x1, w, Second(UpdateFolder), es);
    RunCons(x0, w, First(UpdateFolder), [Second(UpdateFolder)] + es);
    es := [First(UpdateFolder)] + ([Second(UpdateFolder)] + es);
    OverlappingRenames(s, w, d, a0, b0, es, x);
  }

  // ----- Action by action -----

  lemma Swapped(c: Store, w: Id, d: Id, a: Renaming, b: Renaming)
    requires RaceOK(c, w, d, a, b)
    ensures RaceOK(c, w, d, b, a)
  {
    hide WritesOK, ClearingOK;
    assert {a.id, b.id} == {b.id, a.id};
  }

  lemma UpdatedRow(c: Store, w: Id, t: Renaming)
    requires t.writes == map[]
    ensures var r := Renamed(View(c, t), t.id, w, t.name, t.makeDefault);
            r.Ok? ==>
              && t.id in c.folders && c.folders[t.id].workspaceId == w && t.id in r.value.folders
              && r.value.folders[t.id] ==
                   c.folders[t.id].(name := t.name, isDefault := c.folders[t.id].isDefault || t.makeDefault)
  {
    hide FolderNameUsed;
    assert c.folders + t.writes == c.folders;
  }

  lemma UpdateKeeps(c: Store, w: Id, d: Id, t: Renaming, other: Renaming)
    requires RaceOK(c, w, d, t, other) && CanAct(t, other, UpdateFolder)
    ensures var (c', t') := Acted(c, w, t, other, UpdateFolder); RaceOK(c', w, d, t', other)
  {
    hide Defaults, Renamed, View;
    UpdatedRow(c, w, t);
    if Renamed(View(c, t), t.id, w, t.name, t.makeDefault).Ok? {
    } else {
    }
  }

  lemma BeginKeeps(c: Store, w: Id, d: Id, t: Renaming, other: Renaming)
    requires RaceOK(c, w, d, t, other) && CanAct(t, other, BeginClearing)
    ensures var (c', t') := Acted(c, w, t, other, BeginClearing); RaceOK(c', w, d, t', other)
  {
    assert Defaults(View(c, t), w) - {t.id} == Defaults(c, w) - {t.id};
    hide Defaults, View;
  }

  lemma ClearedKeys(c: Store, w: Id, t: Renaming)
    requires WritesOK(c, w, t) && t.phase.Clearing?
    ensures var rows := ClearedRows(View(c, t), w, t.id, t.phase.seen);
            && rows.Keys == t.phase.seen * (Defaults(c, w) - {t.id})
            && forall k :: k in rows ==> c.folders[k].workspaceId == w && rows[k] == c.folders[k].(isDefault := false)
  {
  }

  lemma FinishedWrites(c: Store, w: Id, t: Renaming, other: Renaming)
    requires WritesOK(c, w, t) && t.writes.Keys !! other.writes.Keys && CanAct(t, other, FinishClearing)
    ensures var (c', t') := Acted(c, w, t, other, FinishClearing);
            && WritesOK(c', w, t') && t'.writes.Keys !! other.writes.Keys
            && t'.writes.Keys == {t.id} + t.phase.seen * (Defaults(c, w) - {t.id})
  {
    ClearedKeys(c, w, t);
    hide Defaults, View, ClearedRows;
  }

  lemma FinishKeeps(c: Store, w: Id, d: Id, t: Renaming, other: Renaming)
    requires RaceOK(c, w, d, t, other) && CanAct(t, other, FinishClearing)
    ensures var (c', t') := Acted(c, w, t, other, FinishClearing); RaceOK(c', w, d, t', other)
  {
    FinishedWrites(c, w, t, other);
    assert t.writes.Keys == {t.id};
    hide WritesOK, Defaults, View, ClearedRows;
  }

  lemma RollbackKeeps(c: Store, w: Id, d: Id, t: Renaming, other: Renaming)
    requires RaceOK(c, w, d, t, other) && CanAct(t, other, Rollback)
    ensures var (c', t') := Acted(c, w, t, other, Rollback); RaceOK(c', w, d, t', other)
  {
    hide Defaults;
  }

  /** Committing makes the folder a default if that was asked for, and takes the flag from what was cleared. */
  lemma DefaultsAfter(c: Store, w: Id, t: Renaming)
    requires WritesOK(c, w, t) && t.id in t.writes
    ensures Defaults(View(c, t), w) ==
              (Defaults(c, w) - (t.writes.Keys - {t.id})) + (if t.makeDefault then {t.id} else {})
  {
  }

  lemma CommitKeepsDefaults(c: Store, w: Id, d: Id, t: Renaming, other: Renaming)
    requires RaceOK(c, w, d, t, other) && CanAct(t, other, Commit)
    ensures var (c', t') := Acted(c, w, t, other, Commit); DefaultsOK(c', w, d, t', other)
  {
    DefaultsAfter(c, w, t);
    hide Defaults, View;
    if other.phase.Committed? {
    } else {
    }
  }

  lemma CommitKeeps(c: Store, w: Id, d: Id, t: Renaming, other: Renaming)
    requires RaceOK(c, w, d, t, other) && CanAct(t, other, Commit)
    ensures var (c', t') := Acted(c, w, t, other, Commit); RaceOK(c', w, d, t', other)
  {
    CommittedWrites(c, w, t, other);
    CommitKeepsDefaults(c, w, d, t, other);
    hide WritesOK, View, Defaults;
    if other.phase.Committed? {
    } else {
    }
  }

  /** What the other transaction wrote is not touched by the commit. */
  lemma CommittedWrites(c: Store, w: Id, t: Renaming, other: Renaming)
    requires WritesOK(c, w, t) && WritesOK(c, w, other) && t.writes.Keys !! other.writes.Keys
    ensures WritesOK(View(c, t), w, other)
    ensures WritesOK(View(c, t), w, t.(phase := Committed(t.phase.Cleared? && t.phase.blind), writes := map[]))
    ensures t.phase.Updated? || t.phase.Clearing? ==> t.writes.Keys == {t.id}
    ensures t.phase.Cleared? ==> t.makeDefault
    ensures !other.phase.Begun? && !Ended(other) ==> other.id in other.writes
    ensures other.phase.Begun? || Ended(other) ==> other.writes == map[]
  {
  }

  lemma ActKeeps(c: Store, w: Id, d: Id, t: Renaming, other: Renaming, a: Action)
    requires RaceOK(c, w, d, t, other) && CanAct(t, other, a)
    ensures var (c', t') := Acted(c, w, t, other, a); RaceOK(c', w, d, t', other)
  {
    hide RaceOK, CanAct, Acted;
    match a
    case UpdateFolder => UpdateKeeps(c, w, d, t, other);
    case BeginClearing => BeginKeeps(c, w, d, t, other);
    case FinishClearing => FinishKeeps(c, w, d, t, other);
    case Commit => CommitKeeps(c, w, d, t, other);
    case Rollback => RollbackKeeps(c, w, d, t, other);
  }

  lemma CountedDefaults(s: Store, w: Id, f: Id, g: Id)
    ensures Defaults(s, w) == {f} ==> OneDefault(s, w)
    ensures f in Defaults(s, w) && g in Defaults(s, w) && f != g ==> !OneDefault(s, w)
  {
    assert forall k :: IsDefaultOf(s, k, w) <==> k in Defaults(s, w);
    hide Defaults, IsDefaultOf;
    if Defaults(s, w) == {f} { Defaulted(s, w, f); }
  }

  // ----- The two schedules, step by step -----

  lemma ClearedView(c: Store, w: Id, t: Renaming)
    requires WritesOK(c, w, t) && t.phase.Clearing? && t.phase.seen == Defaults(c, w) - {t.id}
    ensures var v := View(c, t);
            View(c, t.(writes := t.writes + ClearedRows(v, w, t.id, t.phase.seen))) ==
              OthersCleared(v, t.id, w, v.folders.Keys)
  {
    hide ClearedRows;
    ClearedKeys(c, w, t);
    var v := View(c, t);
    var rows := ClearedRows(v, w, t.id, t.phase.seen);
    var folders := OthersCleared(v, t.id, w, v.folders.Keys).folders;
    assert t.writes.Keys == {t.id} && v.folders == c.folders[t.id := t.writes[t.id]];
    hide WritesOK, View;
    forall k | k in c.folders ensures (c.folders + (t.writes + rows))[k] == folders[k] {}
    assert c.folders + (t.writes + rows) == folders;
    ViewIs(c, t.(writes := t.writes + rows));
    ViewIs(c, t);
  }

  lemma ViewIs(c: Store, t: Renaming)
    ensures View(c, t) == c.(folders := c.folders + t.writes)
  {
  }

  lemma RunCons(x: Race, w: Id, e: Event, es: seq<Event>)
    requires Enabled(x, e)
    ensures Run(x, w, [e] + es) == Run(Next(x, w, e), w, es)
  {
    assert ([e] + es)[0] == e && ([e] + es)[1..] == es;
  }

  /** The first statement, when no lock stands in its way and the name is free. */
  lemma Updates(s: Store, w: Id, t0: Renaming, other: Renaming)
    requires t0 == Requested(t0.id, t0.name, t0.makeDefault) && MayUpdate(t0, other)
    requires Renamed(s, t0.id, w, t0.name, t0.makeDefault).Ok?
    ensures CanAct(t0, other, UpdateFolder)
    ensures var (c1, t1) := Acted(s, w, t0, other, UpdateFolder);
            && c1 == s && t1 == t0.(phase := Updated, writes := t1.writes) && WritesOK(s, w, t1)
            && t1.writes.Keys == {t0.id} && t1.writes[t0.id].name == t0.name
            && View(s, t1) == Renamed(s, t0.id, w, t0.name, t0.makeDefault).value
  {
    assert View(s, t0) == s;
    UpdatedRow(s, w, t0);
    hide FolderNameUsed;
  }

  /** The first transaction's clearing goes through and commits: what it saw is free of locks. */
  lemma FirstFinishes(x: Race, w: Id) returns (y: Race)
    requires x.first.phase.Clearing? && CanAct(x.first, x.second, FinishClearing)
    ensures forall es :: Run(x, w, [First(FinishClearing)] + ([First(Commit)] + es)) == Run(y, w, es)
    ensures var c, t := x.committed, x.first;
            && y.committed == View(c, t.(writes := t.writes + ClearedRows(View(c, t), w, t.id, t.phase.seen)))
            && y.second == x.second && y.first.id == t.id && y.first.writes == map[]
            && y.first.phase == Committed(t.phase.blind)
  {
    var c, t := x.committed, x.first;
    ViewIs(c, t.(writes := t.writes + ClearedRows(View(c, t), w, t.id, t.phase.seen)));
    var x1 := Next(x, w, First(FinishClearing));
    ViewIs(c, x1.first);
    hide View, ClearedRows, Run;
    y := Next(x1, w, First(Commit));
    forall es ensures Run(x, w, [First(FinishClearing)] + ([First(Commit)] + es)) == Run(y, w, es) {
      RunCons(x1, w, First(Commit), es);
      RunCons(x, w, First(FinishClearing), [First(Commit)] + es);
    }
  }

  lemma ClearsAlone(x: Race, w: Id) returns (y: Race)
    requires x.first.phase.Updated? && x.first.makeDefault && WritesOK(x.committed, w, x.first)
    requires x.second.writes == map[]
    ensures forall es ::
              Run(x, w, [First(BeginClearing)] + ([First(FinishClearing)] + ([First(Commit)] + es))) == Run(y, w, es)
    ensures var v := View(x.committed, x.first); y.committed == OthersCleared(v, x.first.id, w, v.folders.Keys)
    ensures y.first.phase.Committed? && y.second == x.second
  {
    var c, t := x.committed, x.first;
    assert Defaults(View(c, t), w) - {t.id} == Defaults(c, w) - {t.id};
    ViewIs(c, t);
    hide Defaults, View, Run, ClearedRows, OthersCleared;
    var x1 := Next(x, w, First(BeginClearing));
    ViewIs(c, x1.first);
    assert WritesOK(c, w, x1.first);
    ClearedView(c, w, x1.first);
    y := FirstFinishes(x1, w);
    forall es
      ensures Run(x, w, [First(BeginClearing)] + ([First(FinishClearing)] + ([First(Commit)] + es))) == Run(y, w, es)
    {
      RunCons(x, w, First(BeginClearing), [First(FinishClearing)] + ([First(Commit)] + es));
    }
  }

  /** A snapshot taken before the other transaction commits shows the old default and none but it. */
  lemma SeesOthers(s: Store, w: Id, d: Id, a: Renaming)
    requires Defaults(s, w) == {d} && a.id != d && a.phase.Updated? && WritesOK(s, w, a)
    ensures Defaults(View(s, a), w) - {a.id} == {d} && d !in a.writes
  {
  }

  lemma SecondFinishes(x: Race, w: Id) returns (y: Race)
    requires x.second.phase.Clearing? && CanAct(x.second, x.first, FinishClearing)
    ensures Run(x, w, [Second(FinishClearing), Second(Commit)]) == Some(y)
    ensures y.first == x.first && y.second.id == x.second.id && y.second.phase == Committed(x.second.phase.blind)
  {
    hide View, ClearedRows;
    var x1 := Next(x, w, Second(FinishClearing));
    y := Next(x1, w, Second(Commit));
    assert Run(y, w, []) == Some(y);
    hide Run;
    RunCons(x1, w, Second(Commit), []);
    RunCons(x, w, Second(FinishClearing), [Second(Commit)]);
    assert [Second(FinishClearing)] + [Second(Commit)] == [Second(FinishClearing), Second(Commit)];
    assert [Second(Commit)] + [] == [Second(Commit)];
  }

  lemma BothClear(s: Store, w: Id, d: Id, a: Renaming, b: Renaming) returns (es: seq<Event>, x: Race)
    requires Defaults(s, w) == {d} && a.id != d && b.id != d
    requires a.phase.Updated? && a.makeDefault && WritesOK(s, w, a)
    requires b.phase.Updated? && b.makeDefault && WritesOK(s, w, b)
    ensures Run(Race(s, a, b), w, es) == Some(x)
    ensures x.first.phase == Committed(true) && x.second.phase == Committed(true)
    ensures x.first.id == a.id && x.second.id == b.id
  {
    hide Defaults, View, WritesOK, Run;
    SeesOthers(s, w, d, a);
    SeesOthers(s, w, d, b);
    var x0 := Race(s, a, b);
    var x1 := Next(x0, w, First(BeginClearing));
    var x2 := Next(x1, w, Second(BeginClearing));
    var x4 := FirstFinishes(x2, w);
    x := SecondFinishes(x4, w);
    es := [First(FinishClearing)] + ([First(Commit)] + [Second(FinishClearing), Second(Commit)]);
    RunCons(x1, w, Second(BeginClearing), es);
    RunCons(x0, w, First(BeginClearing), [Second(BeginClearing)] + es);
    es := [First(BeginClearing)] + ([Second(BeginClearing)] + es);
  }
}
