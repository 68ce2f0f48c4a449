/**
 The schema migrator: a loop over versions that alters tables in place and writes the reached
 version only at the very end, by a delete and an insert. A process may die before any statement;
 what a transaction had done is then lost, what single statements had done stays.
 */
module Migration {
  import opened Options

  const SCHEMA_VERSION := 8
  const GRACE_PERIOD := "grace-period"
  const ACTIVE := "active"

  /** User, and project or workspace name. */
  type Key = (string, string)

  /** `data` are the columns that no migration touches. A column that is absent has no meaning yet. */
  datatype SessionRow = SessionRow(data: string, mode: string, id: Option<string>, workspaceId: Option<string>)
  datatype WorkspaceRow = WorkspaceRow(data: string, mode: string, id: Option<string>, state: string, headCommit: string)

  datatype SessionTable =
    SessionTable(rows: map<Key, SessionRow>, hasId: bool, hasWorkspaceId: bool, idIndex: bool)
  datatype WorkspaceTable =
    WorkspaceTable(rows: map<Key, WorkspaceRow>, hasMode: bool, hasId: bool, hasState: bool, hasHead: bool, idIndex: bool)

  /** Table `machines` was renamed to `workspaces` on the way from version 5 to 6. */
  datatype Tables = Tables(sessions: Option<SessionTable>, machines: Option<WorkspaceTable>, workspaces: Option<WorkspaceTable>)

  datatype Outcome = Done | Crashed | Failed

  function Max(versions: seq<int>): (m: int)
    requires versions != []
    ensures m in versions && forall v :: v in versions ==> v <= m
  {
    if |versions| == 1 then versions[0]
    else
      assert versions == [versions[0]] + versions[1..];
      if Max(versions[1..]) > versions[0] then Max(versions[1..]) else versions[0]
  }

  /** The version a run starts from: the largest recorded, 0 if none is. */
  function Stored(versions: seq<int>): int {
    if versions == [] then 0 else Max(versions)
  }

  /** Stand-in for generated UUIDs: only that they are non-empty and never repeat matters. */
  function Uuid(n: nat): string {
    seq(n + 1, _ => 'u')
  }

  // -------------------------------------------------------------- well-shapedness

  ghost predicate GoodIds(ids: map<Key, Option<string>>) {
    (forall k :: k in ids ==> ids[k].Some? && ids[k].value != "") &&
    (forall k, l :: k in ids && l in ids && k != l ==> ids[k] != ids[l])
  }

  ghost function SessionIds(t: SessionTable): map<Key, Option<string>> {
    map k | k in t.rows :: t.rows[k].id
  }

  ghost function WorkspaceIds(t: WorkspaceTable): map<Key, Option<string>> {
    map k | k in t.rows :: t.rows[k].id
  }

  /** The index comes and goes with the id column. */
  ghost predicate SessionShape(t: SessionTable) {
    t.idIndex == t.hasId && (t.hasId ==> GoodIds(SessionIds(t)))
  }

  /** The table of version 8, except that the index may still be missing. */
  ghost predicate FullSessions(t: SessionTable) {
    t.hasId && t.hasWorkspaceId && GoodIds(SessionIds(t))
  }

  /** Columns appear in the order mode, id, state, head_commit. */
  ghost predicate WorkspaceShape(t: WorkspaceTable) {
    t.hasMode && (t.hasState ==> t.hasId) && (t.hasHead ==> t.hasState) &&
    t.idIndex == t.hasId && (t.hasId ==> GoodIds(WorkspaceIds(t)))
  }

  ghost predicate FullWorkspaces(t: WorkspaceTable) {
    t.hasMode && t.hasId && t.hasState && t.hasHead && GoodIds(WorkspaceIds(t))
  }

  ghost predicate MachineShape(t: WorkspaceTable) {
    !t.hasId && !t.hasState && !t.hasHead && !t.idIndex
  }

  ghost predicate Empty(t: Option<WorkspaceTable>) {
    t.Some? ==> t.value.rows == map[]
  }

  /** Tables as a database of version v has them, or as an interrupted run from version v leaves them. */
  ghost predicate ShapeAt(t: Tables, v: int) {
    (t.machines.Some? ==> MachineShape(t.machines.value)) &&
    (if v == 0 then
      (t.sessions.Some? ==> FullSessions(t.sessions.value)) &&
      (t.workspaces.Some? ==> FullWorkspaces(t.workspaces.value)) &&
      Empty(t.machines)
    else
      (t.workspaces.Some? ==> WorkspaceShape(t.workspaces.value)) &&
      (t.machines.Some? && t.workspaces.Some? ==> Empty(t.machines)) &&
      (v >= 3 ==> t.sessions.Some? && SessionShape(t.sessions.value)) &&
      (v <= 3 ==> Empty(t.machines) && Empty(t.workspaces)) &&
      (v >= 4 ==> t.machines.Some? || t.workspaces.Some?) &&
      (v >= 5 && t.workspaces.None? ==> t.machines.value.hasMode) &&
      (v >= 6 ==> t.workspaces.Some? && t.workspaces.value.hasId) &&
      (v >= 6 ==> t.sessions.value.hasId && t.sessions.value.hasWorkspaceId) &&
      (v >= 7 ==> t.workspaces.value.hasState) &&
      (v >= 8 ==> t.workspaces.value.hasHead))
  }

  ghost predicate WellShaped(versions: seq<int>, t: Tables) {
    0 <= Stored(versions) <= SCHEMA_VERSION && ShapeAt(t, Stored(versions))
  }

  /** What a completed run promises. */
  ghost predicate Current(versions: seq<int>, t: Tables) {
    versions == [8] && ShapeAt(t, 8)
  }

  // --------------------------------------------------------------- what is kept

  /** The table that holds the workspaces, under its old or its new name. */
  function Live(t: Tables): Option<WorkspaceTable> {
    if t.workspaces.Some? then t.workspaces else t.machines
  }

  ghost predicate WorkspacesKept(a: Option<WorkspaceTable>, b: Option<WorkspaceTable>) {
    if a.None? then b.Some? ==> b.value.rows == map[]
    else
      b.Some? && a.value.rows.Keys == b.value.rows.Keys &&
      (a.value.hasMode ==> b.value.hasMode) && (a.value.hasId ==> b.value.hasId) &&
      (a.value.hasState ==> b.value.hasState) && (a.value.hasHead ==> b.value.hasHead) &&
      forall k :: k in a.value.rows ==>
        var x, y := a.value.rows[k], b.value.rows[k];
        x.data == y.data && (a.value.hasMode ==> x.mode == y.mode) && (a.value.hasId ==> x.id == y.id) &&
        (a.value.hasState ==> x.state == y.state) && (a.value.hasHead ==> x.headCommit == y.headCommit) &&
        (!a.value.hasState && b.value.hasState ==> y.state == "active") &&
        (!a.value.hasHead && b.value.hasHead ==> y.headCommit == "")
  }

  /** The id of the workspace that a session belongs to by its key. */
  function LinkFor(w: Option<WorkspaceTable>, k: Key): Option<string> {
    if w.Some? && k in w.value.rows then w.value.rows[k].id else None
  }

  ghost predicate SessionsKept(a: Tables, b: Tables) {
    if a.sessions.None? then b.sessions.Some? ==> b.sessions.value.rows == map[]
    else
      b.sessions.Some? &&
      var s, t := a.sessions.value, b.sessions.value;
      s.rows.Keys == t.rows.Keys && (s.hasId ==> t.hasId) && (s.hasWorkspaceId ==> t.hasWorkspaceId) &&
      forall k :: k in s.rows ==>
        var x, y := s.rows[k], t.rows[k];
        x.data == y.data && x.mode == y.mode && (s.hasId ==> x.id == y.id) &&
        (s.hasWorkspaceId ==> x.workspaceId == y.workspaceId) &&
        (!s.hasWorkspaceId && t.hasWorkspaceId ==>
           b.workspaces.Some? && b.workspaces.value.hasId &&
           y.workspaceId == if k in b.workspaces.value.rows then b.workspaces.value.rows[k].id else None)
  }

  /** Nothing that b should still have is lost or changed; sessions before version 3 are dropped on purpose. */
  ghost predicate Kept(a: Tables, b: Tables, keepSessions: bool) {
    (a.workspaces.Some? ==> b.workspaces.Some?) &&
    WorkspacesKept(Live(a), Live(b)) && (keepSessions ==> SessionsKept(a, b))
  }

  lemma KeptReflexive(a: Tables, keep: bool)
    ensures Kept(a, a, keep)
  {
  }

  lemma KeptTransitive(a: Tables, b: Tables, c: Tables, keep: bool)
    requires Kept(a, b, keep) && Kept(b, c, keep)
    ensures Kept(a, c, keep)
  {
    if keep && a.sessions.Some? {
      forall k | k in a.sessions.value.rows && !a.sessions.value.hasWorkspaceId && b.sessions.value.hasWorkspaceId
        ensures c.workspaces.Some? && c.workspaces.value.rows.Keys == b.workspaces.value.rows.Keys
        ensures k in b.workspaces.value.rows ==> c.workspaces.value.rows[k].id == b.workspaces.value.rows[k].id
      {
      }
    }
  }

  // ---------------------------------------------------------- columns added to a table

  function WithWorkspaceIds(t: WorkspaceTable, ids: map<Key, Option<string>>): WorkspaceTable
    requires ids.Keys == t.rows.Keys
  {
    t.(hasId := true, idIndex := true, rows := map k | k in t.rows :: t.rows[k].(id := ids[k]))
  }

  lemma WorkspaceIdsAdded(t: WorkspaceTable, ids: map<Key, Option<string>>)
    requires WorkspaceShape(t) && !t.hasId && ids.Keys == t.rows.Keys && GoodIds(ids)
    ensures WorkspaceShape(WithWorkspaceIds(t, ids))
    ensures WorkspacesKept(Some(t), Some(WithWorkspaceIds(t, ids)))
    ensures t.rows == map[] ==> WithWorkspaceIds(t, ids).rows == map[]
  {
    assert WorkspaceIds(WithWorkspaceIds(t, ids)) == ids;
  }

  function WithState(t: WorkspaceTable): WorkspaceTable {
    t.(hasState := true, rows := map k | k in t.rows :: t.rows[k].(state := ACTIVE))
  }

  function WithHead(t: WorkspaceTable): WorkspaceTable {
    t.(hasHead := true, rows := map k | k in t.rows :: t.rows[k].(headCommit := ""))
  }

  lemma ColumnsAdded(t: WorkspaceTable)
    requires WorkspaceShape(t) && t.hasId
    ensures !t.hasState ==> WorkspaceShape(WithState(t)) && WorkspacesKept(Some(t), Some(WithState(t)))
    ensures t.hasState && !t.hasHead ==> WorkspaceShape(WithHead(t)) && WorkspacesKept(Some(t), Some(WithHead(t)))
    ensures t.rows == map[] ==> WithState(t).rows == map[] && WithHead(t).rows == map[]
  {
    assert WorkspaceIds(WithState(t)) == WorkspaceIds(t);
    assert WorkspaceIds(WithHead(t)) == WorkspaceIds(t);
  }

  /** Exchanging the table for one that keeps its rows and has more columns. */
  lemma PutWorkspaces(a: Tables, w: WorkspaceTable, v: int)
    requires ShapeAt(a, v) && v != 0 && a.workspaces.Some?
    requires WorkspaceShape(w) && WorkspacesKept(a.workspaces, Some(w))
    ensures ShapeAt(a.(workspaces := Some(w)), v) && Kept(a, a.(workspaces := Some(w)), true)
  {
    hide GoodIds;
    assert w.rows.Keys == {} ==> w.rows == map[];
  }

  /** Exchanging the old table for one with the same rows and perhaps other modes, where there were none. */
  lemma PutMachines(a: Tables, m: WorkspaceTable, v: int)
    requires 1 <= v <= 4 && ShapeAt(a, v) && ShapeAt(a, 4) && a.machines.Some? && !a.machines.value.hasMode
    requires MachineShape(m) && m.hasMode && m.rows.Keys == a.machines.value.rows.Keys
    requires forall k :: k in m.rows ==> m.rows[k].data == a.machines.value.rows[k].data
    ensures ShapeAt(a.(machines := Some(m)), v) && ShapeAt(a.(machines := Some(m)), 5)
    ensures Kept(a, a.(machines := Some(m)), true)
  {
    hide GoodIds;
    assert m.rows.Keys == {} ==> m.rows == map[];
  }

  lemma FourIsFive(t: Tables)
    requires ShapeAt(t, 4) && t.machines.Some? && t.machines.value.hasMode
    ensures ShapeAt(t, 5)
  {
  }

  lemma MachinesShaped(t: Tables)
    requires ShapeAt(t, 4)
    ensures t.machines.Some? ==> MachineShape(t.machines.value)
  {
  }

  function WithSessionIds(t: SessionTable, ids: map<Key, Option<string>>): SessionTable
    requires ids.Keys == t.rows.Keys
  {
    t.(hasId := true, idIndex := true, rows := map k | k in t.rows :: t.rows[k].(id := ids[k]))
  }

  function WithLinks(t: SessionTable, w: Option<WorkspaceTable>): SessionTable {
    t.(hasWorkspaceId := true, rows := map k | k in t.rows :: t.rows[k].(workspaceId := LinkFor(w, k)))
  }

  /**
   A session whose key is that of a workspace is linked to it by its id, which is not empty; different sessions are linked to
   different workspaces; the other sessions are linked to none.
   */
  ghost predicate Linked(s: SessionTable, w: WorkspaceTable) {
    (forall k :: k in s.rows && k in w.rows ==>
                   s.rows[k].workspaceId.Some? && s.rows[k].workspaceId.value != "" && s.rows[k].workspaceId == w.rows[k].id) &&
    (forall k, l :: k in s.rows && l in s.rows && k in w.rows && l in w.rows && k != l ==>
                      s.rows[k].workspaceId != s.rows[l].workspaceId) &&
    (forall k :: k in s.rows && k !in w.rows ==> s.rows[k].workspaceId == None)
  }

  lemma SessionIdsAdded(a: Tables, ids: map<Key, Option<string>>)
    requires a.sessions.Some? && SessionShape(a.sessions.value) && !a.sessions.value.hasId
    requires ids.Keys == a.sessions.value.rows.Keys && GoodIds(ids)
    ensures SessionShape(WithSessionIds(a.sessions.value, ids))
    ensures Kept(a, a.(sessions := Some(WithSessionIds(a.sessions.value, ids))), true)
  {
    assert SessionIds(WithSessionIds(a.sessions.value, ids)) == ids;
  }

  lemma LinksAdded(a: Tables)
    requires a.sessions.Some? && SessionShape(a.sessions.value) && !a.sessions.value.hasWorkspaceId
    requires a.workspaces.Some? && a.workspaces.value.hasId && WorkspaceShape(a.workspaces.value)
    ensures SessionShape(WithLinks(a.sessions.value, a.workspaces))
    ensures Linked(WithLinks(a.sessions.value, a.workspaces), a.workspaces.value)
    ensures Kept(a, a.(sessions := Some(WithLinks(a.sessions.value, a.workspaces))), true)
  {
    var t := WithLinks(a.sessions.value, a.workspaces);
    assert SessionIds(t) == SessionIds(a.sessions.value);
    assert forall k :: k in t.rows && k in a.workspaces.value.rows ==>
                         t.rows[k].workspaceId == WorkspaceIds(a.workspaces.value)[k];
  }

  /** Exchanging the sessions table of version 5 for one of version 6. */
  lemma PutSessions(a: Tables, t: SessionTable, v: int)
    requires 1 <= v <= 5 && ShapeAt(a, v) && ShapeAt(a, 5) && a.workspaces.Some? && a.workspaces.value.hasId
    requires SessionShape(t) && t.hasId && t.hasWorkspaceId
    ensures ShapeAt(a.(sessions := Some(t)), v) && ShapeAt(a.(sessions := Some(t)), 6)
  {
    hide GoodIds;
  }

  lemma FiveGives(a: Tables)
    requires ShapeAt(a, 5)
    ensures a.sessions.Some? && SessionShape(a.sessions.value) && (a.workspaces.Some? ==> WorkspaceShape(a.workspaces.value))
    ensures a.workspaces.Some? && a.workspaces.value.hasId && a.sessions.value.hasId && a.sessions.value.hasWorkspaceId ==>
              ShapeAt(a, 6)
  {
    hide GoodIds;
  }

  lemma LinksRight(a: Tables, b: Tables)
    requires SessionsKept(a, b) && a.sessions.Some? && !a.sessions.value.hasWorkspaceId && b.sessions.value.hasWorkspaceId
    requires b.workspaces.Some? && GoodIds(WorkspaceIds(b.workspaces.value))
    ensures Linked(b.sessions.value, b.workspaces.value)
  {
    var s, w, ids := b.sessions.value, b.workspaces.value, WorkspaceIds(b.workspaces.value);
    forall k | k in s.rows && k in w.rows
      ensures s.rows[k].workspaceId == ids[k]
    {
      assert k in a.sessions.value.rows;
    }
  }

  lemma DoneTables(t: Tables)
    requires ShapeAt(t, 8)
    ensures t.sessions.Some? && t.workspaces.Some?
  {
  }

  lemma LinksRightWhenDone(a: Tables, b: Tables)
    requires Kept(a, b, true) && ShapeAt(b, 8)
    ensures b.sessions.Some? && b.workspaces.Some?
    ensures a.sessions.Some? && !a.sessions.value.hasWorkspaceId ==> Linked(b.sessions.value, b.workspaces.value)
  {
    hide GoodIds, Linked, SessionsKept, WorkspacesKept;
    DoneTables(b);
    if a.sessions.Some? && !a.sessions.value.hasWorkspaceId {
      LinksRight(a, b);
    }
  }

  /** The version at which a run cannot get past the missing `machines` table. */
  ghost predicate Stuck(versions: seq<int>, t: Tables) {
    Stored(versions) == 4 && t.machines.None?
  }

  // ----------------------------------------------------------- the modes of version 4

  /** Mode of the session with the same key, or the default. */
  function SessionMode(sessions: Option<SessionTable>, k: Key): string {
    if sessions.Some? && k in sessions.value.rows then sessions.value.rows[k].mode else GRACE_PERIOD
  }

  /** After the ALTER, which gives every machine the default. */
  function Altered(m: WorkspaceTable): WorkspaceTable {
    m.(hasMode := true, rows := map k | k in m.rows :: m.rows[k].(mode := GRACE_PERIOD))
  }

  /** What the UPDATE does. */
  function Updated(m: WorkspaceTable, sessions: Option<SessionTable>): WorkspaceTable {
    m.(rows := map k | k in m.rows :: m.rows[k].(mode := SessionMode(sessions, k)))
  }

  lemma BothStatements(m: WorkspaceTable, sessions: Option<SessionTable>)
    requires !m.hasMode
    ensures Updated(Altered(m), sessions) == Backfilled(m, sessions)
  {
    assert Updated(Altered(m), sessions).rows == Backfilled(m, sessions).rows;
  }

  /** After the UPDATE, unless there was a mode already. */
  function Backfilled(m: WorkspaceTable, sessions: Option<SessionTable>): WorkspaceTable {
    if m.hasMode then m
    else m.(hasMode := true, rows := map k | k in m.rows :: m.rows[k].(mode := SessionMode(sessions, k)))
  }

  /** Every workspace has the mode it had, or, if there were no modes, that of the session with its key. */
  ghost predicate ModesFrom(a: Tables, b: Tables) {
    Live(a).Some? && Live(b).Some? && Live(b).value.rows.Keys == Live(a).value.rows.Keys && Live(b).value.hasMode &&
    forall k :: k in Live(b).value.rows ==>
      Live(b).value.rows[k].mode ==
      if Live(a).value.hasMode then Live(a).value.rows[k].mode
      else if a.sessions.Some? && k in a.sessions.value.rows then a.sessions.value.rows[k].mode
      else "grace-period"
  }

  lemma ModesKept(a: Tables, b: Tables, c: Tables, keep: bool)
    requires ModesFrom(a, b) && Kept(b, c, keep)
    ensures ModesFrom(a, c) && (b.workspaces.Some? ==> c.workspaces.Some?)
  {
    hide SessionsKept;
  }

  /** The usual database of version 4. */
  predicate Unrenamed(t: Tables) {
    t.machines.Some? && t.workspaces.None?
  }

  /** How far n statements take a run from version 4: 1 is past the ALTER, 2 past the UPDATE, 3 past the rename. */
  function Reach(t: Tables, n: nat): nat
    requires Unrenamed(t)
  {
    if t.machines.value.hasMode then n + 2 else n
  }

  /** The rename is done and the modes are right. */
  ghost predicate Moved(a: Tables, b: Tables) {
    b.machines.None? && b.workspaces.Some? && ModesFrom(a, b)
  }

  /** What a run from version 4 leaves that dies after n statements. */
  ghost predicate DiedAfter(a: Tables, n: nat, b: Tables)
    requires Unrenamed(a)
  {
    match Reach(a, n)
    case 0 => b == a
    case 1 => b == a.(machines := Some(Altered(a.machines.value)))
    case 2 => b == a.(machines := Some(Backfilled(a.machines.value, a.sessions)))
    case _ => Moved(a, b)
  }

  /** A run from version 4 that has reached the given version. */
  ghost predicate OnTheWay(a: Tables, lifeBefore: Option<nat>, version: int, b: Tables, life: Option<nat>)
    requires Unrenamed(a)
  {
    if version == 4 then b == a && life == lifeBefore
    else if version == 5 then
      b == a.(machines := Some(Backfilled(a.machines.value, a.sessions))) &&
      (lifeBefore.None? ==> life.None?) &&
      (lifeBefore.Some? ==> Reach(a, lifeBefore.value) >= 2 && life == Some(Reach(a, lifeBefore.value) - 2))
    else Moved(a, b) && (lifeBefore.Some? ==> Reach(a, lifeBefore.value) >= 4)
  }

  /** What one version's step does on that way. */
  ghost predicate WayStep(version: int, a: Tables, life: Option<nat>, o: Outcome, b: Tables, lifeAfter: Option<nat>) {
    match version
    case 4 =>
      Unrenamed(a) ==>
        if life.Some? && Reach(a, life.value) < 2 then o == Crashed && DiedAfter(a, life.value, b)
        else
          o == Done && b == a.(machines := Some(Backfilled(a.machines.value, a.sessions))) &&
          lifeAfter == if life.None? then None else Some(Reach(a, life.value) - 2)
    case 5 =>
      Unrenamed(a) ==>
        if life == Some(0) then o == Crashed && b == a
        else b.machines.None? && b.workspaces.Some? && (life == Some(1) ==> o == Crashed)
    case _ => b.machines == a.machines
  }

  lemma LaterStep(version: int, a: Tables, life: Option<nat>, o: Outcome, b: Tables, lifeAfter: Option<nat>)
    requires version > 5 && b.machines == a.machines
    ensures WayStep(version, a, life, o, b, lifeAfter)
  {
  }

  lemma FourModes(a: Tables)
    requires ShapeAt(a, 4) && a.machines.Some?
    ensures ModesFrom(a, a.(machines := Some(Backfilled(a.machines.value, a.sessions))))
  {
  }

  lemma OnTheWayFirst(a: Tables, life: Option<nat>)
    requires Unrenamed(a)
    ensures OnTheWay(a, life, 4, a, life)
  {
  }

  lemma OnTheWayLast(a: Tables, lifeBefore: Option<nat>, b: Tables, life: Option<nat>)
    requires Unrenamed(a) && OnTheWay(a, lifeBefore, SCHEMA_VERSION, b, life)
    ensures lifeBefore.Some? ==> Reach(a, lifeBefore.value) > 3 && DiedAfter(a, lifeBefore.value, b)
  {
  }

  lemma BackfilledModes(a: Tables)
    requires Unrenamed(a)
    ensures ModesFrom(a, a.(machines := Some(Backfilled(a.machines.value, a.sessions))))
  {
  }

  lemma WayOn(a: Tables, lifeBefore: Option<nat>, version: int, b: Tables, life: Option<nat>,
              o: Outcome, next: int, c: Tables, lifeAfter: Option<nat>)
    requires Unrenamed(a) && 4 <= version < SCHEMA_VERSION && OnTheWay(a, lifeBefore, version, b, life)
    requires WayStep(version, b, life, o, c, lifeAfter) && Kept(b, c, true) && (o == Crashed ==> lifeBefore.Some?)
    requires o == Done ==> next == version + 1
    ensures o == Done ==> OnTheWay(a, lifeBefore, next, c, lifeAfter)
    ensures o == Crashed ==> DiedAfter(a, lifeBefore.value, c)
    ensures lifeBefore.Some? && Reach(a, lifeBefore.value) <= 3 && version >= 5 ==> o == Crashed
  {
    hide Kept, ModesFrom;
    BackfilledModes(a);
    if version >= 5 {
      ModesKept(a, b, c, true);
    }
  }

  // ----------------------------------------------------------------- the database

  class Database {
    var versions: seq<int>
    var sessions: Option<SessionTable>
    var machines: Option<WorkspaceTable>
    var workspaces: Option<WorkspaceTable>
    var minted: nat
    var life: Option<nat>  // statements the process will still survive; None for a process that does not die

    constructor (versions: seq<int>, t: Tables)
      ensures this.versions == versions && All() == t && minted == 0 && life == None
    {
      this.versions := versions;
      sessions, machines, workspaces := t.sessions, t.machines, t.workspaces;
      minted, life := 0, None;
    }

    function All(): Tables
      reads this
    {
      Tables(sessions, machines, workspaces)
    }

    /** Called before every writing statement. */
    method Dies() returns (dead: bool)
      modifies this`life
      ensures dead <==> old(life) == Some(0)
      ensures life == if dead || old(life).None? then old(life) else Some(old(life).value - 1)
    {
      if life == Some(0) {
        return true;
      }
      if life.Some? {
        life := Some(life.value - 1);
      }
      return false;
    }

    method NewId() returns (id: string)
      modifies this`minted
      ensures id == Uuid(old(minted)) && minted == old(minted) + 1
    {
      id := Uuid(minted);
      minted := minted + 1;
    }

    /** One UPDATE per row; the ids are lost again if the process dies before the transaction ends. */
    method BackfillIds(keys: set<Key>) returns (o: Outcome, ids: map<Key, Option<string>>)
      modifies this`minted, this`life
      ensures o != Failed && (o == Crashed ==> old(life).Some?) && life.None? == old(life).None?
      ensures o == Done ==> ids.Keys == keys && GoodIds(ids)
    {
      ids := map[];
      ghost var start := minted;
      var todo := keys;
      while todo != {}
        invariant todo <= keys && ids.Keys == keys - todo && start <= minted
        invariant life.None? == old(life).None?
        invariant forall k :: k in ids ==> ids[k].Some? && 0 < |ids[k].value| <= minted
        invariant forall k, l :: k in ids && l in ids && k != l ==> ids[k] != ids[l]
        decreases todo
      {
        var k :| k in todo;
        var id := NewId();
        var dead := Dies();
        if dead {
          return Crashed, ids;
        }
        ids := ids[k := Some(id)];
        todo := todo - {k};
      }
      return Done, ids;
    }

    method EnsureSessionsTable() returns (o: Outcome)
      requires sessions.Some? ==> FullSessions(sessions.value)
      modifies this`sessions, this`life
      ensures o != Failed && (o == Crashed ==> old(life).Some?) && life.None? == old(life).None?
      ensures sessions.Some? ==> FullSessions(sessions.value)
      ensures sessions == old(sessions) || (sessions.Some? &&
              sessions.value.rows == if old(sessions).Some? then old(sessions).value.rows else map[])
      ensures old(sessions).Some? ==> sessions.Some?
      ensures o == Done ==> sessions.Some? && sessions.value.idIndex
    {
      var dead := Dies();
      if dead { return Crashed; }
      if sessions.None? {
        sessions := Some(SessionTable(map[], true, true, false));
      }
      dead := Dies();
      if dead { return Crashed; }
      if !sessions.value.idIndex {
        sessions := Some(sessions.value.(idIndex := true));
        assert SessionIds(sessions.value) == map k | k in sessions.value.rows :: sessions.value.rows[k].id;
      }
      return Done;
    }

    method EnsureWorkspacesTable() returns (o: Outcome)
      requires workspaces.Some? ==> FullWorkspaces(workspaces.value)
      modifies this`workspaces, this`life
      ensures o != Failed && (o == Crashed ==> old(life).Some?) && life.None? == old(life).None?
      ensures workspaces.Some? ==> FullWorkspaces(workspaces.value)
      ensures workspaces == old(workspaces) || (workspaces.Some? &&
              workspaces.value.rows == if old(workspaces).Some? then old(workspaces).value.rows else map[])
      ensures old(workspaces).Some? ==> workspaces.Some?
      ensures o == Done ==> workspaces.Some? && workspaces.value.idIndex
    {
      var dead := Dies();
      if dead { return Crashed; }
      if workspaces.None? {
        workspaces := Some(WorkspaceTable(map[], true, true, true, true, false));
      }
      dead := Dies();
      if dead { return Crashed; }
      if !workspaces.value.idIndex {
        workspaces := Some(workspaces.value.(idIndex := true));
        assert WorkspaceIds(workspaces.value) == map k | k in workspaces.value.rows :: workspaces.value.rows[k].id;
      }
      return Done;
    }

    /** Version 0: a new database, or one whose version row was lost between the delete and the insert. */
    method CreateTables() returns (o: Outcome)
      requires ShapeAt(All(), 0)
      modifies this`sessions, this`workspaces, this`life
      ensures o != Failed && (o == Crashed ==> old(life).Some?) && life.None? == old(life).None?
      ensures ShapeAt(All(), 0) && Kept(old(All()), All(), true)
      ensures o == Done ==> ShapeAt(All(), 7)
    {
      o := EnsureSessionsTable();
      if o != Done { return; }
      o := EnsureWorkspacesTable();
    }

    /** Versions 1 and 2: sessions are dropped and the table is created anew. */
    method RecreateSessions(ghost stored: int) returns (o: Outcome)
      requires 1 <= stored <= 2 && ShapeAt(All(), stored)
      modifies this`sessions, this`life
      ensures o != Failed && (o == Crashed ==> old(life).Some?) && life.None? == old(life).None?
      ensures ShapeAt(All(), stored) && Kept(old(All()), All(), false)
      ensures o == Done ==> ShapeAt(All(), 3)
    {
      var dead := Dies();
      if dead { return Crashed; }
      sessions := None;
      o := EnsureSessionsTable();
    }

    /** Version 3: the table of version 4 is created, even if a run that died had already renamed it. */
    method EnsureMachinesTable(ghost stored: int) returns (o: Outcome)
      requires 1 <= stored <= 3 && ShapeAt(All(), stored) && ShapeAt(All(), 3)
      modifies this`machines, this`life
      ensures o != Failed && (o == Crashed ==> old(life).Some?) && life.None? == old(life).None?
      ensures ShapeAt(All(), stored) && Kept(old(All()), All(), true)
      ensures o == Done ==> ShapeAt(All(), 4) && machines.Some?
    {
      var dead := Dies();
      if dead { return Crashed; }
      if machines.None? {
        machines := Some(WorkspaceTable(map[], false, false, false, false, false));
      }
      return Done;
    }

    /** Version 4: two statements with no transaction around them, on a table that must exist. */
    method AddMode(ghost stored: int) returns (o: Outcome)
      requires 1 <= stored <= 4 && ShapeAt(All(), stored) && ShapeAt(All(), 4)
      modifies this`machines, this`life
      ensures o == Failed ==> old(machines).None?
      ensures old(machines).None? ==> o != Done && machines.None?
      ensures (o == Crashed ==> old(life).Some?) && life.None? == old(life).None?
      ensures ShapeAt(All(), stored) && Kept(old(All()), All(), true)
      ensures o == Done ==> ShapeAt(All(), 5)
      ensures WayStep(4, old(All()), old(life), o, All(), life)
      ensures o == Done && old(Live(All())).Some? ==> ModesFrom(old(All()), All())
    {
      hide ShapeAt, Kept, ModesFrom;
      ghost var start := All();
      KeptReflexive(start, true);
      MachinesShaped(start);
      var hasMode := machines.Some? && machines.value.hasMode;
      if !hasMode {
        var dead := Dies();
        if dead { return Crashed; }
        if machines.None? {
          return Failed;
        }
        machines := Some(Altered(machines.value));
        PutMachines(start, machines.value, stored);
        dead := Dies();
        if dead { return Crashed; }
        machines := Some(Updated(machines.value, sessions));
        BothStatements(start.machines.value, sessions);
        PutMachines(start, machines.value, stored);
      } else {
        FourIsFive(start);
      }
      FourModes(start);
      return Done;
    }

    method RenameMachines(ghost stored: int) returns (o: Outcome)
      requires 1 <= stored <= 5 && ShapeAt(All(), stored) && ShapeAt(All(), 5)
      modifies this`machines, this`workspaces, this`life
      ensures o != Failed && (o == Crashed ==> old(life).Some?) && life.None? == old(life).None?
      ensures ShapeAt(All(), stored) && ShapeAt(All(), 5) && Kept(old(All()), All(), true)
      ensures o == Done ==> workspaces.Some? && machines == if old(workspaces).None? then None else old(machines)
      ensures old(Unrenamed(All())) ==>
                if old(life) == Some(0) then o == Crashed && All() == old(All())
                else
                  o == Done && workspaces == old(machines) &&
                  life == if old(life).None? then None else Some(old(life).value - 1)
    {
      if workspaces.None? {
        var dead := Dies();
        if dead { return Crashed; }
        workspaces, machines := machines, None;
      }
      return Done;
    }

    /** One transaction: column, ids and index all land or none does. */
    method AddWorkspaceIds(ghost stored: int) returns (o: Outcome)
      requires 1 <= stored <= 5 && ShapeAt(All(), stored) && ShapeAt(All(), 5) && workspaces.Some?
      requires WorkspaceShape(workspaces.value)
      modifies this`workspaces, this`minted, this`life
      ensures o != Failed && (o == Crashed ==> old(life).Some?) && life.None? == old(life).None?
      ensures ShapeAt(All(), stored) && ShapeAt(All(), 5) && Kept(old(All()), All(), true)
      ensures workspaces.Some? && (o == Done ==> workspaces.value.hasId)
      ensures old(life) == Some(0) && !old(workspaces.value.hasId) ==> o == Crashed
    {
      hide GoodIds, ShapeAt, Kept, WorkspaceShape, WorkspacesKept;
      KeptReflexive(All(), true);
      if workspaces.value.hasId {
        return Done;
      }
      var dead := Dies();
      if dead { return Crashed; }
      var t := workspaces.value;
      var ids;
      o, ids := BackfillIds(t.rows.Keys);
      if o != Done { return; }
      dead := Dies();
      if dead { return Crashed; }
      WorkspaceIdsAdded(t, ids);
      t := WithWorkspaceIds(t, ids);
      PutWorkspaces(All(), t, stored);
      PutWorkspaces(All(), t, 5);
      dead := Dies();
      if dead { return Crashed; }
      workspaces := Some(t);
    }

    /** One transaction as well: the missing ones of the two columns, the ids, the links and the index. */
    method AddSessionIds(ghost stored: int) returns (o: Outcome)
      requires 1 <= stored <= 5 && ShapeAt(All(), stored) && ShapeAt(All(), 5)
      requires workspaces.Some? && workspaces.value.hasId
      modifies this`sessions, this`minted, this`life
      ensures o != Failed && (o == Crashed ==> old(life).Some?) && life.None? == old(life).None?
      ensures ShapeAt(All(), stored) && Kept(old(All()), All(), true)
      ensures o == Done ==> ShapeAt(All(), 6)
      ensures o == Done && !old(sessions).value.hasWorkspaceId ==>
                sessions.Some? && workspaces.Some? && Linked(sessions.value, workspaces.value)
    {
      hide GoodIds, SessionShape, WorkspaceShape, ShapeAt, Kept, Linked;
      KeptReflexive(All(), true);
      FiveGives(All());
      var hasId, hasWorkspaceId := sessions.value.hasId, sessions.value.hasWorkspaceId;
      if hasId && hasWorkspaceId {
        return Done;
      }
      var t := sessions.value;
      ghost var start, before := All(), All();
      var dead := false;
      if !hasId {
        dead := Dies();
        if dead { return Crashed; }
      }
      if !hasWorkspaceId {
        dead := Dies();
        if dead { return Crashed; }
      }
      if !hasId {
        var ids;
        o, ids := BackfillIds(t.rows.Keys);
        if o != Done { return; }
        SessionIdsAdded(before, ids);
        t := WithSessionIds(t, ids);
      }
      before := start.(sessions := Some(t));
      if !hasWorkspaceId {
        dead := Dies();
        if dead { return Crashed; }
        LinksAdded(before);
        t := WithLinks(t, workspaces);
        KeptTransitive(start, before, start.(sessions := Some(t)), true);
      }
      if !hasId {
        dead := Dies();
        if dead { return Crashed; }
      }
      dead := Dies();
      if dead { return Crashed; }
      PutSessions(start, t, stored);
      sessions := Some(t);
      return Done;
    }

    method MigrateV5toV6(ghost stored: int) returns (o: Outcome)
      requires 1 <= stored <= 5 && ShapeAt(All(), stored) && ShapeAt(All(), 5)
      modifies this`sessions, this`machines, this`workspaces, this`minted, this`life
      ensures o != Failed && (o == Crashed ==> old(life).Some?) && life.None? == old(life).None?
      ensures ShapeAt(All(), stored) && Kept(old(All()), All(), true)
      ensures o == Done ==> ShapeAt(All(), 6)
      ensures WayStep(5, old(All()), old(life), o, All(), life)
    {
      hide Kept;
      ghost var start := All();
      o := RenameMachines(stored);
      if o != Done { return; }
      ghost var renamed := All();
      o := AddWorkspaceIds(stored);
      KeptTransitive(start, renamed, All(), true);
      if o != Done { return; }
      ghost var numbered := All();
      o := AddSessionIds(stored);
      KeptTransitive(start, numbered, All(), true);
    }

    method MigrateV6toV7(ghost stored: int) returns (o: Outcome)
      requires 1 <= stored <= 6 && ShapeAt(All(), stored) && ShapeAt(All(), 6)
      modifies this`workspaces, this`life
      ensures o != Failed && (o == Crashed ==> old(life).Some?) && life.None? == old(life).None?
      ensures ShapeAt(All(), stored) && Kept(old(All()), All(), true)
      ensures o == Done ==> ShapeAt(All(), 7)
    {
      if workspaces.value.hasState {
        return Done;
      }
      var dead := Dies();
      if dead { return Crashed; }
      ColumnsAdded(workspaces.value);
      PutWorkspaces(All(), WithState(workspaces.value), stored);
      workspaces := Some(WithState(workspaces.value));
      return Done;
    }

    method MigrateV7toV8(ghost stored: int) returns (o: Outcome)
      requires 0 <= stored <= 7 && ShapeAt(All(), stored) && ShapeAt(All(), 7)
      modifies this`workspaces, this`life
      ensures o != Failed && (o == Crashed ==> old(life).Some?) && life.None? == old(life).None?
      ensures ShapeAt(All(), stored) && Kept(old(All()), All(), true)
      ensures o == Done ==> ShapeAt(All(), 8)
    {
      if workspaces.value.hasHead {
        return Done;
      }
      var dead := Dies();
      if dead { return Crashed; }
      ColumnsAdded(workspaces.value);
      PutWorkspaces(All(), WithHead(workspaces.value), stored);
      workspaces := Some(WithHead(workspaces.value));
      return Done;
    }

    /** Between the two statements the database has no version at all. */
    method ConsolidateSchemaVersion(version: int) returns (o: Outcome)
      modifies this`versions, this`life
      ensures o != Failed && (o == Crashed ==> old(life).Some?) && life.None? == old(life).None?
      ensures o == Done ==> versions == [version]
      ensures o == Crashed ==> versions == old(versions) || versions == []
    {
      var dead := Dies();
      if dead { return Crashed; }
      versions := [];
      dead := Dies();
      if dead { return Crashed; }
      versions := [version];
      return Done;
    }

    /** The case of the loop for one version. */
    method Advance(version: int, ghost stored: int) returns (o: Outcome, next: int)
      requires 0 <= version < SCHEMA_VERSION && (if stored == 0 then version in {0, 7} else 1 <= stored <= version)
      requires ShapeAt(All(), stored) && ShapeAt(All(), version)
      requires version in {1, 2} ==> version == stored
      modifies this`sessions, this`machines, this`workspaces, this`minted, this`life
      ensures o == Failed ==> version == 4 && old(machines).None?
      ensures version == 4 && old(machines).None? ==> o != Done && machines.None?
      ensures (o == Crashed ==> old(life).Some?) && life.None? == old(life).None?
      ensures ShapeAt(All(), stored) && Kept(old(All()), All(), version !in {1, 2})
      ensures version >= 4 ==> WayStep(version, old(All()), old(life), o, All(), life)
      ensures version == 4 && o == Done && old(Live(All())).Some? ==> ModesFrom(old(All()), All())
      ensures o == Done ==>
                ShapeAt(All(), next) && (next == 4 ==> machines.Some?) &&
                next == if version == 0 then 7 else if version <= 2 then 3 else version + 1
    {
      hide ShapeAt, Kept, WayStep, ModesFrom;
      ghost var start, lifeBefore := All(), life;
      match version {
        case 0 =>
          o := CreateTables();
          next := 7;
        case 1 | 2 =>
          o := RecreateSessions(stored);
          next := 3;
        case 3 =>
          o := EnsureMachinesTable(stored);
          next := 4;
        case 4 =>
          o := AddMode(stored);
          next := 5;
        case 5 =>
          o := MigrateV5toV6(stored);
          next := 6;
        case 6 =>
          o := MigrateV6toV7(stored);
          next := 7;
          LaterStep(6, start, lifeBefore, o, All(), life);
        case _ =>
          o := MigrateV7toV8(stored);
          next := 8;
          LaterStep(7, start, lifeBefore, o, All(), life);
      }
    }

    /**
     One run. It fails only where a database of version 4 has no `machines` table; wherever the
     process dies, the database stays one from which the next run can start.
     */
    method Migrate() returns (o: Outcome)
      requires WellShaped(versions, All())
      modifies this
      ensures o == Failed ==> old(Stuck(versions, All()))
      ensures old(Stuck(versions, All())) ==> o != Done && Stuck(versions, All())
      ensures (o == Crashed ==> old(life).Some?) && life.None? == old(life).None?
      ensures WellShaped(versions, All())
      ensures Stored(versions) == old(Stored(versions)) || Stored(versions) == 0 || Stored(versions) == SCHEMA_VERSION
      ensures Kept(old(All()), All(), old(Stored(versions)) !in {1, 2})
      ensures o == Done ==> Current(versions, All())
      ensures old(Stored(versions)) == 4 && o == Done ==> ModesFrom(old(All()), All())
      ensures old(Stored(versions)) == 4 && old(Unrenamed(All())) && old(life).Some? ==>
                (o == Crashed ==> DiedAfter(old(All()), old(life).value, All())) &&
                (Reach(old(All()), old(life).value) <= 3 ==> o == Crashed && versions == old(versions))
      ensures o == Crashed ==> versions == old(versions) || versions == []
    {
      hide ShapeAt, Kept, ModesFrom, OnTheWay, WayStep, DiedAfter;
      var version := Stored(versions);
      ghost var stored, start, keep, lifeBefore := version, All(), version !in {1, 2}, life;
      if Unrenamed(start) {
        OnTheWayFirst(start, life);
      }
      KeptReflexive(start, keep);
      while version < SCHEMA_VERSION
        invariant versions == old(versions) && life.None? == old(life).None?
        invariant 0 <= version <= SCHEMA_VERSION
        invariant if stored == 0 then version in {0, 7, 8} else stored <= version
        invariant version in {1, 2} ==> version == stored
        invariant ShapeAt(All(), stored) && ShapeAt(All(), version)
        invariant Kept(start, All(), keep)
        invariant version == stored ==> All() == start
        invariant version == 4 && stored != 4 ==> machines.Some?
        invariant Stuck(versions, start) ==> version == 4
        invariant stored == 4 && version > 4 && Live(start).Some? ==> ModesFrom(start, All())
        invariant stored == 4 && Unrenamed(start) ==> OnTheWay(start, lifeBefore, version, All(), life)
        decreases SCHEMA_VERSION - version
      {
        ghost var before, lifeHere := All(), life;
        var next;
        o, next := Advance(version, stored);
        if stored == 4 && Unrenamed(start) {
          if o == Crashed || o == Done {
            WayOn(start, lifeBefore, version, before, lifeHere, o, next, All(), life);
          }
        }
        if stored == 4 && version > 4 && Live(start).Some? {
          ModesKept(start, before, All(), true);
        }
        KeptWeaken(before, All());
        KeptTransitive(start, before, All(), keep);
        if o != Done { return; }
        version := next;
      }
      FullIsAnywhere(All());
      if stored == 4 && Unrenamed(start) {
        OnTheWayLast(start, lifeBefore, All(), life);
      }
      o := ConsolidateSchemaVersion(version);
    }
  }

  lemma KeptWeaken(a: Tables, b: Tables)
    ensures Kept(a, b, true) ==> Kept(a, b, false)
  {
  }

  /** Tables of version 8 are fine for a database that has lost its version row. */
  lemma FullIsAnywhere(t: Tables)
    requires ShapeAt(t, SCHEMA_VERSION)
    ensures ShapeAt(t, 0)
  {
  }

  // -------------------------------------------------------------- crash and restart

  /** Any number of runs, each dying after as many statements as the schedule says, then one that does not. */
  method Upgrade(db: Database, crashes: seq<nat>) returns (o: Outcome)
    requires WellShaped(db.versions, db.All()) && Stored(db.versions) != 4
    modifies db
    ensures o == Done && Current(db.versions, db.All())
    ensures Kept(old(db.All()), db.All(), old(Stored(db.versions)) !in {1, 2})
    ensures old(Stored(db.versions)) !in {1, 2} && old(db.sessions).Some? && !old(db.sessions).value.hasWorkspaceId ==>
              db.sessions.Some? && db.workspaces.Some? && Linked(db.sessions.value, db.workspaces.value)
  {
    hide ShapeAt, Kept, Linked;
    ghost var start, keep := db.All(), Stored(db.versions) !in {1, 2};
    KeptReflexive(start, keep);
    for i := 0 to |crashes|
      invariant WellShaped(db.versions, db.All()) && Stored(db.versions) != 4
      invariant keep ==> Stored(db.versions) !in {1, 2}
      invariant Kept(start, db.All(), keep)
    {
      ghost var before := db.All();
      db.life := Some(crashes[i]);
      o := db.Migrate();
      KeptWeaken(before, db.All());
      KeptTransitive(start, before, db.All(), keep);
    }
    ghost var before := db.All();
    db.life := None;
    o := db.Migrate();
    KeptWeaken(before, db.All());
    KeptTransitive(start, before, db.All(), keep);
    if keep {
      LinksRightWhenDone(start, db.All());
    }
  }

  /**
   From version 4 an uninterrupted run completes exactly if the `machines` table is there, and then every
   workspace has the mode it had or, if there were no modes, that of the session with its key.
   */
  method UpgradeFromFour(db: Database) returns (o: Outcome)
    requires WellShaped(db.versions, db.All()) && Stored(db.versions) == 4 && db.life == None
    modifies db
    ensures o == Done <==> old(db.machines).Some?
    ensures o == Done ==> Current(db.versions, db.All()) && ModesFrom(old(db.All()), db.All())
    ensures Kept(old(db.All()), db.All(), true)
    ensures o == Done && old(db.sessions).Some? && !old(db.sessions).value.hasWorkspaceId ==>
              db.sessions.Some? && db.workspaces.Some? && Linked(db.sessions.value, db.workspaces.value)
  {
    hide ShapeAt, Kept, ModesFrom, Linked;
    ghost var start := db.All();
    o := db.Migrate();
    if o == Done {
      LinksRightWhenDone(start, db.All());
    }
  }

  /** Once it is gone, no number of further runs, interrupted or not, gets past it. */
  method NeverRecovers(db: Database, crashes: seq<Option<nat>>) returns (done: bool)
    requires WellShaped(db.versions, db.All()) && Stuck(db.versions, db.All())
    modifies db
    ensures !done && Stuck(db.versions, db.All())
  {
    done := false;
    for i := 0 to |crashes|
      invariant !done && WellShaped(db.versions, db.All()) && Stuck(db.versions, db.All())
    {
      db.life := crashes[i];
      var o := db.Migrate();
      done := done || o == Done;
    }
  }

  /** No session of the machines has another mode than the default. */
  ghost predicate AllDefault(m: WorkspaceTable, sessions: Option<SessionTable>) {
    forall k :: k in m.rows && sessions.Some? && k in sessions.value.rows ==> sessions.value.rows[k].mode == "grace-period"
  }

  /** The ALTER alone gives the right modes exactly if all of them are the default. */
  lemma AlteredModes(a: Tables, b: Tables)
    requires Unrenamed(a) && !a.machines.value.hasMode && ModesFrom(a.(machines := Some(Altered(a.machines.value))), b)
    ensures ModesFrom(a, b) <==> AllDefault(a.machines.value, a.sessions)
    ensures Live(b).Some? && forall k :: k in a.machines.value.rows ==>
              k in Live(b).value.rows && Live(b).value.rows[k].mode == "grace-period"
  {
    forall k | k in a.machines.value.rows
      ensures Live(b).value.rows[k].mode == "grace-period"
    {
    }
  }

  lemma BackfilledAgain(a: Tables, b: Tables)
    requires Unrenamed(a) && ModesFrom(a.(machines := Some(Backfilled(a.machines.value, a.sessions))), b)
    ensures ModesFrom(a, b)
  {
  }

  /**
   A run from version 4 that dies after n statements, then one that does not. The second completes exactly if
   the first did not get to the rename, or got as far as giving up the version row; and the modes are then
   right exactly if the first did not die between the ALTER and the UPDATE, or all modes are the default.
   */
  method DieOnceFromFour(db: Database, n: nat) returns (first: Outcome, o: Outcome, ghost between: seq<int>)
    requires WellShaped(db.versions, db.All()) && Stored(db.versions) == 4 && Unrenamed(db.All())
    modifies db
    ensures Reach(old(db.All()), n) <= 3 ==> first == Crashed && between == old(db.versions)
    ensures o == Done <==> Reach(old(db.All()), n) <= 2 || between != old(db.versions)
    ensures o == Done ==>
              Current(db.versions, db.All()) &&
              (ModesFrom(old(db.All()), db.All()) <==>
               Reach(old(db.All()), n) != 1 ||
               AllDefault(old(db.machines).value, old(db.sessions)))
    ensures o == Done && Reach(old(db.All()), n) == 1 ==>
              db.workspaces.Some? && forall k :: k in old(db.machines).value.rows ==>
                k in db.workspaces.value.rows && db.workspaces.value.rows[k].mode == "grace-period"
  {
    hide ShapeAt, Kept, ModesFrom;
    ghost var start, reach := db.All(), Reach(db.All(), n);
    db.life := Some(n);
    first := db.Migrate();
    between := db.versions;
    ghost var mid := db.All();
    db.life := None;
    o := db.Migrate();
    if reach == 1 {
      AlteredModes(start, db.All());
      DoneTables(db.All());
    } else if reach == 2 {
      BackfilledAgain(start, db.All());
    } else if reach >= 3 && o == Done {
      ModesKept(start, mid, db.All(), Stored(between) !in {1, 2});
    }
  }

  /** A run from version 4 that dies right after the rename leaves a database that is stuck. */
  method DieAfterRename(db: Database) returns (o: Outcome)
    requires WellShaped(db.versions, db.All()) && Stored(db.versions) == 4 && Unrenamed(db.All())
    modifies db
    ensures o == Crashed && WellShaped(db.versions, db.All()) && Stuck(db.versions, db.All())
  {
    hide ShapeAt, Kept, ModesFrom;
    db.life := Some(if db.machines.value.hasMode then 1 else 3);
    o := db.Migrate();
  }

  method StuckExample() returns (db: Database)
    ensures fresh(db) && Stuck(db.versions, db.All())
  {
    var sessions := SessionTable(map[], false, false, false);
    var machines := WorkspaceTable(map[("ann", "box") := WorkspaceRow("", "", None, "", "")], false, false, false, false, false);
    db := new Database([4], Tables(Some(sessions), Some(machines), None));
    var o := DieAfterRename(db);
  }

  /** A run from version 4 that dies between its ALTER and its UPDATE costs a machine the mode of its session. */
  method DieBeforeBackfill(db: Database, k: Key) returns (o: Outcome)
    requires WellShaped(db.versions, db.All()) && Stored(db.versions) == 4 && Unrenamed(db.All())
    requires !db.machines.value.hasMode && k in db.machines.value.rows
    requires db.sessions.Some? && k in db.sessions.value.rows && db.sessions.value.rows[k].mode == "persistent"
    modifies db
    ensures o == Done && Current(db.versions, db.All())
    ensures db.workspaces.Some? && k in db.workspaces.value.rows && db.workspaces.value.rows[k].mode == "grace-period"
  {
    ghost var between;
    var first;
    first, o, between := DieOnceFromFour(db, 1);
  }
}
