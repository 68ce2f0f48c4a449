/**
 Tearing sessions down, and the periodic cleanup pass. Failing removals are logged and skipped; the row
 is deleted whatever happens.
 */
module Cleanup {
  import opened Lists
  import opened ServiceIds
  import opened Runtime
  import opened Store
  import opened Books
  import opened World
  import opened Services

  /** How many calls a teardown makes, whatever they answer. */
  function TeardownCalls(row: Row): nat {
    1 + |Decode(row.serviceIds)| + if row.networkId == "" then 0 else 1
  }

  method DestroySession(store: FakeStore, rt: FakeRuntime, row: Row)
    requires rt.Valid()
    modifies store`sessions, rt
    ensures rt.Valid() && Destroyed(old(Snap(store, rt)), row, Snap(store, rt))
    ensures rt.calls == old(rt.calls) + TeardownCalls(row)
  {
    hide Shrunk, EngineOk, TrimSpace, Split, TrimAll, Matched, Justified;
    ghost var a := rt.State();
    ShrunkNothing(a);
    var ok := rt.RemoveContainer(row.containerName);
    ShrunkContainer(a, {}, {}, a, row.containerName, ok);
    ghost var refs := {row.containerName};
    assert {} + refs == refs;
    if row.serviceIds != "" {
      var parts := Split(row.serviceIds);
      TrimAllNothing(parts);
      assert ToSet(TrimAll(parts[..0])) == {};
      assert refs == {row.containerName} + ToSet(TrimAll(parts[..0]));
      for i := 0 to |parts|
        invariant store.sessions == old(store.sessions)
        invariant refs == {row.containerName} + ToSet(TrimAll(parts[..i]))
        invariant Shrunk(a, refs, {}, rt.State())
        invariant rt.calls == old(rt.calls) + 1 + |TrimAll(parts[..i])| && Justified(rt.botched, rt.faults, rt.calls)
      {
        var id := TrimSpace(parts[i]);
        TrimAllSnoc(parts, i);
        if id == "" {
          continue;
        }
        ghost var b := rt.State();
        ok := rt.RemoveContainer(id);
        ShrunkContainer(a, refs, {}, b, id, ok);
        refs := refs + {id};
      }
      assert parts[..|parts|] == parts;
    }
    assert refs == Refs(PrintOf(row));
    assert Shrunk(a, Refs(PrintOf(row)), {}, rt.State());
    if row.networkId != "" {
      ghost var b := rt.State();
      ok := rt.RemoveNetwork(row.networkId);
      ShrunkNetwork(a, refs, {}, b, row.networkId, ok);
      assert {} + {row.networkId} == Nets(row);
    }
    assert Shrunk(a, Refs(PrintOf(row)), Nets(row), rt.State());
    ShrunkOk(a, refs, Nets(row), rt.State());
    store.DeleteSession(row.At());
  }

  lemma TrimAllNothing(parts: seq<string>)
    ensures TrimAll(parts[..0]) == []
  {
  }

  // ------------------------------------------------------------- several sessions

  function AllRefs(rows: seq<Row>): set<string> {
    set r, ref | r in rows && ref in Refs(PrintOf(r)) :: ref
  }

  function AllNets(rows: seq<Row>): set<string> {
    set r, n | r in rows && n in Nets(r) :: n
  }

  function Keys(rows: seq<Row>): set<Key> {
    set r | r in rows :: r.At()
  }

  /** The calls of several teardowns. */
  function Teardowns(rows: seq<Row>): nat {
    if rows == [] then 0 else Teardowns(rows[..|rows| - 1]) + TeardownCalls(rows[|rows| - 1])
  }

  lemma TeardownsSnoc(rows: seq<Row>, i: nat)
    requires i < |rows|
    ensures Teardowns(rows[..i + 1]) == Teardowns(rows[..i]) + TeardownCalls(rows[i])
  {
    assert rows[..i + 1][..i] == rows[..i];
  }

  lemma {:induction false} TeardownsConcat(a: seq<Row>, b: seq<Row>)
    ensures Teardowns(a + b) == Teardowns(a) + Teardowns(b)
  {
    if b == [] {
      assert a + b == a;
    } else {
      hide TeardownCalls;
      var front := b[..|b| - 1];
      TeardownsConcat(a, front);
      assert (a + b)[..|a + b| - 1] == a + front;
    }
  }

  /** The rows are copies of different rows of the store. */
  ghost predicate Listed(rows: seq<Row>, sessions: map<Key, Row>) {
    NoDuplicates(rows) && forall r :: r in rows ==> r.At() in sessions && sessions[r.At()] == r
  }

  lemma AllSnoc(rows: seq<Row>, i: nat)
    requires i < |rows|
    ensures AllRefs(rows[..i + 1]) == AllRefs(rows[..i]) + Refs(PrintOf(rows[i]))
    ensures AllNets(rows[..i + 1]) == AllNets(rows[..i]) + Nets(rows[i])
    ensures Keys(rows[..i + 1]) == Keys(rows[..i]) + {rows[i].At()}
  {
    hide Refs, Nets, PrintOf;
    assert rows[..i + 1] == rows[..i] + [rows[i]];
  }

  lemma AllNothing(rows: seq<Row>)
    ensures AllRefs(rows[..0]) == {} && AllNets(rows[..0]) == {} && Keys(rows[..0]) == {}
  {
  }

  lemma StillThere(rows: seq<Row>, sessions: map<Key, Row>, i: nat)
    requires Listed(rows, sessions) && i < |rows|
    ensures rows[i].At() in sessions && rows[i].At() !in Keys(rows[..i])
  {
    assert rows[i] in rows;
    forall j | 0 <= j < i
      ensures rows[j].At() != rows[i].At()
    {
      assert rows[j] in rows;
    }
  }

  /** The first i of the listed sessions are gone. */
  ghost predicate Torn(w: World, rows: seq<Row>, i: nat, v: World)
    requires i <= |rows|
  {
    v.rows == w.rows - Keys(rows[..i]) && |v.rows| == |w.rows| - i &&
    v.workspaces == w.workspaces && v.created == w.created && v.nextId == w.nextId &&
    Shrunk(w.engine, AllRefs(rows[..i]), AllNets(rows[..i]), v.engine)
  }

  lemma TornStart(w: World, rows: seq<Row>)
    ensures Torn(w, rows, 0, w)
  {
    hide Shrunk;
    AllNothing(rows);
    ShrunkNothing(w.engine);
  }

  lemma OneRowLess(sessions: map<Key, Row>, gone: set<Key>, k: Key)
    requires k in sessions && k !in gone
    ensures k in sessions - gone && (sessions - gone)[k] == sessions[k]
    ensures sessions - gone - {k} == sessions - (gone + {k})
    ensures |sessions - (gone + {k})| == |sessions - gone| - 1
  {
    assert (sessions - gone).Keys == (sessions - (gone + {k})).Keys + {k};
  }

  lemma TornStep(w: World, rows: seq<Row>, i: nat, v: World, v': World)
    requires Listed(rows, w.rows) && i < |rows|
    requires Torn(w, rows, i, v) && Destroyed(v, rows[i], v')
    ensures Torn(w, rows, i + 1, v')
  {
    hide Shrunk, Refs, Nets, PrintOf, AllRefs, AllNets, Keys, NoDuplicates;
    StillThere(rows, w.rows, i);
    assert rows[i] in rows;
    AllSnoc(rows, i);
    OneRowLess(w.rows, Keys(rows[..i]), rows[i].At());
    ShrunkTwice(w.engine, AllRefs(rows[..i]), AllNets(rows[..i]), v.engine,
                Refs(PrintOf(rows[i])), Nets(rows[i]), v'.engine);
  }

  lemma NoTeardowns()
    ensures Teardowns([]) == 0
  {
  }

  /** Tears down every session of a list of copies; deleting a row succeeds, so all of them count. */
  method DestroyEach(store: FakeStore, rt: FakeRuntime, rows: seq<Row>) returns (destroyed: nat)
    requires rt.Valid() && Listed(rows, store.sessions)
    modifies store`sessions, rt
    ensures rt.Valid() && rt.calls == old(rt.calls) + Teardowns(rows)
    ensures destroyed == |rows| && Torn(old(Snap(store, rt)), rows, |rows|, Snap(store, rt))
  {
    hide Torn, Listed, EngineOk, Justified, Destroyed, TeardownCalls, Teardowns;
    ghost var w := Snap(store, rt);
    destroyed := 0;
    TornStart(w, rows);
    NoTeardowns();
    assert rows[..0] == [];
    for i := 0 to |rows|
      invariant rt.Valid() && rt.calls == old(rt.calls) + Teardowns(rows[..i])
      invariant destroyed == i && Torn(w, rows, i, Snap(store, rt))
    {
      ghost var v := Snap(store, rt);
      DestroySession(store, rt, rows[i]);
      TornStep(w, rows, i, v, Snap(store, rt));
      TeardownsSnoc(rows, i);
      destroyed := destroyed + 1;
    }
    assert rows[..|rows|] == rows;
  }

  // ------------------------------------------------------------------- the two expiries

  ghost predicate Reaped(w: World, expired: set<Key>, w': World) {
    w'.rows == w.rows - expired && w'.workspaces == w.workspaces && w'.created == w.created &&
    w'.nextId == w.nextId &&
    Shrunk(w.engine, RowRefs(w.rows, expired), RowNets(w.rows, expired), w'.engine)
  }

  /** The list holds exactly the rows with the given keys, each once. */
  ghost predicate Holds(list: seq<Row>, rows: map<Key, Row>, keys: set<Key>) {
    NoDuplicates(list) && keys <= rows.Keys && forall r :: r in list <==> r.At() in keys && rows[r.At()] == r
  }

  function RowRefs(rows: map<Key, Row>, keys: set<Key>): set<string> {
    set k, ref | k in keys && k in rows && ref in Refs(PrintOf(rows[k])) :: ref
  }

  function RowNets(rows: map<Key, Row>, keys: set<Key>): set<string> {
    set k, n | k in keys && k in rows && n in Nets(rows[k]) :: n
  }

  function GraceKeys(rows: map<Key, Row>, now: int): set<Key> {
    set k | k in rows && GraceExpired(rows[k], now)
  }

  function LifetimeKeys(rows: map<Key, Row>, now: int): set<Key> {
    set k | k in rows && LifetimeExpired(rows[k], now)
  }

  lemma FoundKeys(rows: map<Key, Row>, found: seq<Row>, keys: set<Key>)
    requires Keyed(rows) && keys <= rows.Keys
    requires forall r :: r in found <==> r.At() in keys && rows[r.At()] == r
    ensures Keys(found) == keys
    ensures AllRefs(found) == RowRefs(rows, keys) && AllNets(found) == RowNets(rows, keys)
  {
    hide Refs, Nets, PrintOf;
    assert forall k :: k in keys ==> rows[k] in found;
    forall ref | ref in RowRefs(rows, keys)
      ensures ref in AllRefs(found)
    {
      var k :| k in keys && k in rows && ref in Refs(PrintOf(rows[k]));
      assert rows[k] in found;
    }
    forall n | n in RowNets(rows, keys)
      ensures n in AllNets(found)
    {
      var k :| k in keys && k in rows && n in Nets(rows[k]);
      assert rows[k] in found;
    }
  }

  /** What tearing down all the rows that satisfy a condition amounts to. */
  lemma TornIsReaped(w: World, found: seq<Row>, keys: set<Key>, v: World)
    requires Keyed(w.rows) && keys <= w.rows.Keys
    requires forall r :: r in found <==> r.At() in keys && w.rows[r.At()] == r
    requires Torn(w, found, |found|, v)
    ensures Reaped(w, keys, v) && Keyed(v.rows) && |v.rows| == |w.rows| - |found| && |found| == |keys|
  {
    hide Shrunk, AllRefs, AllNets, Keys, RowRefs, RowNets;
    FoundKeys(w.rows, found, keys);
    RowsLeft(w.rows, keys);
    assert found[..|found|] == found;
  }

  lemma RowsLeft(rows: map<Key, Row>, keys: set<Key>)
    requires keys <= rows.Keys
    ensures |rows - keys| == |rows| - |keys|
  {
    assert rows.Keys == (rows - keys).Keys + keys;
  }

  method ExpireGracePeriods(store: FakeStore, rt: FakeRuntime, now: int) returns (destroyed: nat, ghost gone: seq<Row>)
    requires rt.Valid() && Keyed(store.sessions)
    modifies store`sessions, rt
    ensures rt.Valid() && rt.calls == old(rt.calls) + Teardowns(gone)
    ensures Keyed(store.sessions) && Holds(gone, old(store.sessions), GraceKeys(old(store.sessions), now))
    ensures Reaped(old(Snap(store, rt)), GraceKeys(old(store.sessions), now), Snap(store, rt))
    ensures |store.sessions| == |old(store.sessions)| - destroyed && destroyed == |GraceKeys(old(store.sessions), now)|
  {
    hide EngineOk, Justified, Torn, Reaped, Teardowns;
    ghost var w := Snap(store, rt);
    var expired := store.Query(r => GraceExpired(r, now));
    destroyed := DestroyEach(store, rt, expired);
    gone := expired;
    TornIsReaped(w, expired, GraceKeys(w.rows, now), Snap(store, rt));
  }

  method EnforceMaxLifetimes(store: FakeStore, rt: FakeRuntime, now: int) returns (destroyed: nat, ghost gone: seq<Row>)
    requires rt.Valid() && Keyed(store.sessions)
    modifies store`sessions, rt
    ensures rt.Valid() && rt.calls == old(rt.calls) + Teardowns(gone)
    ensures Keyed(store.sessions) && Holds(gone, old(store.sessions), LifetimeKeys(old(store.sessions), now))
    ensures Reaped(old(Snap(store, rt)), LifetimeKeys(old(store.sessions), now), Snap(store, rt))
    ensures |store.sessions| == |old(store.sessions)| - destroyed && destroyed == |LifetimeKeys(old(store.sessions), now)|
  {
    hide EngineOk, Justified, Torn, Reaped, Teardowns;
    ghost var w := Snap(store, rt);
    var expired := store.Query(r => LifetimeExpired(r, now));
    destroyed := DestroyEach(store, rt, expired);
    gone := expired;
    TornIsReaped(w, expired, LifetimeKeys(w.rows, now), Snap(store, rt));
  }

  // ------------------------------------------------------------------------ orphans

  /** What spares a container from orphan removal, whether it matches the container's name or its id. */
  function TrackedBy(rows: map<Key, Row>): set<string> {
    set k, t | k in rows && t in {rows[k].containerName} + Tracked(rows[k].serviceIds) :: t
  }

  function Orphans(e: Engine, tracked: set<string>): set<string> {
    set id | id in e.containers && e.containers[id] !in tracked && id !in tracked
  }

  method TrackedSet(rows: seq<Row>) returns (tracked: set<string>)
    ensures tracked == set r, t | r in rows && t in {r.containerName} + Tracked(r.serviceIds) :: t
  {
    hide Split, TrimSpace;
    tracked := {};
    for i := 0 to |rows|
      invariant tracked == set r, t | r in rows[..i] && t in {r.containerName} + Tracked(r.serviceIds) :: t
    {
      ghost var before := tracked;
      var r := rows[i];
      tracked := tracked + {r.containerName};
      if r.serviceIds != "" {
        var parts := Split(r.serviceIds);
        for j := 0 to |parts|
          invariant tracked == before + {r.containerName} + set part | part in parts[..j] :: TrimSpace(part)
        {
          assert parts[..j + 1] == parts[..j] + [parts[j]];
          tracked := tracked + {TrimSpace(parts[j])};
        }
        assert parts[..|parts|] == parts;
      }
      assert tracked == before + ({r.containerName} + Tracked(r.serviceIds));
      assert rows[..i + 1] == rows[..i] + [r];
    }
    assert rows[..|rows|] == rows;
  }

  lemma TrackedAll(rows: map<Key, Row>, found: seq<Row>)
    requires Keyed(rows) && forall r :: r in found <==> r.At() in rows && rows[r.At()] == r
    ensures TrackedBy(rows) == set r, t | r in found && t in {r.containerName} + Tracked(r.serviceIds) :: t
  {
    hide Tracked;
    forall t | t in TrackedBy(rows)
      ensures exists r :: r in found && t in {r.containerName} + Tracked(r.serviceIds)
    {
      var k :| k in rows && t in {rows[k].containerName} + Tracked(rows[k].serviceIds);
      assert rows[k] in found;
    }
  }

  method TrackSessions(store: FakeStore) returns (tracked: set<string>)
    requires Keyed(store.sessions)
    ensures tracked == TrackedBy(store.sessions)
  {
    hide Tracked, TrackedBy;
    var sessions := store.Query(_ => true);
    tracked := TrackedSet(sessions);
    TrackedAll(store.sessions, sessions);
  }

  function Strays(list: seq<(string, string)>, tracked: set<string>): set<string> {
    set c | c in list && c.0 !in tracked && c.1 !in tracked :: c.0
  }

  lemma StraysSnoc(list: seq<(string, string)>, i: nat, tracked: set<string>)
    requires i < |list|
    ensures Strays(list[..i + 1], tracked) ==
            Strays(list[..i], tracked) + if list[i].0 in tracked || list[i].1 in tracked then {} else {list[i].0}
  {
    assert list[..i + 1] == list[..i] + [list[i]];
  }

  lemma NotBefore<T>(list: seq<T>, i: nat, x: T)
    requires NoDuplicates(list) && i < |list| && x in list[..i]
    ensures x != list[i] && x in list
  {
  }

  /** A listed container is still there when its turn comes, and removing it removes nothing else. */
  lemma StrayRemoved(a: Engine, list: seq<(string, string)>, i: nat, tracked: set<string>, b: Engine, ok: bool)
    requires EngineOk(a) && i < |list| && NoDuplicates(list)
    requires forall c :: c in list ==> c.0 in a.containers && a.containers[c.0] == c.1
    requires Shrunk(a, Strays(list[..i], tracked), {}, b)
    ensures var c := RemovedContainer(b, list[i].0, ok);
            |c.containers| == |b.containers| - if ok then 1 else 0
  {
    var id := list[i].0;
    assert list[i] in list;
    ShrunkOk(a, Strays(list[..i], tracked), {}, b);
    assert id in b.containers by {
      assert id !in Matched(a, Strays(list[..i], tracked)) by {
        forall c | c in list[..i]
          ensures c.0 != id
        {
          NotBefore(list, i, c);
        }
        forall s | s in Strays(list[..i], tracked)
          ensures s != a.containers[id]
        {
          var j :| 0 <= j < i && list[..i][j].0 == s;
          assert list[j] in list && MintedContainer(s, a.minted) && IsName(a.containers[id]);
        }
      }
    }
    hide EngineOk, Shrunk, Strays, NoDuplicates, Matched;
    MatchId(b, id);
    assert RemovedContainer(b, id, true).containers.Keys + {id} == b.containers.Keys;
  }

  /** The first i of the listed containers have had their turn; clear if every removal succeeded. */
  ghost predicate Swept(a: Engine, list: seq<(string, string)>, i: nat, tracked: set<string>, b: Engine, removed: int, clear: bool)
    requires i <= |list|
  {
    Shrunk(a, Strays(list[..i], tracked), {}, b) && |b.containers| == |a.containers| - removed &&
    (clear ==> b.containers.Keys !! Strays(list[..i], tracked))
  }

  ghost predicate ListOf(list: seq<(string, string)>, a: Engine) {
    NoDuplicates(list) && forall c :: c in list <==> c.0 in a.containers && a.containers[c.0] == c.1
  }

  lemma SweptStep(a: Engine, list: seq<(string, string)>, i: nat, tracked: set<string>, b: Engine, removed: int, clear: bool, ok: bool)
    requires EngineOk(a) && i < |list| && ListOf(list, a) && Swept(a, list, i, tracked, b, removed, clear)
    ensures list[i].0 in tracked || list[i].1 in tracked ==> Swept(a, list, i + 1, tracked, b, removed, clear)
    ensures list[i].0 !in tracked && list[i].1 !in tracked ==>
              Swept(a, list, i + 1, tracked, RemovedContainer(b, list[i].0, ok), removed + if ok then 1 else 0, clear && ok)
  {
    hide Shrunk, EngineOk, Matched, Strays, NoDuplicates;
    StraysSnoc(list, i, tracked);
    assert Strays(list[..i], tracked) + {} == Strays(list[..i], tracked);
    if list[i].0 !in tracked && list[i].1 !in tracked {
      ShrunkContainer(a, Strays(list[..i], tracked), {}, b, list[i].0, ok);
      StrayRemoved(a, list, i, tracked, b, ok);
      RemovalRemoves(b, list[i].0, ok);
    }
  }

  lemma SweptStart(a: Engine, list: seq<(string, string)>, tracked: set<string>)
    ensures Swept(a, list, 0, tracked, a, 0, true)
  {
    hide Shrunk;
    StraysNothing(list, tracked);
    ShrunkNothing(a);
  }

  lemma SweptEnd(a: Engine, list: seq<(string, string)>, tracked: set<string>, b: Engine, removed: int, clear: bool)
    requires EngineOk(a) && ListOf(list, a) && Swept(a, list, |list|, tracked, b, removed, clear)
    ensures Shrunk(a, Orphans(a, tracked), {}, b) && EngineOk(b) && |b.containers| == |a.containers| - removed
    ensures clear ==> Orphans(b, tracked) == {}
  {
    hide Shrunk, EngineOk, Matched, Strays, NoDuplicates;
    assert list[..|list|] == list;
    ListedOrphans(a, list, tracked);
    ShrunkOk(a, Strays(list, tracked), {}, b);
    NoOrphans(a, tracked, b);
  }

  /** Clear if every removal succeeded. */
  method RemoveUntracked(rt: FakeRuntime, list: seq<(string, string)>, tracked: set<string>) returns (removed: nat, ghost clear: bool)
    requires rt.Valid() && ListOf(list, rt.State())
    modifies rt
    ensures rt.calls >= old(rt.calls) && Justified(rt.botched, rt.faults, rt.calls)
    ensures Swept(old(rt.State()), list, |list|, tracked, rt.State(), removed, clear)
    ensures Quiet(rt.faults, old(rt.calls), rt.calls) ==> clear
  {
    hide EngineOk, ListOf, Swept, Justified;
    ghost var a := rt.State();
    removed, clear := 0, true;
    SweptStart(a, list, tracked);
    for i := 0 to |list|
      invariant rt.calls >= old(rt.calls) && Justified(rt.botched, rt.faults, rt.calls)
      invariant Swept(a, list, i, tracked, rt.State(), removed, clear)
      invariant Quiet(rt.faults, old(rt.calls), rt.calls) ==> clear
    {
      var c := list[i];
      if c.1 in tracked || c.0 in tracked {
        SweptStep(a, list, i, tracked, rt.State(), removed, clear, true);
        continue;
      }
      ghost var b := rt.State();
      var ok := rt.RemoveContainer(c.0);
      SweptStep(a, list, i, tracked, b, removed, clear, ok);
      clear := clear && ok;
      if !ok {
        continue;
      }
      removed := removed + 1;
    }
  }

  /** Removes what no row tracks; a container whose removal fails is left for the next pass. */
  method ReconcileOrphans(store: FakeStore, rt: FakeRuntime) returns (removed: nat)
    requires rt.Valid() && Keyed(store.sessions)
    modifies rt
    ensures rt.Valid() && rt.calls >= old(rt.calls)
    ensures var orphans := Orphans(old(rt.State()), TrackedBy(store.sessions));
            Shrunk(old(rt.State()), if old(rt.faults(rt.calls)) then {} else orphans, {}, rt.State())
    ensures |rt.containers| == |old(rt.containers)| - removed
    ensures Quiet(rt.faults, old(rt.calls), rt.calls) ==> Orphans(rt.State(), TrackedBy(store.sessions)) == {}
  {
    hide Shrunk, EngineOk, TrackedBy, NoDuplicates, Swept, Orphans, Justified;
    ghost var a := rt.State();
    removed := 0;
    ShrunkNothing(a);
    var containers := rt.ListContainers();
    if containers.None? {
      return;
    }
    var tracked := TrackSessions(store);
    ghost var clear;
    removed, clear := RemoveUntracked(rt, containers.value, tracked);
    SweptEnd(a, containers.value, tracked, rt.State(), removed, clear);
  }

  lemma StraysNothing(list: seq<(string, string)>, tracked: set<string>)
    ensures Strays(list[..0], tracked) == {}
  {
  }

  lemma RemovalRemoves(b: Engine, id: string, ok: bool)
    ensures var c := RemovedContainer(b, id, ok);
            (ok ==> id !in c.containers) && c.containers.Keys <= b.containers.Keys
  {
  }

  lemma ListedOrphans(a: Engine, list: seq<(string, string)>, tracked: set<string>)
    requires forall c :: c in list <==> c.0 in a.containers && a.containers[c.0] == c.1
    ensures Strays(list, tracked) == Orphans(a, tracked)
  {
    forall id | id in Orphans(a, tracked)
      ensures id in Strays(list, tracked)
    {
      assert (id, a.containers[id]) in list;
    }
  }

  lemma NoOrphans(a: Engine, tracked: set<string>, b: Engine)
    requires Shrunk(a, Orphans(a, tracked), {}, b)
    ensures b.containers.Keys !! Orphans(a, tracked) ==> Orphans(b, tracked) == {}
  {
    hide Matched;
  }

  // ------------------------------------------------------------------------ one pass

  function Expired(rows: map<Key, Row>, now: int): set<Key> {
    set k | k in rows && (GraceExpired(rows[k], now) || LifetimeExpired(rows[k], now))
  }

  /**
   The expired rows are gone, and nothing else; what they and the stray containers refer to was removed
   or, where that failed, given up; everything else is as it was.
   */
  ghost predicate Cleaned(w: World, now: int, strays: set<string>, w': World) {
    w'.rows == w.rows - Expired(w.rows, now) && w'.workspaces == w.workspaces && w'.created == w.created &&
    w'.nextId == w.nextId && strays <= Orphans(w.engine, TrackedBy(w'.rows)) &&
    Shrunk(w.engine, RowRefs(w.rows, Expired(w.rows, now)) + strays, RowNets(w.rows, Expired(w.rows, now)), w'.engine)
  }

  lemma BothExpiries(rows: map<Key, Row>, now: int)
    ensures var g := GraceKeys(rows, now);
            var l := LifetimeKeys(rows - g, now);
            g + l == Expired(rows, now) && rows - g - l == rows - Expired(rows, now) &&
            RowRefs(rows, g) + RowRefs(rows - g, l) == RowRefs(rows, Expired(rows, now)) &&
            RowNets(rows, g) + RowNets(rows - g, l) == RowNets(rows, Expired(rows, now))
  {
    hide Refs, Nets, PrintOf, GraceExpired, LifetimeExpired;
  }

  lemma FewerOrphans(a: Engine, refs: set<string>, nets: set<string>, b: Engine, tracked: set<string>)
    requires Shrunk(a, refs, nets, b)
    ensures Orphans(b, tracked) <= Orphans(a, tracked)
  {
    hide Matched;
  }

  lemma PassCleans(w: World, u: World, v: World, now: int, strays: set<string>, w': World)
    requires Keyed(w.rows) && Reaped(w, GraceKeys(w.rows, now), u) && Reaped(u, LifetimeKeys(u.rows, now), v)
    requires strays <= Orphans(v.engine, TrackedBy(v.rows))
    requires w' == v.(engine := w'.engine) && Shrunk(v.engine, strays, {}, w'.engine)
    ensures Cleaned(w, now, strays, w')
  {
    hide Shrunk, RowRefs, RowNets, TrackedBy, GraceKeys, LifetimeKeys, Orphans, Expired;
    BothExpiries(w.rows, now);
    var g, l := GraceKeys(w.rows, now), LifetimeKeys(u.rows, now);
    ShrunkTwice(w.engine, RowRefs(w.rows, g), RowNets(w.rows, g), u.engine, RowRefs(u.rows, l), RowNets(u.rows, l), v.engine);
    var refs, nets := RowRefs(w.rows, g) + RowRefs(u.rows, l), RowNets(w.rows, g) + RowNets(u.rows, l);
    FewerOrphans(w.engine, refs, nets, v.engine, TrackedBy(v.rows));
    ShrunkTwice(w.engine, refs, nets, v.engine, strays, {}, w'.engine);
    assert nets + {} == nets;
  }

  lemma HoldsBoth(w: World, u: World, now: int, graced: seq<Row>, expired: seq<Row>)
    requires Keyed(w.rows) && Reaped(w, GraceKeys(w.rows, now), u)
    requires Holds(graced, w.rows, GraceKeys(w.rows, now)) && Holds(expired, u.rows, LifetimeKeys(u.rows, now))
    ensures Holds(graced + expired, w.rows, Expired(w.rows, now))
  {
    hide GraceExpired, LifetimeExpired, Shrunk, RowRefs, RowNets;
    var both := graced + expired;
    forall i, j | 0 <= i < j < |both|
      ensures both[i] != both[j]
    {
      if i < |graced| <= j {
        assert graced[i] in graced && expired[j - |graced|] in expired;
      }
    }
  }

  /**
   One pass at a fixed time. Each removed row is counted once. The orphan step is made up of the calls after
   those of the teardowns. If none of its calls fails, every container that is left is tracked by a surviving
   row and, if the footprints were intact, the containers are exactly those of the surviving rows, even if
   removals in the teardowns failed.
   */
  method RunOnce(store: FakeStore, rt: FakeRuntime, now: int)
    returns (graced: nat, expired: nat, orphans: nat, ghost strays: set<string>, ghost reaped: seq<Row>)
    requires rt.Valid() && Keyed(store.sessions)
    modifies store`sessions, rt
    ensures rt.Valid() && Cleaned(old(Snap(store, rt)), now, strays, Snap(store, rt))
    ensures graced == |GraceKeys(old(store.sessions), now)|
    ensures graced + expired == |old(store.sessions)| - |store.sessions|
    ensures Holds(reaped, old(store.sessions), Expired(old(store.sessions), now))
    ensures old(rt.calls) + Teardowns(reaped) <= rt.calls
    ensures Quiet(rt.faults, old(rt.calls) + Teardowns(reaped), rt.calls) ==>
              Orphans(rt.State(), TrackedBy(store.sessions)) == {}
    ensures old(Intact(Snap(store, rt))) && Quiet(rt.faults, old(rt.calls) + Teardowns(reaped), rt.calls) ==>
              LeavesExactly(old(Snap(store, rt)), now, Snap(store, rt))
  {
    hide Shrunk, EngineOk, Justified, RowRefs, RowNets, TrackedBy, GraceKeys, LifetimeKeys, Orphans, Cleaned, Quiet, Expired,
      Holds, Teardowns, Intact, LeavesExactly, Reaped;
    ghost var w := Snap(store, rt);
    ghost var gone, late;
    graced, gone := ExpireGracePeriods(store, rt, now);
    ghost var u := Snap(store, rt);
    expired, late := EnforceMaxLifetimes(store, rt, now);
    ghost var v := Snap(store, rt);
    reaped := gone + late;
    TeardownsConcat(gone, late);
    HoldsBoth(w, u, now, gone, late);
    strays := if rt.faults(rt.calls) then {} else Orphans(rt.State(), TrackedBy(store.sessions));
    orphans := ReconcileOrphans(store, rt);
    PassCleans(w, u, v, now, strays, Snap(store, rt));
    if Intact(w) && Orphans(rt.State(), TrackedBy(store.sessions)) == {} {
      PassLeavesExactly(w, now, strays, Snap(store, rt));
    }
  }

  // ---------------------------------------------------------------- what a pass promises

  /** What an untouched row records is tracked. */
  lemma OwnedIsTracked(rows: map<Key, Row>, k: Key)
    requires k in rows
    ensures Refs(PrintOf(rows[k])) <= TrackedBy(rows)
  {
    hide Tracked, Decode;
    TrackedIsDecoded(rows[k].serviceIds);
    var r := rows[k];
    forall t | t in Refs(PrintOf(r))
      ensures t in TrackedBy(rows)
    {
      assert t in {r.containerName} + Tracked(r.serviceIds);
    }
  }

  lemma NotStray(p: Print, e: Engine, tracked: set<string>, id: string)
    requires EngineOk(e) && PrintOk(p, e) && Refs(p) <= tracked && id in Owned(p)
    ensures id !in Orphans(e, tracked) && e.containers[id] !in Orphans(e, tracked)
  {
    assert e.containers[p.main] == p.name;
    assert IsName(e.containers[id]);
    assert forall o :: o in Orphans(e, tracked) ==> MintedContainer(o, e.minted);
  }

  /** The rows have intact and disjoint footprints; containers that nothing records may exist as well. */
  ghost predicate Intact(w: World) {
    Keyed(w.rows) && EngineOk(w.engine) && PrintsOk(Prints(w.rows), w.engine)
  }

  lemma OtherUnmatched(w: World, k: Key, gone: set<Key>, id: string)
    requires Intact(w) && k in w.rows && k !in gone && id in Owned(PrintOf(w.rows[k]))
    ensures id !in Matched(w.engine, RowRefs(w.rows, gone))
  {
    hide Decode, EngineOk;
    var books := Prints(w.rows);
    PrintAt(books, w.engine, k);
    forall l | l in gone && l in w.rows
      ensures id !in Refs(PrintOf(w.rows[l])) && w.engine.containers[id] !in Refs(PrintOf(w.rows[l]))
    {
      PrintAt(books, w.engine, l);
      SeparateAt(books, w.engine, k, l);
      hide PrintsOk, Refs, Owned, PrintOf;
      RefsFindOwned(books[l], w.engine);
      assert id !in Matched(w.engine, Refs(books[l]));
    }
  }

  lemma NetUnmatched(w: World, k: Key, gone: set<Key>)
    requires Intact(w) && k in w.rows && k !in gone
    ensures PrintOf(w.rows[k]).net !in RowNets(w.rows, gone)
  {
    hide Decode, EngineOk, Owned, PrintOk;
    forall l | l in gone && l in w.rows
      ensures w.rows[k].networkId !in Nets(w.rows[l])
    {
      SeparateAt(Prints(w.rows), w.engine, k, l);
    }
  }

  lemma ShrunkKeepsPrint(p: Print, e: Engine, refs: set<string>, nets: set<string>, e': Engine)
    requires PrintOk(p, e) && Shrunk(e, refs, nets, e')
    requires Owned(p) !! Matched(e, refs) && p.net !in nets
    ensures PrintOk(p, e')
  {
    hide Matched;
    assert p.main in Owned(p);
  }

  /** Whatever fails during a pass, the surviving rows keep their containers and their network. */
  lemma SurvivorsKeepTheirs(w: World, now: int, strays: set<string>, w': World)
    requires Intact(w) && Cleaned(w, now, strays, w')
    ensures Intact(w')
  {
    hide Decode, Tracked, Shrunk, EngineOk, PrintOf, RowRefs, RowNets, Orphans, TrackedBy, Expired, Owned, Refs, PrintOk, Separate;
    var gone := Expired(w.rows, now);
    var refs, nets := RowRefs(w.rows, gone) + strays, RowNets(w.rows, gone);
    ShrunkOk(w.engine, refs, nets, w'.engine);
    forall k | k in w'.rows
      ensures PrintOk(PrintOf(w'.rows[k]), w'.engine)
    {
      var p := PrintOf(w.rows[k]);
      PrintAt(Prints(w.rows), w.engine, k);
      forall id | id in Owned(p)
        ensures id !in Matched(w.engine, refs)
      {
        OtherUnmatched(w, k, gone, id);
        SpareUnmatched(w, k, w'.rows, strays, id);
        MatchedUnion(w.engine, RowRefs(w.rows, gone), strays);
      }
      NetUnmatched(w, k, gone);
      ShrunkKeepsPrint(p, w.engine, refs, nets, w'.engine);
    }
    forall k, l | k in w'.rows && l in w'.rows && k != l
      ensures Separate(PrintOf(w'.rows[k]), PrintOf(w'.rows[l]))
    {
      SeparateAt(Prints(w.rows), w.engine, k, l);
    }
  }

  lemma MatchedUnion(e: Engine, r: set<string>, s: set<string>)
    ensures Matched(e, r + s) == Matched(e, r) + Matched(e, s)
  {
  }

  lemma SpareUnmatched(w: World, k: Key, rows: map<Key, Row>, strays: set<string>, id: string)
    requires EngineOk(w.engine) && k in w.rows && k in rows && rows[k] == w.rows[k]
    requires PrintOk(PrintOf(w.rows[k]), w.engine) && id in Owned(PrintOf(w.rows[k]))
    requires strays <= Orphans(w.engine, TrackedBy(rows))
    ensures id !in Matched(w.engine, strays)
  {
    hide Tracked, Decode, TrackedBy, Orphans, PrintOf, EngineOk;
    OwnedIsTracked(rows, k);
    NotStray(PrintOf(w.rows[k]), w.engine, TrackedBy(rows), id);
  }

  /** If no stray container is left, the containers are exactly those the rows record. */
  lemma NothingUntracked(w: World)
    requires Intact(w)
    ensures Orphans(w.engine, TrackedBy(w.rows)) == {} <==>
            forall id :: id in w.engine.containers <==> exists k :: k in w.rows && id in Owned(PrintOf(w.rows[k]))
  {
    hide Tracked, Decode, TrackedBy, Refs, EngineOk, PrintsOk;
    forall k, id | k in w.rows && id in Owned(PrintOf(w.rows[k]))
      ensures id in w.engine.containers && id !in Orphans(w.engine, TrackedBy(w.rows))
    {
      PrintAt(Prints(w.rows), w.engine, k);
      OwnedIsTracked(w.rows, k);
      NotStray(PrintOf(w.rows[k]), w.engine, TrackedBy(w.rows), id);
    }
    forall id | id in w.engine.containers && id !in Orphans(w.engine, TrackedBy(w.rows))
      ensures exists k :: k in w.rows && id in Owned(PrintOf(w.rows[k]))
    {
      var k := TrackedIsOwned(w, id);
    }
  }

  lemma TrackedIsOwned(w: World, id: string) returns (k: Key)
    requires Intact(w) && id in w.engine.containers && id !in Orphans(w.engine, TrackedBy(w.rows))
    ensures k in w.rows && id in Owned(PrintOf(w.rows[k]))
  {
    hide Tracked, Decode;
    var e := w.engine;
    assert IsName(e.containers[id]) && MintedContainer(id, e.minted);
    assert id in TrackedBy(w.rows) || e.containers[id] in TrackedBy(w.rows);
    k :| k in w.rows && (id in {w.rows[k].containerName} + Tracked(w.rows[k].serviceIds) ||
                         e.containers[id] in {w.rows[k].containerName} + Tracked(w.rows[k].serviceIds));
    PrintAt(Prints(w.rows), e, k);
    TrackedIsDecoded(w.rows[k].serviceIds);
    assert PrintOf(w.rows[k]).services == Tracked(w.rows[k].serviceIds) - {""};
    SparedIsOwned(PrintOf(w.rows[k]), e, id);
  }

  lemma SparedIsOwned(p: Print, e: Engine, id: string)
    requires EngineOk(e) && PrintOk(p, e) && id in e.containers
    requires id in Refs(p) || e.containers[id] in Refs(p)
    ensures id in Owned(p)
  {
    RefsFindOwned(p, e);
    assert id in Matched(e, Refs(p));
  }

  /** The containers are exactly those of the rows that had not expired, each of which has all of its own. */
  ghost predicate LeavesExactly(w: World, now: int, w': World) {
    (forall id :: id in w'.engine.containers <==>
                  exists k :: k in w.rows && k !in Expired(w.rows, now) && id in Owned(PrintOf(w.rows[k]))) &&
    (forall k :: k in w.rows && k !in Expired(w.rows, now) ==> PrintOk(PrintOf(w.rows[k]), w'.engine))
  }

  /** So it is after a pass that left no stray container. */
  lemma PassLeavesExactly(w: World, now: int, strays: set<string>, w': World)
    requires Intact(w) && Cleaned(w, now, strays, w') && Orphans(w'.engine, TrackedBy(w'.rows)) == {}
    ensures LeavesExactly(w, now, w')
  {
    hide Shrunk, EngineOk, PrintOf, RowRefs, RowNets, Orphans, TrackedBy, Expired, Owned, PrintOk, Separate;
    SurvivorsKeepTheirs(w, now, strays, w');
    NothingUntracked(w');
    forall k | k in w.rows && k !in Expired(w.rows, now)
      ensures PrintOk(PrintOf(w.rows[k]), w'.engine)
    {
      assert k in w'.rows && w'.rows[k] == w.rows[k];
      PrintAt(Prints(w'.rows), w'.engine, k);
    }
    forall id
      ensures id in w'.engine.containers <==>
              exists k :: k in w.rows && k !in Expired(w.rows, now) && id in Owned(PrintOf(w.rows[k]))
    {
      if id in w'.engine.containers {
        var k :| k in w'.rows && id in Owned(PrintOf(w'.rows[k]));
        assert k in w.rows && w'.rows[k] == w.rows[k];
      }
      if k :| k in w.rows && k !in Expired(w.rows, now) && id in Owned(PrintOf(w.rows[k])) {
        assert k in w'.rows && id in Owned(PrintOf(w'.rows[k]));
      }
    }
  }

  lemma AccountedAfter(w: World, gone: set<Key>, strays: set<string>, w': World)
    requires Intact(w) && Accounted(Prints(w.rows), w.engine) && w'.rows == w.rows - gone
    requires Shrunk(w.engine, RowRefs(w.rows, gone) + strays, RowNets(w.rows, gone), w'.engine)
    ensures Accounted(Prints(w'.rows), w'.engine)
  {
    hide Decode, EngineOk, PrintOk, Separate, Owned;
    var books, rest := Prints(w.rows), Prints(w'.rows);
    forall id | id in w'.engine.containers
      ensures ContainerAccounted(rest, w'.engine, id)
    {
      assert ContainerAccounted(books, w.engine, id);
      if id !in w.engine.abandoned {
        var k :| k in books && id in Owned(books[k]);
        if k in gone {
          GoneIsMatched(w, k, gone, id);
          MatchedUnion(w.engine, RowRefs(w.rows, gone), strays);
        } else {
          assert k in rest && id in Owned(rest[k]);
        }
      }
    }
    forall n | n in w'.engine.networks
      ensures NetworkAccounted(rest, w'.engine, n)
    {
      assert NetworkAccounted(books, w.engine, n);
      if n !in w.engine.abandonedNets {
        var k :| k in books && n == books[k].net;
        if k in gone {
          PrintAt(books, w.engine, k);
          NetNotEmpty(books[k], w.engine);
          assert n in Nets(w.rows[k]) && n in RowNets(w.rows, gone);
        } else {
          assert k in rest && n == rest[k].net;
        }
      }
    }
  }

  lemma GoneIsMatched(w: World, k: Key, gone: set<Key>, id: string)
    requires Intact(w) && k in w.rows && k in gone && id in Owned(PrintOf(w.rows[k]))
    ensures id in Matched(w.engine, RowRefs(w.rows, gone))
  {
    hide Decode, EngineOk, PrintOk, Separate, Owned, Refs, PrintOf;
    PrintAt(Prints(w.rows), w.engine, k);
    RefsFindOwned(PrintOf(w.rows[k]), w.engine);
    assert id in Matched(w.engine, Refs(PrintOf(w.rows[k])));
    assert forall ref :: ref in Refs(PrintOf(w.rows[k])) ==> ref in RowRefs(w.rows, gone);
  }

  /** A pass keeps the books balanced. */
  lemma PassConserves(w: World, now: int, strays: set<string>, w': World)
    requires Conserved(w) && Cleaned(w, now, strays, w')
    ensures Conserved(w')
  {
    hide Shrunk, EngineOk, PrintOf, RowRefs, RowNets, Orphans, TrackedBy, Expired, PrintsOk, Accounted;
    SurvivorsKeepTheirs(w, now, strays, w');
    AccountedAfter(w, Expired(w.rows, now), strays, w');
  }
}
