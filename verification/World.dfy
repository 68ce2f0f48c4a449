/**
 The state that all podspawn processes share, as one value, the effects a command can have on it, and
 the central invariant: the runtime holds exactly what the session rows record, apart from what the
 program has given up.
 */
module World {
  import opened Options
  import opened Lists
  import opened ServiceIds
  import opened Runtime
  import opened Store
  import opened Books

  datatype World = World(
    rows: map<Key, Row>, workspaces: map<Key, Workspace>, created: map<Key, nat>, nextId: nat, engine: Engine)

  ghost function Snap(store: FakeStore, rt: FakeRuntime): World
    reads store, rt
  {
    World(store.sessions, store.workspaces, store.created, store.nextId, rt.State())
  }

  ghost predicate Keyed(rows: map<Key, Row>) {
    forall k :: k in rows ==> rows[k].At() == k
  }

  function PrintOf(r: Row): Print {
    Print(r.containerId, r.containerName, ToSet(Decode(r.serviceIds)), r.networkId)
  }

  function Prints(rows: map<Key, Row>): map<Key, Print> {
    map k | k in rows :: PrintOf(rows[k])
  }

  ghost predicate Conserved(w: World) {
    Keyed(w.rows) && Balanced(Prints(w.rows), w.engine)
  }

  /** Apart from what was given up, a container exists exactly if some row records it; likewise a network. */
  lemma ConservedExactly(w: World)
    requires Conserved(w)
    ensures forall id :: id in w.engine.containers && id !in w.engine.abandoned <==>
                         exists k :: k in w.rows && id in Owned(PrintOf(w.rows[k]))
    ensures forall n :: n in w.engine.networks && n !in w.engine.abandonedNets <==>
                        exists k :: k in w.rows && n == w.rows[k].networkId
  {
    hide Balanced, Decode, Owned;
    var books := Prints(w.rows);
    BalancedExactly(books, w.engine);
    forall id
      ensures Recorded(books, id) <==> exists k :: k in w.rows && id in Owned(PrintOf(w.rows[k]))
    {
      if Recorded(books, id) {
        var k :| k in books && id in Owned(books[k]);
        assert k in w.rows;
      }
      if k :| k in w.rows && id in Owned(PrintOf(w.rows[k])) {
        assert k in books && id in Owned(books[k]);
      }
    }
    forall n
      ensures RecordedNet(books, n) <==> exists k :: k in w.rows && n == w.rows[k].networkId
    {
      if RecordedNet(books, n) {
        var k :| k in books && n == books[k].net;
        assert k in w.rows;
      }
      if k :| k in w.rows && n == w.rows[k].networkId {
        assert k in books && n == books[k].net;
      }
    }
  }

  /** And no container or network is recorded twice. */
  lemma ConservedDisjoint(w: World, k: Key, l: Key)
    requires Conserved(w) && k in w.rows && l in w.rows && k != l
    ensures Owned(PrintOf(w.rows[k])) !! Owned(PrintOf(w.rows[l]))
    ensures w.rows[k].networkId != w.rows[l].networkId
  {
    hide EngineOk, Decode, Owned;
    SeparateAt(Prints(w.rows), w.engine, k, l);
  }

  function Nets(r: Row): set<string> {
    if r.networkId == "" then {} else {r.networkId}
  }

  /** The row is deleted, and what it refers to removed or, where removing failed, given up. */
  ghost predicate Destroyed(w: World, row: Row, w': World) {
    w'.rows == w.rows - {row.At()} && w'.workspaces == w.workspaces && w'.created == w.created &&
    w'.nextId == w.nextId && Shrunk(w.engine, Refs(PrintOf(row)), Nets(row), w'.engine)
  }

  lemma DestroyKeeps(w: World, k: Key, w': World)
    requires Conserved(w) && k in w.rows && Destroyed(w, w.rows[k], w')
    ensures Conserved(w')
    ensures w'.engine.abandoned <= w.engine.abandoned + Owned(PrintOf(w.rows[k]))
  {
    hide Shrunk, EngineOk, Accounted, Decode, Owned, Refs;
    PrintAt(Prints(w.rows), w.engine, k);
    assert Nets(w.rows[k]) == {w.rows[k].networkId} by {
      NetNotEmpty(PrintOf(w.rows[k]), w.engine);
    }
    TearDown(Prints(w.rows), w.engine, k, w'.engine);
    assert Prints(w'.rows) == Prints(w.rows) - {k};
  }

  lemma NetNotEmpty(p: Print, e: Engine)
    requires EngineOk(e) && PrintOk(p, e)
    ensures p.net != ""
  {
    assert MintedNetwork(p.net, e.minted);
  }

  /** A new running row with everything it records, all of it fresh. */
  ghost predicate Provisioned(w: World, row: Row, w': World) {
    row.At() !in w.rows && w'.rows == w.rows[row.At() := row] && w'.workspaces == w.workspaces &&
    w'.created == w.created && w.nextId <= row.id < w'.nextId && Tidy(w.engine, w'.engine) &&
    EngineOk(w'.engine) && Building(w.engine, w'.engine, Owned(PrintOf(row)), {row.networkId}) &&
    row.containerId !in PrintOf(row).services &&
    row.containerId in w'.engine.containers && w'.engine.containers[row.containerId] == row.containerName &&
    row.status == Running && row.graceExpiry == None && row.connections == 1
  }

  lemma ProvisionKeeps(w: World, row: Row, w': World)
    requires Conserved(w) && Provisioned(w, row, w')
    ensures Conserved(w')
  {
    hide EngineOk, Building, PrintsOk, Accounted, Decode, Owned;
    SetUp(Prints(w.rows), w.engine, row.At(), PrintOf(row), w'.engine);
    assert Prints(w'.rows) == Prints(w.rows)[row.At() := PrintOf(row)];
  }

  /** Nothing but ids was used up, apart from what could not be removed. */
  ghost predicate Undone(w: World, w': World) {
    w'.rows == w.rows && w'.workspaces == w.workspaces && w'.created == w.created && w.nextId <= w'.nextId &&
    EngineOk(w'.engine) && Building(w.engine, w'.engine, {}, {})
  }

  lemma UndoKeeps(w: World, w': World)
    requires Conserved(w) && Undone(w, w')
    ensures Conserved(w')
  {
    hide EngineOk, Building, PrintsOk, Accounted;
    Undo(Prints(w.rows), w.engine, w'.engine);
  }

  /**
   All or nothing: if no removal failed and nothing was left behind, rows, containers and networks are as
   they were.
   */
  lemma UndoneExactly(w: World, w': World)
    requires EngineOk(w.engine) && Undone(w, w') && Tidy(w.engine, w'.engine)
    ensures w'.rows == w.rows && w'.workspaces == w.workspaces
    ensures w'.engine.containers == w.engine.containers && w'.engine.networks == w.engine.networks
  {
    hide EngineOk, Building;
    NothingLeft(w.engine, w'.engine);
  }

  /** Counters, status and workspaces are not part of the accounting. */
  ghost predicate SameFootprint(w: World, w': World) {
    w'.rows.Keys == w.rows.Keys && w'.engine == w.engine &&
    forall k :: k in w.rows ==> w'.rows[k].At() == w.rows[k].At() && PrintOf(w'.rows[k]) == PrintOf(w.rows[k])
  }

  lemma FootprintKeeps(w: World, w': World)
    requires Conserved(w) && SameFootprint(w, w')
    ensures Conserved(w')
  {
    hide Balanced, PrintOf;
    assert Prints(w'.rows) == Prints(w.rows);
  }
}
