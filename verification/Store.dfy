/**
 Session and workspace rows with the semantics of the in-memory store, except that an update of a missing
 row is skipped, as by the SQLite store, where the in-memory one reports an error; `UpdateConnections`
 reports it in both. The one statement that may fail by script is the insert of a session.
 */
module Store {
  import opened Options
  import opened Lists

  datatype Key = Key(user: string, project: string)

  datatype Status = Running | GracePeriod

  const PERSISTENT := "persistent"
  const DESTROY_ON_DISCONNECT := "destroy-on-disconnect"
  const GRACE_PERIOD := "grace-period"

  datatype Row = Row(
    id: nat, workspaceId: Option<nat>, user: string, project: string,
    containerId: string, containerName: string, image: string,
    status: Status, connections: nat, createdAt: int, graceExpiry: Option<int>, maxLifetime: int,
    networkId: string, serviceIds: string, mode: string)
  {
    function At(): Key {
      Key(user, project)
    }
  }

  datatype WorkspaceState = Active | Preserved

  datatype Workspace = Workspace(
    id: nat, user: string, name: string, project: string, branch: string, mode: string,
    createdAt: int, initialized: bool, state: WorkspaceState, headCommit: string)

  // -------------------------------------------------------------------- queries

  predicate GraceExpired(r: Row, now: int) {
    r.status == GracePeriod && r.graceExpiry.Some? && r.graceExpiry.value < now && r.mode != PERSISTENT
  }

  predicate LifetimeExpired(r: Row, now: int) {
    r.maxLifetime < now && r.mode != PERSISTENT
  }

  predicate StaleZero(r: Row) {
    r.connections == 0 && r.graceExpiry.None? && r.mode != PERSISTENT
  }

  /** A grace period is running exactly in a row with an expiry, and only without connections. */
  predicate GraceOk(r: Row) {
    (r.graceExpiry.Some? <==> r.status == GracePeriod) && (r.status == GracePeriod ==> r.connections == 0)
  }

  // ------------------------------------------------------------------- statements

  function Counting(connections: nat, delta: int): nat {
    if connections + delta < 0 then 0 else connections + delta
  }

  function Connected(rows: map<Key, Row>, k: Key, delta: int): map<Key, Row> {
    if k in rows then rows[k := rows[k].(connections := Counting(rows[k].connections, delta))] else rows
  }

  function Graced(rows: map<Key, Row>, k: Key, expiry: int): map<Key, Row> {
    if k in rows then rows[k := rows[k].(status := GracePeriod, graceExpiry := Some(expiry))] else rows
  }

  function Cancelled(rows: map<Key, Row>, k: Key): map<Key, Row> {
    if k in rows then rows[k := rows[k].(status := Running, graceExpiry := None)] else rows
  }

  function RowsOf(rows: map<Key, Row>, user: string): set<Key> {
    set k | k in rows && k.user == user
  }

  /** The user may not have another session; a limit of zero or less is none. */
  predicate Full(rows: map<Key, Row>, user: string, maxPerUser: int) {
    maxPerUser > 0 && |RowsOf(rows, user)| >= maxPerUser
  }

  class FakeStore {
    var sessions: map<Key, Row>
    var workspaces: map<Key, Workspace>
    var nextId: nat
    const refusals: nat -> bool  // the scripted outcome of the insert that would use this id: true for an error
    ghost var created: map<Key, nat>  // successful on_create runs of a workspace since its creation or last branch switch

    constructor (refusals: nat -> bool)
      ensures this.refusals == refusals
      ensures sessions == map[] && workspaces == map[] && created == map[] && nextId == 0
    {
      this.refusals := refusals;
      sessions, workspaces, created, nextId := map[], map[], map[], 0;
    }

    method CreateSession(row: Row) returns (stored: Option<Row>)
      modifies this`sessions, this`nextId
      ensures stored.None? <==> refusals(old(nextId)) || row.At() in old(sessions)
      ensures stored.None? ==> sessions == old(sessions)
      ensures stored.Some? ==> row.At() !in old(sessions) && sessions == old(sessions)[row.At() := stored.value]
      ensures stored.Some? ==>
                stored.value == row.(id := old(nextId), mode := if row.mode == "" then GRACE_PERIOD else row.mode)
      ensures nextId == old(nextId) + 1
    {
      var broken := refusals(nextId);
      var r := row.(id := nextId, mode := if row.mode == "" then GRACE_PERIOD else row.mode);
      nextId := nextId + 1;
      if broken || row.At() in sessions {
        return None;
      }
      sessions := sessions[row.At() := r];
      return Some(r);
    }

    function GetSession(k: Key): Option<Row>
      reads this`sessions
    {
      if k in sessions then Some(sessions[k]) else None
    }

    /** Never goes below zero; None if there is no such row. */
    method UpdateConnections(k: Key, delta: int) returns (count: Option<nat>)
      modifies this`sessions
      ensures count.None? <==> k !in old(sessions)
      ensures count.Some? ==> count.value == Counting(old(sessions)[k].connections, delta)
      ensures sessions == Connected(old(sessions), k, delta)
    {
      if k !in sessions {
        return None;
      }
      var n := sessions[k].connections + delta;
      if n < 0 {
        n := 0;
      }
      sessions := sessions[k := sessions[k].(connections := n)];
      return Some(n);
    }

    method SetGracePeriod(k: Key, expiry: int)
      modifies this`sessions
      ensures sessions == Graced(old(sessions), k, expiry)
    {
      if k in sessions {
        sessions := sessions[k := sessions[k].(status := GracePeriod, graceExpiry := Some(expiry))];
      }
    }

    method CancelGracePeriod(k: Key)
      modifies this`sessions
      ensures sessions == Cancelled(old(sessions), k)
    {
      if k in sessions {
        sessions := sessions[k := sessions[k].(status := Running, graceExpiry := None)];
      }
    }

    method DeleteSession(k: Key)
      modifies this`sessions
      ensures sessions == old(sessions) - {k}
    {
      sessions := sessions - {k};
    }

    function StaleZeroConnections(k: Key): Option<Row>
      reads this`sessions
    {
      if k in sessions && StaleZero(sessions[k]) then Some(sessions[k]) else None
    }

    /** Copies of the rows that satisfy the condition, each once, in some order. */
    method Query(condition: Row -> bool) returns (found: seq<Row>)
      requires forall k :: k in sessions ==> sessions[k].At() == k
      ensures NoDuplicates(found)
      ensures forall r :: r in found <==> r.At() in sessions && sessions[r.At()] == r && condition(r)
    {
      found := [];
      var todo := sessions.Keys;
      while todo != {}
        invariant todo <= sessions.Keys && NoDuplicates(found)
        invariant forall r :: r in found <==>
                    r.At() in sessions.Keys - todo && sessions[r.At()] == r && condition(r)
        decreases todo
      {
        var k :| k in todo;
        if condition(sessions[k]) {
          found := found + [sessions[k]];
        }
        todo := todo - {k};
      }
    }

    // ------------------------------------------------------------- workspaces

    method CreateWorkspace(w: Workspace) returns (stored: Option<Workspace>)
      modifies this`workspaces, this`nextId, this`created
      ensures stored.None? <==> Key(w.user, w.name) in old(workspaces)
      ensures stored.None? ==> workspaces == old(workspaces) && created == old(created)
      ensures stored.Some? ==>
                var k := Key(w.user, w.name);
                k !in old(workspaces) && stored.value == w.(id := old(nextId)) &&
                workspaces == old(workspaces)[k := stored.value] && created == old(created)[k := 0]
      ensures nextId == old(nextId) + 1
    {
      var k := Key(w.user, w.name);
      var copy := w.(id := nextId);
      nextId := nextId + 1;
      if k in workspaces {
        return None;
      }
      workspaces := workspaces[k := copy];
      created := created[k := 0];
      return Some(copy);
    }

    function GetWorkspace(k: Key): Option<Workspace>
      reads this`workspaces
    {
      if k in workspaces then Some(workspaces[k]) else None
    }

    /** The four updates of single columns. */
    method UpdateWorkspace(k: Key, change: Workspace -> Workspace)
      modifies this`workspaces
      ensures workspaces == if k in old(workspaces) then old(workspaces)[k := change(old(workspaces)[k])] else old(workspaces)
    {
      if k in workspaces {
        workspaces := workspaces[k := change(workspaces[k])];
      }
    }

    method DeleteWorkspace(k: Key)
      modifies this`workspaces
      ensures workspaces == old(workspaces) - {k}
    {
      workspaces := workspaces - {k};
    }
  }
}
