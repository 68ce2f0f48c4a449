/**
 Attaching and detaching at the grain of single store statements. Any number of processes run at once; each
 takes the lock of its user, but rows are also deleted by commands and cleanup passes that take no lock, and
 a process may die at any point, which frees its lock.
 */
module Interleaving {
  import opened Options
  import opened Runtime
  import opened Store
  import opened World
  import opened Spawn

  /** What the mode and the grace period of a detaching client ask for. */
  datatype Policy = Keep | Destroy | StartGrace

  function PolicyOf(mode: string, gracePeriod: int): Policy {
    if mode == PERSISTENT then Keep
    else if mode == DESTROY_ON_DISCONNECT || gracePeriod == 0 then Destroy
    else StartGrace
  }

  datatype Operation = Attach | Detach(policy: Policy)

  /** The next statement of a process. */
  datatype Pc =
    | WantLock
    | FindStale
    | DropStale
    | FindExpired
    | DropExpired
    | Fetch
    | Probe(sess: Row)
    | DropGone
    | CancelGrace
    | Join
    | CheckCap
    | Insert
    | Leave
    | FetchLast
    | DropLast
    | SetGrace
    | Unlock
    | Finished

  datatype Process = Process(key: Key, operation: Operation, pc: Pc)

  datatype State = State(rows: map<Key, Row>, holder: map<string, nat>, processes: map<nat, Process>)

  /**
   A process starts, gets the lock, executes its next statement, or dies; or somebody deletes a row without
   the lock. `answer` is what the runtime or the database says to a statement, `row` what is to be inserted,
   `time` the clock or, when a grace period is set, its expiry.
   */
  datatype Action =
    | Start(p: nat, key: Key, operation: Operation)
    | Acquire(p: nat)
    | Statement(p: nat, time: int, answer: bool, row: Row)
    | Die(p: nat)
    | Delete(key: Key)

  /** The effect of one statement: the rows and where the process goes on. */
  function Execute(x: Process, rows: map<Key, Row>, max: int, time: int, answer: bool, row: Row): (map<Key, Row>, Pc) {
    var k := x.key;
    match x.pc
    case FindStale => (rows, if k in rows && StaleZero(rows[k]) then DropStale else FindExpired)
    case DropStale => (rows - {k}, FindExpired)
    case FindExpired =>
      (rows, if k in rows && rows[k].status == GracePeriod && rows[k].graceExpiry.Some? && rows[k].graceExpiry.value < time
             then DropExpired else Fetch)
    case DropExpired => (rows - {k}, Fetch)
    case Fetch => (rows, if k in rows then Probe(rows[k]) else CheckCap)
    case Probe(sess) => (rows, if answer then DropGone else if sess.status == GracePeriod then CancelGrace else Join)
    case DropGone => (rows - {k}, CheckCap)
    case CancelGrace => (Cancelled(rows, k), Join)
    case Join => (Connected(rows, k, 1), Unlock)
    case CheckCap => (rows, if Full(rows, k.user, max) then Unlock else Insert)
    case Insert => (if answer && k !in rows then rows[k := row] else rows, Unlock)
    case Leave =>
      (Connected(rows, k, -1),
       if k !in rows || Counting(rows[k].connections, -1) > 0 || x.operation == Attach || x.operation.policy == Keep then Unlock
       else if x.operation.policy == Destroy then FetchLast
       else SetGrace)
    case FetchLast => (rows, if k in rows then DropLast else Unlock)
    case DropLast => (rows - {k}, Unlock)
    case SetGrace => (Graced(rows, k, time), Unlock)
    case Unlock => (rows, Finished)
    case _ => (rows, x.pc)
  }

  predicate Critical(pc: Pc) {
    pc != WantLock && pc != Finished
  }

  ghost predicate Next(max: int, s: State, a: Action, s': State) {
    match a
    case Start(p, key, operation) =>
      p !in s.processes && s' == s.(processes := s.processes[p := Process(key, operation, WantLock)])
    case Acquire(p) =>
      p in s.processes && s.processes[p].pc == WantLock && s.processes[p].key.user !in s.holder &&
      var x := s.processes[p];
      s' == s.(holder := s.holder[x.key.user := p],
               processes := s.processes[p := x.(pc := if x.operation == Attach then FindStale else Leave)])
    case Statement(p, time, answer, row) =>
      p in s.processes && Critical(s.processes[p].pc) &&
      var x := s.processes[p];
      row.At() == x.key && row.status == Running && row.graceExpiry == None && row.connections == 1 &&
      var (rows, pc) := Execute(x, s.rows, max, time, answer, row);
      s' == State(rows, if x.pc == Unlock then s.holder - {x.key.user} else s.holder, s.processes[p := x.(pc := pc)])
    case Die(p) =>
      p in s.processes &&
      var x := s.processes[p];
      s' == s.(holder := if Critical(x.pc) then s.holder - {x.key.user} else s.holder, processes := s.processes - {p})
    case Delete(key) => s' == s.(rows := s.rows - {key})
  }

  // --------------------------------------------------------------------- invariants

  ghost predicate RowsOk(rows: map<Key, Row>) {
    forall k :: k in rows ==> GraceOk(rows[k])
  }

  ghost predicate CapOk(max: int, rows: map<Key, Row>) {
    max > 0 ==> forall user :: |RowsOf(rows, user)| <= max
  }

  /** What a process may rely on at its next statement, whatever the others do. */
  ghost predicate Relies(max: int, x: Process, rows: map<Key, Row>) {
    match x.pc
    case Probe(sess) => x.key in rows ==> rows[x.key] == sess
    case Join => x.key in rows ==> rows[x.key].status == Running
    case Insert => !Full(rows, x.key.user, max)
    case SetGrace => x.key in rows ==> rows[x.key].connections == 0
    case _ => true
  }

  ghost predicate ProcessOk(max: int, s: State, p: nat)
    requires p in s.processes
  {
    var x := s.processes[p];
    (Critical(x.pc) ==> x.key.user in s.holder && s.holder[x.key.user] == p) && Relies(max, x, s.rows)
  }

  ghost predicate ProcessesOk(max: int, s: State) {
    forall p :: p in s.processes ==> ProcessOk(max, s, p)
  }

  ghost predicate Inv(max: int, s: State) {
    RowsOk(s.rows) && CapOk(max, s.rows) && ProcessesOk(max, s)
  }

  /** The rows of a user are at most fewer. */
  ghost predicate Fewer(user: string, rows: map<Key, Row>, rows': map<Key, Row>) {
    forall k :: k in rows' && k.user == user ==> k in rows && rows'[k] == rows[k]
  }

  lemma Subset<T>(a: set<T>, b: set<T>)
    requires a <= b
    ensures |a| <= |b|
  {
    assert b == a + (b - a);
  }

  lemma FewerCount(user: string, rows: map<Key, Row>, rows': map<Key, Row>)
    requires Fewer(user, rows, rows')
    ensures |RowsOf(rows', user)| <= |RowsOf(rows, user)|
  {
    Subset(RowsOf(rows', user), RowsOf(rows, user));
  }

  lemma StillRelies(max: int, x: Process, rows: map<Key, Row>, rows': map<Key, Row>)
    requires Relies(max, x, rows) && Fewer(x.key.user, rows, rows')
    ensures Relies(max, x, rows')
  {
    FewerCount(x.key.user, rows, rows');
  }

  lemma OneMore(rows: map<Key, Row>, k: Key, row: Row)
    ensures |RowsOf(rows[k := row], k.user)| <= |RowsOf(rows, k.user)| + 1
    ensures k in rows ==> RowsOf(rows[k := row], k.user) == RowsOf(rows, k.user)
  {
    Subset(RowsOf(rows[k := row], k.user), RowsOf(rows, k.user) + {k});
  }

  /** One statement touches no rows of other users. */
  lemma OwnRowsOnly(x: Process, rows: map<Key, Row>, max: int, time: int, answer: bool, row: Row, user: string)
    requires user != x.key.user
    ensures Fewer(user, rows, Execute(x, rows, max, time, answer, row).0)
  {
  }

  /** Each statement keeps the rows in order, if what the process relies on holds. */
  lemma StatementKeepsRows(x: Process, rows: map<Key, Row>, max: int, time: int, answer: bool, row: Row)
    requires RowsOk(rows) && CapOk(max, rows) && Relies(max, x, rows)
    requires row.At() == x.key && row.status == Running && row.graceExpiry == None && row.connections == 1
    ensures var rows' := Execute(x, rows, max, time, answer, row).0; RowsOk(rows') && CapOk(max, rows')
  {
    var rows' := Execute(x, rows, max, time, answer, row).0;
    var user := x.key.user;
    OneMore(rows, x.key, row);
    forall u | max > 0
      ensures |RowsOf(rows', u)| <= max
    {
      if u != user {
        OwnRowsOnly(x, rows, max, time, answer, row, u);
        FewerCount(u, rows, rows');
      } else if x.key in rows' && x.key in rows {
        assert RowsOf(rows', u) == RowsOf(rows, u);
      } else if x.key !in rows' {
        FewerCount(u, rows, rows');
      }
    }
  }

  /** And leaves the process with what it relies on next. */
  lemma StatementKeepsReliance(x: Process, rows: map<Key, Row>, max: int, time: int, answer: bool, row: Row)
    requires RowsOk(rows) && Relies(max, x, rows)
    ensures var (rows', pc) := Execute(x, rows, max, time, answer, row); Relies(max, x.(pc := pc), rows')
  {
  }

  lemma NextKeeps(max: int, s: State, a: Action, s': State)
    requires Inv(max, s) && Next(max, s, a, s')
    ensures Inv(max, s')
  {
    match a
    case Start(p, key, operation) =>
      forall q | q in s'.processes
        ensures ProcessOk(max, s', q)
      {
        assert q != p ==> ProcessOk(max, s, q);
      }
    case Acquire(p) =>
      forall q | q in s'.processes
        ensures ProcessOk(max, s', q)
      {
        assert ProcessOk(max, s, q);
      }
    case Statement(p, time, answer, row) =>
      StatementKeeps(max, s, p, time, answer, row, s');
    case Die(p) =>
      forall q | q in s'.processes
        ensures ProcessOk(max, s', q)
      {
        assert ProcessOk(max, s, q) && ProcessOk(max, s, p);
      }
    case Delete(key) =>
      forall user
        ensures Fewer(user, s.rows, s'.rows) && (max > 0 ==> |RowsOf(s'.rows, user)| <= max)
      {
        FewerCount(user, s.rows, s'.rows);
      }
      forall q | q in s'.processes
        ensures ProcessOk(max, s', q)
      {
        assert ProcessOk(max, s, q);
        StillRelies(max, s.processes[q], s.rows, s'.rows);
      }
  }

  lemma StatementKeeps(max: int, s: State, p: nat, time: int, answer: bool, row: Row, s': State)
    requires Inv(max, s) && Next(max, s, Statement(p, time, answer, row), s')
    ensures Inv(max, s')
  {
    hide RowsOk, CapOk, Execute, Relies, GraceOk;
    var x := s.processes[p];
    assert ProcessOk(max, s, p);
    StatementKeepsRows(x, s.rows, max, time, answer, row);
    StatementKeepsReliance(x, s.rows, max, time, answer, row);
    UnlockFinishes(x, s.rows, max, time, answer, row);
    forall q | q in s'.processes
      ensures ProcessOk(max, s', q)
    {
      assert ProcessOk(max, s, q);
      if q != p {
        var y := s.processes[q];
        if y.key.user != x.key.user {
          OwnRowsOnly(x, s.rows, max, time, answer, row, y.key.user);
          StillRelies(max, y, s.rows, s'.rows);
        } else {
          Idle(max, y, s'.rows);
        }
      }
    }
  }

  lemma UnlockFinishes(x: Process, rows: map<Key, Row>, max: int, time: int, answer: bool, row: Row)
    ensures Critical(x.pc) && !Critical(Execute(x, rows, max, time, answer, row).1) ==> x.pc == Unlock
    ensures x.pc == Unlock ==> Execute(x, rows, max, time, answer, row).1 == Finished
  {
  }

  /** Outside its critical section a process relies on nothing. */
  lemma Idle(max: int, x: Process, rows: map<Key, Row>)
    requires !Critical(x.pc)
    ensures Relies(max, x, rows)
  {
  }

  // ---------------------------------------------------------------- every interleaving

  ghost predicate Interleaved(max: int, ss: seq<State>, actions: seq<Action>) {
    |ss| == |actions| + 1 && forall i :: 0 <= i < |actions| ==> Next(max, ss[i], actions[i], ss[i + 1])
  }

  const QUIET := State(map[], map[], map[])

  lemma {:induction false} InvHolds(max: int, ss: seq<State>, actions: seq<Action>, i: nat)
    requires Interleaved(max, ss, actions) && Inv(max, ss[0]) && i <= |actions|
    ensures Inv(max, ss[i])
  {
    hide Inv, Next;
    if i > 0 {
      InvHolds(max, ss, actions, i - 1);
      NextKeeps(max, ss[i - 1], actions[i - 1], ss[i]);
    }
  }

  /**
   After every single statement of every interleaving: a row has an expiry exactly if it is in its grace
   period, and then it has no connections.
   */
  lemma GraceAlwaysOk(max: int, ss: seq<State>, actions: seq<Action>, i: nat, k: Key)
    requires Interleaved(max, ss, actions) && ss[0] == QUIET && i <= |actions| && k in ss[i].rows
    ensures ss[i].rows[k].graceExpiry.Some? <==> ss[i].rows[k].status == GracePeriod
    ensures ss[i].rows[k].status == GracePeriod ==> ss[i].rows[k].connections == 0
  {
    hide Next;
    InvHolds(max, ss, actions, i);
    assert GraceOk(ss[i].rows[k]);
  }

  /** And no user has more sessions than allowed, if a limit is set. */
  lemma CapNeverExceeded(max: int, ss: seq<State>, actions: seq<Action>, i: nat, user: string)
    requires Interleaved(max, ss, actions) && ss[0] == QUIET && i <= |actions| && max > 0
    ensures |set k | k in ss[i].rows && k.user == user| <= max
  {
    hide Next;
    InvHolds(max, ss, actions, i);
    assert RowsOf(ss[i].rows, user) == set k | k in ss[i].rows && k.user == user;
  }

  /** At most one process of a user is between its lock and its unlock. */
  lemma Exclusion(max: int, ss: seq<State>, actions: seq<Action>, i: nat, p: nat, q: nat)
    requires Interleaved(max, ss, actions) && ss[0] == QUIET && i <= |actions|
    requires p in ss[i].processes && q in ss[i].processes
    requires Critical(ss[i].processes[p].pc) && Critical(ss[i].processes[q].pc)
    requires ss[i].processes[p].key.user == ss[i].processes[q].key.user
    ensures p == q
  {
    hide Next;
    InvHolds(max, ss, actions, i);
    assert ProcessOk(max, ss[i], p) && ProcessOk(max, ss[i], q);
  }

  // ------------------------------------------------- a process that is not interfered with

  function Rank(pc: Pc): nat {
    match pc
    case FindStale => 9
    case DropStale => 8
    case FindExpired => 7
    case DropExpired => 6
    case Fetch => 5
    case Probe(_) => 4
    case DropGone => 3
    case CheckCap => 2
    case Insert => 1
    case CancelGrace => 2
    case Join => 1
    case Leave => 3
    case FetchLast => 2
    case DropLast => 1
    case SetGrace => 1
    case _ => 0
  }

  /** The rows when the process unlocks, if nothing else happens since it has reached its statement. */
  function Alone(x: Process, rows: map<Key, Row>, max: int, time: int, gone: bool, inserted: bool, row: Row): map<Key, Row>
    decreases Rank(x.pc)
  {
    if Rank(x.pc) == 0 then rows
    else
      var (rows', pc) := Execute(x, rows, max, time, if x.pc.Probe? then gone else inserted, row);
      Alone(x.(pc := pc), rows', max, time, gone, inserted, row)
  }

  /** The rows after attaching as one command. */
  function AttachedRows(rows: map<Key, Row>, k: Key, max: int, now: int, gone: bool, inserted: bool, row: Row): map<Key, Row> {
    var reaped := if k in rows && Overdue(rows[k], now) then rows - {k} else rows;
    var settled := if k in reaped && gone then reaped - {k} else reaped;
    if k in settled then settled[k := Reattach(settled[k])]
    else if Full(settled, k.user, max) || !inserted then settled
    else settled[k := row]
  }

  /** The rows after detaching as one command. */
  function DetachedRows(rows: map<Key, Row>, k: Key, policy: Policy, expiry: int): map<Key, Row> {
    if k !in rows then rows
    else
      var row := Spawn.Detach(rows[k]);
      if row.connections > 0 || policy == Keep then rows[k := row]
      else if policy == Destroy then rows - {k}
      else rows[k := row.(status := GracePeriod, graceExpiry := Some(expiry))]
  }

  lemma AloneFromCap(k: Key, rows: map<Key, Row>, max: int, time: int, gone: bool, inserted: bool, row: Row)
    requires k !in rows
    ensures Alone(Process(k, Attach, CheckCap), rows, max, time, gone, inserted, row) ==
            if Full(rows, k.user, max) || !inserted then rows else rows[k := row]
  {
    var x := Process(k, Attach, CheckCap);
    assert Full(rows, k.user, max) ==> Alone(x.(pc := Unlock), rows, max, time, gone, inserted, row) == rows;
    assert Alone(x.(pc := Insert), rows, max, time, gone, inserted, row) == if inserted then rows[k := row] else rows;
  }

  lemma AloneFromFetch(k: Key, rows: map<Key, Row>, max: int, time: int, gone: bool, inserted: bool, row: Row)
    requires k in rows ==> !Overdue(rows[k], time)
    ensures Alone(Process(k, Attach, Fetch), rows, max, time, gone, inserted, row) ==
            AttachedRows(rows, k, max, time, gone, inserted, row)
  {
    var x := Process(k, Attach, Fetch);
    if k !in rows {
      AloneFromCap(k, rows, max, time, gone, inserted, row);
    } else {
      var probing := x.(pc := Probe(rows[k]));
      if gone {
        AloneFromCap(k, rows - {k}, max, time, gone, inserted, row);
        assert Alone(x.(pc := DropGone), rows, max, time, gone, inserted, row) ==
               Alone(x.(pc := CheckCap), rows - {k}, max, time, gone, inserted, row);
      } else {
        var joining := if rows[k].status == GracePeriod then Cancelled(rows, k) else rows;
        assert Alone(x.(pc := Join), joining, max, time, gone, inserted, row) == Connected(joining, k, 1);
        assert Alone(probing, rows, max, time, gone, inserted, row) == Connected(joining, k, 1);
        assert Connected(joining, k, 1) == rows[k := Reattach(rows[k])];
      }
    }
  }

  /** Statement by statement and undisturbed, attaching has the effect of the command. */
  lemma AttachAlone(k: Key, rows: map<Key, Row>, max: int, time: int, gone: bool, inserted: bool, row: Row)
    ensures Alone(Process(k, Attach, FindStale), rows, max, time, gone, inserted, row) ==
            AttachedRows(rows, k, max, time, gone, inserted, row)
  {
    var x := Process(k, Attach, FindStale);
    var less := rows - {k};
    AloneFromFetch(k, less, max, time, gone, inserted, row);
    if k in rows && StaleZero(rows[k]) {
      assert Alone(x.(pc := FindExpired), less, max, time, gone, inserted, row) ==
             Alone(x.(pc := Fetch), less, max, time, gone, inserted, row);
      assert Alone(x.(pc := DropStale), rows, max, time, gone, inserted, row) ==
             Alone(x.(pc := FindExpired), less, max, time, gone, inserted, row);
    } else if k in rows && Overdue(rows[k], time) {
      assert Alone(x.(pc := DropExpired), rows, max, time, gone, inserted, row) ==
             Alone(x.(pc := Fetch), less, max, time, gone, inserted, row);
    } else {
      AloneFromFetch(k, rows, max, time, gone, inserted, row);
      assert Alone(x.(pc := FindExpired), rows, max, time, gone, inserted, row) ==
             Alone(x.(pc := Fetch), rows, max, time, gone, inserted, row);
    }
  }

  /** And so has detaching. */
  lemma DetachAlone(k: Key, policy: Policy, rows: map<Key, Row>, max: int, time: int, gone: bool, inserted: bool, row: Row)
    ensures Alone(Process(k, Operation.Detach(policy), Leave), rows, max, time, gone, inserted, row) ==
            DetachedRows(rows, k, policy, time)
  {
    var x := Process(k, Operation.Detach(policy), Leave);
    if k in rows {
      var left := Connected(rows, k, -1);
      assert left[k] == Spawn.Detach(rows[k]);
      if policy == Destroy {
        assert Alone(x.(pc := FetchLast), left, max, time, gone, inserted, row) ==
               Alone(x.(pc := DropLast), left, max, time, gone, inserted, row);
        assert Alone(x.(pc := DropLast), left, max, time, gone, inserted, row) == left - {k};
      } else {
        assert Alone(x.(pc := SetGrace), left, max, time, gone, inserted, row) == Graced(left, k, time);
      }
    }
  }

  /** So the attach command does to the rows what its statements do when nobody interferes. */
  lemma AttachRefined(w: World, q: Request, s: Stages, r: Attachment, w': World) returns (gone: bool, inserted: bool, row: Row)
    requires Keyed(w.rows) && Reconciled(w, q.key, q.now, s.reaped) && Settled(s.reaped, q.key, s.told, s.settled)
    requires Attached(s.settled, q, r, w')
    ensures w'.rows == Alone(Process(q.key, Attach, FindStale), w.rows, q.maxPerUser, q.now, gone, inserted, row)
  {
    hide Alone, Building, EngineOk, Shrunk, Matched, PrintOf, StaleZero, Full, RowsOf;
    gone := s.settled.rows != s.reaped.rows;
    inserted := r == Created;
    if q.key in w'.rows {
      row := w'.rows[q.key];
    } else {
      row := *;
    }
    AttachAlone(q.key, w.rows, q.maxPerUser, q.now, gone, inserted, row);
  }

  lemma DetachRefined(w: World, k: Key, mode: string, gracePeriod: int, now: int, w': World,
                      max: int, gone: bool, inserted: bool, row: Row)
    requires Keyed(w.rows) && Disconnected(w, k, mode, gracePeriod, now, w')
    ensures w'.rows == Alone(Process(k, Operation.Detach(PolicyOf(mode, gracePeriod)), Leave), w.rows, max,
                             now + gracePeriod, gone, inserted, row)
  {
    hide Alone, Shrunk, PrintOf;
    DetachAlone(k, PolicyOf(mode, gracePeriod), w.rows, max, now + gracePeriod, gone, inserted, row);
    if k in w.rows {
      assert w.rows[k := Spawn.Detach(w.rows[k])] - {k} == w.rows - {k};
    }
  }
}
