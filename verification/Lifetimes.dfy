/**
 How long a session lasts, in the plain terms of its row: when attaching joins it, when a pass removes it, and
 what neither can touch.
 */
module Lifetimes {
  import opened Options
  import opened ServiceIds
  import opened Runtime
  import opened Store
  import opened Books
  import opened World
  import opened Cleanup
  import opened Spawn
  import opened Sessions
  import opened Runs

  /** Whether an attach at the given time joins the session, if its container is there. */
  predicate Joinable(r: Row, now: int) {
    (r.mode == "persistent" || r.connections > 0 || r.graceExpiry.Some?) &&
    (r.status == GracePeriod && r.graceExpiry.Some? ==> now <= r.graceExpiry.value)
  }

  /** Whether a pass at the given time leaves the session. */
  predicate Outlives(r: Row, now: int) {
    r.mode == "persistent" ||
    (now <= r.maxLifetime && (r.status == GracePeriod && r.graceExpiry.Some? ==> now <= r.graceExpiry.value))
  }

  /** A row as it was, with one more client and no grace period. */
  predicate Joined(r: Row, r': Row) {
    r' == r.(status := Running, connections := r.connections + 1, graceExpiry := r'.graceExpiry) &&
    r'.graceExpiry == if r.status == GracePeriod then None else r.graceExpiry
  }

  // ---------------------------------------------------------------------- one attach

  /** Up to the decision: the row is there still exactly if it is joinable and its container is not known to be gone. */
  lemma Approach(w: World, q: Request, s: Stages)
    requires Keyed(w.rows)
    requires Reconciled(w, q.key, q.now, s.reaped) && Settled(s.reaped, q.key, s.told, s.settled)
    ensures q.key in s.settled.rows <==>
            q.key in w.rows && Joinable(w.rows[q.key], q.now) &&
            (s.told ==> Matched(w.engine, {w.rows[q.key].containerName}) != {})
    ensures if q.key in s.settled.rows then s.settled == w
            else s.settled.rows == w.rows - {q.key} && s.settled.nextId == w.nextId
  {
    hide Shrunk, Matched, PrintOf, Refs, Nets;
  }

  /**
   Attaching to an existing session joins it exactly if it is persistent, has clients or is in its grace period,
   that period is not over, and its container is not known to be gone; then nothing but that row changes.
   Otherwise what is at the key afterwards, if anything, is another session.
   */
  lemma AttachDecides(w: World, q: Request, s: Stages, outcome: Outcome, w': World)
    requires Keyed(w.rows) && q.key in w.rows && Ensured(w, q, s, outcome, w') && outcome != RefusedPreserved
    ensures outcome == Ready(false) <==>
            Joinable(w.rows[q.key], q.now) && (s.told ==> Matched(w.engine, {w.rows[q.key].containerName}) != {})
    ensures outcome == Ready(false) ==>
              q.key in w'.rows && Joined(w.rows[q.key], w'.rows[q.key]) && w' == w.(rows := w.rows[q.key := w'.rows[q.key]])
    ensures outcome != Ready(false) && q.key in w'.rows ==> w'.rows[q.key].id >= w.nextId
  {
    hide Joinable, Reconciled, Settled, Matched, Building, EngineOk, PrintOf, Shrunk, Refs, Nets, WithInitialized,
      WithPreserved, Counted, Full;
    Approach(w, q, s);
  }

  /** The other sessions of the user of a key. */
  function Others(rows: map<Key, Row>, k: Key): set<Key> {
    set l | l in rows && l.user == k.user && l != k
  }

  lemma CountsOthers(w: World, q: Request, v: World)
    requires v.rows == w.rows || v.rows == w.rows - {q.key}
    requires q.key !in v.rows
    ensures Full(v.rows, q.key.user, q.maxPerUser) <==> q.maxPerUser > 0 && |Others(w.rows, q.key)| >= q.maxPerUser
  {
    assert RowsOf(v.rows, q.key.user) == Others(w.rows, q.key);
  }

  /** Where there is no session to join, the limit refuses exactly if the user has as many others as it allows. */
  lemma CapDecides(w: World, q: Request, s: Stages, outcome: Outcome, w': World)
    requires Keyed(w.rows) && Ensured(w, q, s, outcome, w') && outcome !in {RefusedPreserved, Ready(false)}
    ensures outcome == NotAttached(AtCapacity) <==> q.maxPerUser > 0 && |Others(w.rows, q.key)| >= q.maxPerUser
    ensures outcome == NotAttached(AtCapacity) ==> w'.rows == w.rows - {q.key}
  {
    hide Joinable, Reconciled, Settled, Matched, Building, EngineOk, PrintOf, Shrunk, Refs, Nets, WithInitialized,
      WithPreserved, Counted, Full, Hooked;
    Approach(w, q, s);
    CountsOthers(w, q, s.settled);
  }

  /** What a session that was created is recorded as. */
  lemma NewSession(w: World, q: Request, s: Stages, w': World)
    requires Ensured(w, q, s, Ready(true), w')
    ensures q.key in w'.rows
    ensures var r := w'.rows[q.key];
            r.user == q.key.user && r.project == q.key.project && r.status == Running && r.connections == 1 &&
            r.graceExpiry == None && r.createdAt == q.now && r.maxLifetime == q.now + q.lifetime &&
            r.containerName == "podspawn-" + q.key.user + (if q.key.project == "" then "" else "-" + q.key.project) &&
            r.workspaceId == if q.workspace.Some? then Some(q.workspace.value.id) else None
  {
    hide Reconciled, Settled, Building, EngineOk, PrintOf, WithInitialized, WithPreserved, Counted, Full;
  }

  // ------------------------------------------------------------- commands about others

  /** What a command is about; passes are about no session in particular. */
  predicate About(c: Command, k: Key) {
    match c
    case Attaching(q, _, _) => q.key == k
    case Cleaning(_, _) => false
    case NotFound => false
    case _ => c.k == k
  }

  ghost predicate SameAt(w: World, k: Key, w': World) {
    (k in w'.rows <==> k in w.rows) && (k in w.rows ==> w'.rows[k] == w.rows[k])
  }

  lemma EnsureElsewhere(w: World, q: Request, s: Stages, outcome: Outcome, w': World, k: Key)
    requires Keyed(w.rows) && Ensured(w, q, s, outcome, w') && q.key != k
    ensures SameAt(w, k, w')
  {
    hide Joinable, Reconciled, Settled, Matched, Building, EngineOk, PrintOf, Shrunk, Refs, Nets, WithInitialized,
      WithPreserved, Counted, Full;
    if outcome != RefusedPreserved {
      Approach(w, q, s);
    }
  }

  lemma SetUpElsewhere(w: World, l: Key, req: CreateRequest, told: bool, clone: Option<Clone>, now: int, setup: Setup,
                       v: World, k: Key)
    requires FlowSetUp(w, l, req, told, clone, now, setup, v) && Keyed(w.rows) && l != k
    ensures SameAt(w, k, v) && Keyed(v.rows)
  {
    hide Matched;
  }

  lemma CreateElsewhere(w: World, c: Command, w': World, k: Key)
    requires Keyed(w.rows) && c.Creating? && Step(w, c, w') && c.k != k
    ensures SameAt(w, k, w')
  {
    hide FlowSetUp, Ensured;
    SetUpElsewhere(w, c.k, c.req, c.told, c.clone, c.now, c.setup, c.mid, k);
    match c.result
    case Provisioned =>
      var q := Request(c.k, c.setup.workspace, c.maxPerUser, c.lifetime, c.now);
      var isNew :| Ensured(c.mid, q, c.s, Ready(isNew), w');
      EnsureElsewhere(c.mid, q, c.s, Ready(isNew), w', k);
    case RuntimeFailure(outcome) =>
      var q := Request(c.k, c.setup.workspace, c.maxPerUser, c.lifetime, c.now);
      var u :| Ensured(c.mid, q, c.s, outcome, u) &&
               w' == if c.setup.created && !outcome.OnCreateFailed? then u.(workspaces := u.workspaces - {c.k}) else u;
      EnsureElsewhere(c.mid, q, c.s, outcome, u, k);
    case _ =>
  }

  lemma RemoveElsewhere(w: World, c: Command, w': World, k: Key)
    requires Keyed(w.rows) && c.Removing? && Step(w, c, w') && c.k != k
    ensures SameAt(w, k, w')
  {
    hide Matched, Shrunk, PrintOf, Refs, Nets, Ephemeral;
  }

  /** No command touches the session of another key, except that passes remove sessions. */
  lemma Elsewhere(w: World, c: Command, w': World, k: Key)
    requires Keyed(w.rows) && Step(w, c, w') && !About(c, k) && !c.Cleaning?
    ensures SameAt(w, k, w')
  {
    hide CreateTried, Ensured, RemoveTried, Shrunk, PrintOf, Refs, Nets, Matched;
    match c
    case Creating(_, _, _, _, _, _, _, _, _, _, _) => CreateElsewhere(w, c, w', k);
    case Attaching(q, s, outcome) => EnsureElsewhere(w, q, s, outcome, w', k);
    case Removing(_, _, _, _, _) => RemoveElsewhere(w, c, w', k);
    case _ =>
  }

  // ------------------------------------------------------------------ persistent sessions

  /** A session that nobody is about to reclaim, connected or not. */
  predicate Durable(r: Row) {
    r.mode == "persistent" && r.status == Running && r.graceExpiry == None
  }

  /** The same session, with the same container, network and services, and perhaps other clients. */
  predicate Continues(r: Row, r': Row) {
    r' == r.(connections := r'.connections)
  }

  /** The command does not end the session on purpose: no stop, no forced removal, no client of another mode. */
  predicate Spares(c: Command, k: Key) {
    match c
    case Detaching(l, mode, _, _) => l == k ==> mode == "persistent"
    case Stopping(l) => l != k
    case Removing(l, force, _, _, _) => l == k ==> !force
    case _ => true
  }

  lemma ContainerFound(w: World, k: Key)
    requires Conserved(w) && k in w.rows
    ensures Matched(w.engine, {w.rows[k].containerName}) != {} && w.rows[k].containerId in w.engine.containers
  {
    hide Decode, EngineOk, Accounted, Separate;
    PrintAt(Prints(w.rows), w.engine, k);
    assert w.rows[k].containerId in Matched(w.engine, {w.rows[k].containerName});
  }

  lemma AttachContinues(w: World, q: Request, s: Stages, outcome: Outcome, w': World)
    requires Conserved(w) && q.key in w.rows && Durable(w.rows[q.key]) && Ensured(w, q, s, outcome, w')
    ensures q.key in w'.rows && Continues(w.rows[q.key], w'.rows[q.key])
    ensures outcome in {RefusedPreserved, Ready(false)}
  {
    if outcome != RefusedPreserved {
      hide Ensured, Balanced;
      ContainerFound(w, q.key);
      AttachDecides(w, q, s, outcome, w');
    }
  }

  lemma CreateContinues(w: World, c: Command, w': World)
    requires Inv(w) && c.Creating? && Step(w, c, w') && c.k in w.rows && Durable(w.rows[c.k])
    ensures c.k in w'.rows && Continues(w.rows[c.k], w'.rows[c.k])
  {
    hide FlowSetUp, Ensured, Balanced, WorkspacesOk, IdsOk, Durable;
    SetUpKeeps(w, c.k, c.req, c.told, c.clone, c.now, c.setup, c.mid);
    match c.result
    case Provisioned =>
      var q := Request(c.k, c.setup.workspace, c.maxPerUser, c.lifetime, c.now);
      var isNew :| Ensured(c.mid, q, c.s, Ready(isNew), w');
      AttachContinues(c.mid, q, c.s, Ready(isNew), w');
    case RuntimeFailure(outcome) =>
      var q := Request(c.k, c.setup.workspace, c.maxPerUser, c.lifetime, c.now);
      assert Ensured(c.mid, q, c.s, outcome, w');
      AttachContinues(c.mid, q, c.s, outcome, w');
    case _ =>
  }

  lemma DetachContinues(w: World, k: Key, gracePeriod: int, now: int, w': World)
    requires Disconnected(w, k, "persistent", gracePeriod, now, w') && k in w.rows
    ensures k in w'.rows && Continues(w.rows[k], w'.rows[k])
  {
  }

  lemma SwitchContinues(w: World, c: Command, w': World)
    requires Inv(w) && c.Switching? && Step(w, c, w')
    ensures w'.rows == w.rows
  {
    hide SwitchTried, Balanced, WorkspacesOk, IdsOk;
    SwitchKeeps(w, c.k, c.branch, c.told, c.git, c.ok, w');
  }

  lemma RemoveContinues(w: World, c: Command, w': World)
    requires Inv(w) && c.Removing? && !c.force && Step(w, c, w')
    ensures w'.rows == w.rows
  {
    hide Balanced, WorkspacesOk, IdsOk, Settled, Shrunk, PrintOf, Ephemeral;
    if !Ephemeral(c.k.project) && c.k in w.workspaces {
      var v, u :|
        Settled(w, c.k, c.told, v) &&
        if c.k in v.rows && (!c.told || !c.force) then !c.ok && w' == v
        else Ended(v, c.k, u) && c.ok == c.directory && w' == if c.ok then u.(workspaces := u.workspaces - {c.k}) else u;
      NothingStale(w, c.k, c.told, v);
    }
  }

  /** What a pass at a fixed time does to one session. */
  lemma PassDecides(w: World, now: int, strays: set<string>, w': World, k: Key)
    requires Cleaned(w, now, strays, w')
    ensures k in w'.rows <==> k in w.rows && Outlives(w.rows[k], now)
    ensures k in w'.rows ==> w'.rows[k] == w.rows[k]
  {
    hide Shrunk, RowRefs, RowNets, Orphans, TrackedBy;
  }

  lemma StepContinues(w: World, c: Command, w': World, k: Key)
    requires Inv(w) && Step(w, c, w') && k in w.rows && Durable(w.rows[k]) && Spares(c, k)
    ensures k in w'.rows && Continues(w.rows[k], w'.rows[k])
  {
    hide CreateTried, Ensured, Disconnected, Ended, SwitchTried, RemoveTried, Cleaned, Balanced, WorkspacesOk, IdsOk,
      Current;
    if !About(c, k) && !c.Cleaning? {
      Elsewhere(w, c, w', k);
    } else {
      match c
      case Creating(_, _, _, _, _, _, _, _, _, _, _) => CreateContinues(w, c, w');
      case Attaching(q, s, outcome) => AttachContinues(w, q, s, outcome, w');
      case Detaching(_, _, gracePeriod, now) => DetachContinues(w, k, gracePeriod, now, w');
      case Switching(_, _, _, _, _) => SwitchContinues(w, c, w');
      case Removing(_, _, _, _, _) => RemoveContinues(w, c, w');
      case Cleaning(now, strays) => PassDecides(w, now, strays, w', k);
    }
  }

  /**
   A persistent session keeps its id and its container over every run in which nobody stops it, removes it by
   force or detaches as a client of another mode, whoever attaches and detaches and whenever passes run.
   */
  lemma {:induction false} PersistentStays(ws: seq<World>, cs: seq<Command>, i: nat, k: Key)
    requires Run(ws, cs) && Inv(ws[0]) && k in ws[0].rows && Durable(ws[0].rows[k])
    requires i <= |cs| && forall j :: 0 <= j < i ==> Spares(cs[j], k)
    ensures k in ws[i].rows && Continues(ws[0].rows[k], ws[i].rows[k])
    ensures ws[i].rows[k].containerId in ws[i].engine.containers
  {
    hide Inv, Step, Spares;
    RunKeeps(ws, cs, i);
    if i > 0 {
      PersistentStays(ws, cs, i - 1, k);
      RunKeeps(ws, cs, i - 1);
      assert Step(ws[i - 1], cs[i - 1], ws[i - 1 + 1]) && Spares(cs[i - 1], k);
      StepContinues(ws[i - 1], cs[i - 1], ws[i], k);
    }
    InvParts(ws[i]);
    ContainerFound(ws[i], k);
  }

  // ------------------------------------------------------------------------- expiry

  /** Every pass of the run comes in time for the session. */
  predicate PassesSpare(r: Row, cs: seq<Command>, n: nat)
    requires n <= |cs|
  {
    forall i :: 0 <= i < n && cs[i].Cleaning? ==> Outlives(r, cs[i].now)
  }

  /**
   While no command is about a session, only passes end it: it is there at a point of the run exactly if it is
   persistent or every pass so far came before the end of its lifetime and, if a grace period runs, of that.
   */
  lemma {:induction false} PassesDecide(ws: seq<World>, cs: seq<Command>, n: nat, k: Key)
    requires Run(ws, cs) && Inv(ws[0]) && k in ws[0].rows
    requires n <= |cs| && forall i :: 0 <= i < n ==> !About(cs[i], k)
    ensures k in ws[n].rows <==> PassesSpare(ws[0].rows[k], cs, n)
    ensures k in ws[n].rows ==> ws[n].rows[k] == ws[0].rows[k]
  {
    hide Inv, Step, About, Outlives;
    if n > 0 {
      PassesDecide(ws, cs, n - 1, k);
      RunKeeps(ws, cs, n - 1);
      var c := cs[n - 1];
      assert Step(ws[n - 1], c, ws[n - 1 + 1]) && !About(c, k);
      OneMorePass(ws[n - 1], c, ws[n], k);
    }
  }

  lemma OneMorePass(w: World, c: Command, w': World, k: Key)
    requires Inv(w) && Step(w, c, w') && !About(c, k)
    ensures k in w'.rows <==> k in w.rows && (c.Cleaning? ==> Outlives(w.rows[k], c.now))
    ensures k in w'.rows ==> w'.rows[k] == w.rows[k]
  {
    if c.Cleaning? {
      hide Inv, Cleaned;
      PassDecides(w, c.now, c.strays, w', k);
    } else {
      hide Step, Balanced, WorkspacesOk, IdsOk;
      Elsewhere(w, c, w', k);
    }
  }

  /** What detaching does to a session; it ends only with the last client. */
  lemma DetachDecides(w: World, k: Key, mode: string, g: int, now: int, w': World)
    requires Keyed(w.rows) && k in w.rows && Disconnected(w, k, mode, g, now, w')
    ensures var r, last := w.rows[k], w.rows[k].connections <= 1 && mode != "persistent";
            if last && (mode == "destroy-on-disconnect" || g == 0) then w'.rows == w.rows - {k}
            else
              var left := r.(connections := if r.connections <= 1 then 0 else r.connections - 1);
              var row := if last then left.(status := GracePeriod, graceExpiry := Some(now + g)) else left;
              w' == w.(rows := w.rows[k := row])
  {
    hide Shrunk, PrintOf, Refs, Nets;
  }

  predicate NoneLater(cs: seq<Command>, n: nat, time: int)
    requires n <= |cs|
  {
    forall i :: 0 <= i < n && cs[i].Cleaning? ==> cs[i].now <= time
  }

  lemma SparedInGrace(r: Row, expiry: int, cs: seq<Command>, n: nat)
    requires n <= |cs| && r.mode != "persistent"
    ensures PassesSpare(r.(status := GracePeriod, graceExpiry := Some(expiry)), cs, n) <==>
            NoneLater(cs, n, expiry) && NoneLater(cs, n, r.maxLifetime)
  {
  }

  /**
   The last client leaves at t with grace period g, and nobody comes back: the session is there exactly as long
   as no pass has come after t + g, or after the end of its lifetime.
   */
  lemma GraceRunsOut(w: World, mode: string, g: int, t: int, ws: seq<World>, cs: seq<Command>, n: nat, k: Key)
    requires Inv(w) && k in w.rows && w.rows[k].connections <= 1 && w.rows[k].mode != "persistent"
    requires mode !in {"persistent", "destroy-on-disconnect"} && g != 0
    requires Run(ws, cs) && Disconnected(w, k, mode, g, t, ws[0])
    requires n <= |cs| && forall i :: 0 <= i < n ==> !About(cs[i], k)
    ensures k in ws[n].rows <==> NoneLater(cs, n, t + g) && NoneLater(cs, n, w.rows[k].maxLifetime)
  {
    hide Balanced, WorkspacesOk, IdsOk, Step, About, Disconnected, PassesSpare, NoneLater;
    DetachDecides(w, k, mode, g, t, ws[0]);
    DisconnectKeeps(w, k, mode, g, t, ws[0]);
    PassesDecide(ws, cs, n, k);
    SparedInGrace(w.rows[k].(connections := 0), t + g, cs, n);
  }

  /**
   A session that was created and then left alone is there exactly as long as no pass has come after its lifetime, or
   for ever if it is persistent.
   */
  lemma LifetimeRunsOut(w: World, q: Request, s: Stages, ws: seq<World>, cs: seq<Command>, n: nat)
    requires Inv(w) && Runs.Current(w, q) && Run(ws, cs) && Ensured(w, q, s, Ready(true), ws[0])
    requires n <= |cs| && forall i :: 0 <= i < n ==> !About(cs[i], q.key)
    ensures q.key in ws[0].rows
    ensures q.key in ws[n].rows <==> ws[0].rows[q.key].mode == "persistent" || NoneLater(cs, n, q.now + q.lifetime)
  {
    hide Inv, Step, About, Ensured, HookEffect, Current;
    EnsuredKeeps(w, q, s, Ready(true), ws[0]);
    NewSession(w, q, s, ws[0]);
    PassesDecide(ws, cs, n, q.key);
  }
}
