/**
 Whole runs: any number of commands and cleanup passes by any number of processes, one after the other,
 each with the effect that its method is proved to have.
 */
module Runs {
  import opened Options
  import opened ServiceIds
  import opened Runtime
  import opened Store
  import opened Books
  import opened World
  import opened Cleanup
  import opened Spawn
  import opened Sessions

  datatype Command =
    | Creating(k: Key, req: CreateRequest, told: bool, clone: Option<Clone>,
               maxPerUser: int, lifetime: int, now: int, s: Stages, result: CreateResult, setup: Setup, mid: World)
    | Attaching(q: Request, s: Stages, outcome: Outcome)
    | Detaching(k: Key, mode: string, gracePeriod: int, now: int)
    | Stopping(k: Key)
    | Switching(k: Key, branch: string, told: bool, git: bool, ok: bool)
    | Removing(k: Key, force: bool, told: bool, directory: bool, ok: bool)
    | Cleaning(now: int, strays: set<string>)
    | NotFound

  /** A client that attaches carries no workspace, or the row as it is now. */
  ghost predicate Current(w: World, q: Request) {
    q.workspace.Some? ==> q.key in w.workspaces && w.workspaces[q.key] == q.workspace.value
  }

  ghost predicate Step(w: World, c: Command, w': World) {
    match c
    case Creating(k, req, told, clone, maxPerUser, lifetime, now, s, result, setup, mid) =>
      CreateTried(w, k, req, told, clone, maxPerUser, lifetime, now, s, result, setup, mid, w')
    case Attaching(q, s, outcome) => Current(w, q) && Ensured(w, q, s, outcome, w')
    case Detaching(k, mode, gracePeriod, now) => Disconnected(w, k, mode, gracePeriod, now, w')
    case Stopping(k) => Ended(w, k, w')
    case Switching(k, branch, told, git, ok) => SwitchTried(w, k, branch, told, git, ok, w')
    case Removing(k, force, told, directory, ok) => RemoveTried(w, k, force, told, directory, ok, w')
    case Cleaning(now, strays) => Cleaned(w, now, strays, w')
    case NotFound => w' == w
  }

  ghost predicate Run(ws: seq<World>, cs: seq<Command>) {
    |ws| == |cs| + 1 && forall i :: 0 <= i < |cs| ==> Step(ws[i], cs[i], ws[i + 1])
  }

  // -------------------------------------------------------------------- invariants

  /** How many on_create runs of the workspace count: none before it is initialized, then one. */
  predicate WorkspaceOk(ws: Workspace, created: map<Key, nat>, k: Key) {
    Key(ws.user, ws.name) == k && (ws.state == Preserved ==> !ws.initialized) &&
    (ws.headCommit != "" ==> ws.initialized) && k in created && created[k] == if ws.initialized then 1 else 0
  }

  /** A session that was created for a workspace has that workspace, and it is not preserved. */
  predicate LinkOk(row: Row, workspaces: map<Key, Workspace>, k: Key) {
    row.workspaceId.Some? ==>
      k in workspaces && workspaces[k].id == row.workspaceId.value && workspaces[k].state == Active
  }

  ghost predicate WorkspacesOk(w: World) {
    (forall k :: k in w.workspaces ==> WorkspaceOk(w.workspaces[k], w.created, k)) &&
    (forall k :: k in w.rows ==> LinkOk(w.rows[k], w.workspaces, k))
  }

  /** Ids of sessions have all been handed out. */
  ghost predicate IdsOk(w: World) {
    forall k :: k in w.rows ==> w.rows[k].id < w.nextId
  }

  ghost predicate Inv(w: World) {
    Conserved(w) && WorkspacesOk(w) && IdsOk(w)
  }

  // ----------------------------------------------------------- effects and workspaces

  /** No new rows, and the rows keep their workspaces and ids. */
  ghost predicate Slimmer(w: World, w': World) {
    w'.workspaces == w.workspaces && w'.created == w.created && w.nextId <= w'.nextId &&
    forall k :: k in w'.rows ==>
      k in w.rows && w'.rows[k].workspaceId == w.rows[k].workspaceId && w'.rows[k].id == w.rows[k].id
  }

  lemma SlimmerKeeps(w: World, w': World)
    requires WorkspacesOk(w) && IdsOk(w) && Slimmer(w, w')
    ensures WorkspacesOk(w') && IdsOk(w')
  {
    hide WorkspaceOk;
    forall k | k in w'.rows
      ensures LinkOk(w'.rows[k], w'.workspaces, k)
    {
      assert LinkOk(w.rows[k], w.workspaces, k);
    }
  }

  /** While the books are balanced, no row is found stale. */
  lemma NothingStale(w: World, k: Key, told: bool, v: World)
    requires Conserved(w) && Settled(w, k, told, v)
    ensures v == w
  {
    hide Decode, EngineOk, Accounted, Separate;
    if k in w.rows {
      PrintAt(Prints(w.rows), w.engine, k);
      assert w.rows[k].containerId in Matched(w.engine, {w.rows[k].containerName});
    }
  }

  lemma ReconcileKeeps(w: World, k: Key, now: int, w': World)
    requires Inv(w) && Reconciled(w, k, now, w')
    ensures Inv(w') && Slimmer(w, w')
  {
    hide Balanced, Shrunk, PrintOf, WorkspacesOk, IdsOk;
    if k in w.rows && Overdue(w.rows[k], now) {
      DestroyKeeps(w, k, w');
    }
    SlimmerKeeps(w, w');
  }

  lemma EndKeeps(w: World, k: Key, w': World)
    requires Inv(w) && Ended(w, k, w')
    ensures Inv(w') && Slimmer(w, w') && k !in w'.rows
  {
    hide Balanced, Shrunk, PrintOf, WorkspacesOk, IdsOk;
    if k in w.rows {
      DestroyKeeps(w, k, w');
    }
    SlimmerKeeps(w, w');
  }

  lemma ReattachKeeps(w: World, q: Request, w': World)
    requires Inv(w) && Attached(w, q, Reattached, w')
    ensures Inv(w') && Slimmer(w, w')
  {
    hide Balanced, WorkspacesOk, IdsOk;
    SlimmerKeeps(w, w');
    FootprintKeeps(w, w');
  }

  lemma RefusalKeeps(w: World, q: Request, why: Attachment, w': World)
    requires Inv(w) && (why.AtCapacity? || why.NotProvisioned?) && Attached(w, q, why, w')
    ensures Inv(w') && Slimmer(w, w') && q.key !in w'.rows
  {
    hide Balanced, WorkspacesOk, IdsOk, Building, EngineOk;
    SlimmerKeeps(w, w');
    if why.NotProvisioned? {
      UndoKeeps(w, w');
    }
  }

  lemma CreationKeeps(w: World, q: Request, w': World)
    requires Inv(w) && Attached(w, q, Created, w') && Current(w, q)
    requires q.workspace.Some? ==> q.workspace.value.state == Active
    ensures Inv(w') && w'.workspaces == w.workspaces && w'.created == w.created && w'.rows.Keys == w.rows.Keys + {q.key}
  {
    hide Balanced, WorkspaceOk, Building, EngineOk, PrintOf;
    ProvisionKeeps(w, w'.rows[q.key], w');
    forall k | k in w'.rows
      ensures LinkOk(w'.rows[k], w'.workspaces, k)
    {
      if k != q.key {
        assert LinkOk(w.rows[k], w.workspaces, k);
      }
    }
  }

  lemma InitializedKeeps(w: World, k: Key, head: Option<string>)
    requires Inv(w) && k in w.workspaces && !w.workspaces[k].initialized && w.workspaces[k].state == Active
    ensures Inv(Initialized(w, k, head))
  {
    hide Balanced;
    var v := Initialized(w, k, head);
    assert WorkspaceOk(w.workspaces[k], w.created, k);
    forall l | l in v.workspaces
      ensures WorkspaceOk(v.workspaces[l], v.created, l)
    {
      assert WorkspaceOk(w.workspaces[l], w.created, l);
    }
    forall l | l in v.rows
      ensures LinkOk(v.rows[l], v.workspaces, l)
    {
      assert LinkOk(w.rows[l], w.workspaces, l);
    }
  }

  /** A fatal hook marks the workspace preserved, and the session goes at once. */
  lemma FatalKeeps(w: World, k: Key, v: World, w': World)
    requires Inv(w) && k in w.rows && Destroyed(v, w.rows[k], w')
    requires v == w || (v == MarkedPreserved(w, k) && (k in w.workspaces ==> !w.workspaces[k].initialized))
    ensures Inv(w') && k !in w'.rows
  {
    hide Balanced, Shrunk, PrintOf;
    var u := w'.(workspaces := w.workspaces);
    DestroyKeeps(w, k, u);
    SlimmerKeeps(w, u);
    forall l | l in w'.workspaces
      ensures WorkspaceOk(w'.workspaces[l], w'.created, l)
    {
      assert WorkspaceOk(w.workspaces[l], w.created, l);
    }
    forall l | l in w'.rows
      ensures LinkOk(w'.rows[l], w'.workspaces, l)
    {
      assert LinkOk(w.rows[l], w.workspaces, l);
    }
  }

  // ------------------------------------------------------------------- every command

  /** What a command leaves in the workspace table and in the tally of on_create runs. */
  ghost predicate HookEffect(w: World, q: Request, s: Stages, w': World) {
    var linked := q.workspace.Some?;
    w'.workspaces == (if s.hook == Succeeded && linked then WithInitialized(w.workspaces, q.key, s.head)
                      else if s.hook == Fatal && linked then WithPreserved(w.workspaces, q.key)
                      else w.workspaces) &&
    w'.created == (if s.hook == Succeeded && linked then Counted(w.created, w.workspaces, q.key) else w.created)
  }

  /** Reaching the point where the session is created or joined. */
  lemma ApproachKeeps(w: World, q: Request, s: Stages)
    requires Inv(w) && Reconciled(w, q.key, q.now, s.reaped) && Settled(s.reaped, q.key, s.told, s.settled)
    ensures Inv(s.settled) && s.settled.workspaces == w.workspaces && s.settled.created == w.created
  {
    hide Balanced, Destroyed, Settled, WorkspacesOk, IdsOk, Overdue;
    ReconcileKeeps(w, q.key, q.now, s.reaped);
    NothingStale(s.reaped, q.key, s.told, s.settled);
  }

  /** What happens after a new session has been recorded. */
  lemma NewSessionKeeps(w: World, q: Request, s: Stages, outcome: Outcome, w': World)
    requires Inv(w) && q.key in w.rows && Current(w, q) && outcome in {Ready(true), OnCreateFailed}
    requires q.workspace.Some? ==> q.workspace.value.state == Active
    requires outcome == Ready(true) ==> s.hook != Fatal && Hooked(w, q.key, q.workspace, s.hook, s.head, w')
    requires outcome == OnCreateFailed ==>
               s.hook == Fatal && Hooked(w, q.key, q.workspace, s.hook, s.head, s.hooked) && q.key in s.hooked.rows &&
               Destroyed(s.hooked, s.hooked.rows[q.key], w')
    ensures Inv(w') && HookEffect(w, q, s, w') && (outcome == OnCreateFailed ==> q.key !in w'.rows)
  {
    hide Balanced, Shrunk, PrintOf, WorkspacesOk, IdsOk, Conserved, WithInitialized, Counted;
    if outcome == OnCreateFailed {
      FatalKeeps(w, q.key, s.hooked, w');
    } else if s.hook == Succeeded && q.workspace.Some? {
      InitializedKeeps(w, q.key, s.head);
    }
  }

  lemma EnsuredKeeps(w: World, q: Request, s: Stages, outcome: Outcome, w': World)
    requires Inv(w) && Current(w, q) && Ensured(w, q, s, outcome, w')
    ensures Inv(w') && HookEffect(w, q, s, w')
    ensures outcome.NotAttached? || outcome == OnCreateFailed ==> q.key !in w'.rows
    ensures outcome == RefusedPreserved ==> w' == w
  {
    hide Inv, Attached, Hooked, Reconciled, Settled, Destroyed, WithInitialized, Counted, WithPreserved;
    if outcome != RefusedPreserved {
      ApproachKeeps(w, q, s);
      match outcome
      case NotAttached(why) => RefusalKeeps(s.settled, q, why, w');
      case Ready(isNew) =>
        if isNew {
          CreationKeeps(s.settled, q, s.attached);
          NewSessionKeeps(s.attached, q, s, outcome, w');
        } else {
          ReattachKeeps(s.settled, q, w');
        }
      case OnCreateFailed =>
        CreationKeeps(s.settled, q, s.attached);
        NewSessionKeeps(s.attached, q, s, outcome, w');
    }
  }

  lemma RowFootprint(w: World, k: Key, row: Row)
    requires Keyed(w.rows) && k in w.rows && row.At() == k && PrintOf(row) == PrintOf(w.rows[k])
    ensures SameFootprint(w, w.(rows := w.rows[k := row]))
  {
    hide PrintOf;
  }

  lemma RowSlimmer(w: World, k: Key, row: Row)
    requires k in w.rows && row.workspaceId == w.rows[k].workspaceId && row.id == w.rows[k].id
    ensures Slimmer(w, w.(rows := w.rows[k := row]))
  {
  }

  /** Counters and status of a row change, nothing else. */
  lemma RowKeeps(w: World, k: Key, row: Row)
    requires Inv(w) && k in w.rows && row.At() == k && PrintOf(row) == PrintOf(w.rows[k])
    requires row.workspaceId == w.rows[k].workspaceId && row.id == w.rows[k].id
    ensures Inv(w.(rows := w.rows[k := row])) && Slimmer(w, w.(rows := w.rows[k := row]))
  {
    hide Balanced, WorkspacesOk, IdsOk, PrintOf, SameFootprint, Slimmer;
    var v := w.(rows := w.rows[k := row]);
    RowFootprint(w, k, row);
    RowSlimmer(w, k, row);
    FootprintKeeps(w, v);
    SlimmerKeeps(w, v);
  }

  lemma DisconnectKeeps(w: World, k: Key, mode: string, gracePeriod: int, now: int, w': World)
    requires Inv(w) && Disconnected(w, k, mode, gracePeriod, now, w')
    ensures Inv(w') && Slimmer(w, w')
  {
    hide Balanced, WorkspacesOk, IdsOk, Destroyed;
    if k in w.rows {
      var row := Detach(w.rows[k]);
      var v := w.(rows := w.rows[k := row]);
      RowKeeps(w, k, row);
      RowKeeps(w, k, row.(status := GracePeriod, graceExpiry := Some(now + gracePeriod)));
      if row.connections == 0 && mode != PERSISTENT && (mode == DESTROY_ON_DISCONNECT || gracePeriod == 0) {
        EndKeeps(v, k, w');
      }
    }
  }

  lemma CleanupKeeps(w: World, now: int, strays: set<string>, w': World)
    requires Inv(w) && Cleaned(w, now, strays, w')
    ensures Inv(w') && Slimmer(w, w')
  {
    hide Balanced, WorkspacesOk, IdsOk, Shrunk, Expired, Orphans, RowRefs, RowNets, TrackedBy;
    PassConserves(w, now, strays, w');
    SlimmerKeeps(w, w');
  }

  lemma SwitchKeeps(w: World, k: Key, branch: string, told: bool, git: bool, ok: bool, w': World)
    requires Inv(w) && SwitchTried(w, k, branch, told, git, ok, w')
    ensures Inv(w')
    ensures if ok then k in w.workspaces && w' == Switched(w, k, branch) else w' == w
  {
    hide Balanced, Settled;
    if k in w.workspaces {
      var v :| Settled(w, k, told, v) && (ok <==> k !in v.rows && git) && w' == if ok then Switched(v, k, branch) else v;
      NothingStale(w, k, told, v);
      if ok {
        forall l | l in w'.workspaces
          ensures WorkspaceOk(w'.workspaces[l], w'.created, l)
        {
          assert WorkspaceOk(w.workspaces[l], w.created, l);
        }
        forall l | l in w'.rows
          ensures LinkOk(w'.rows[l], w'.workspaces, l)
        {
          assert LinkOk(w.rows[l], w.workspaces, l);
        }
      }
    }
  }

  /** A workspace without a session can go. */
  lemma ForgetKeeps(w: World, k: Key)
    requires Inv(w) && k !in w.rows
    ensures Inv(w.(workspaces := w.workspaces - {k}))
  {
    hide Balanced, WorkspaceOk;
    var v := w.(workspaces := w.workspaces - {k});
    forall l | l in v.workspaces
      ensures WorkspaceOk(v.workspaces[l], v.created, l)
    {
      assert WorkspaceOk(w.workspaces[l], w.created, l);
    }
    forall l | l in v.rows
      ensures LinkOk(v.rows[l], v.workspaces, l)
    {
      assert LinkOk(w.rows[l], w.workspaces, l);
    }
  }

  lemma RemoveKeeps(w: World, k: Key, force: bool, told: bool, directory: bool, ok: bool, w': World)
    requires Inv(w) && RemoveTried(w, k, force, told, directory, ok, w')
    ensures Inv(w') && w'.created == w.created && w'.workspaces == if ok then w.workspaces - {k} else w.workspaces
  {
    hide Inv, Settled, Ended, Ephemeral;
    if !Ephemeral(k.project) && k in w.workspaces {
      var v, u :|
        Settled(w, k, told, v) &&
        if k in v.rows && (!told || !force) then !ok && w' == v
        else Ended(v, k, u) && ok == directory && w' == if ok then u.(workspaces := u.workspaces - {k}) else u;
      assert Conserved(w) by {
        InvParts(w);
      }
      NothingStale(w, k, told, v);
      if !(k in v.rows && (!told || !force)) {
        EndKeeps(v, k, u);
        if ok {
          ForgetKeeps(u, k);
        }
      }
    }
  }

  lemma InvParts(w: World)
    requires Inv(w)
    ensures Conserved(w) && WorkspacesOk(w)
  {
    hide Conserved, WorkspacesOk;
  }

  lemma RegisterKeeps(w: World, k: Key, ws: Workspace)
    requires Inv(w) && k !in w.workspaces
    requires Key(ws.user, ws.name) == k && ws.state == Active && !ws.initialized && ws.headCommit == ""
    ensures Inv(Registered(w, k, ws))
  {
    hide Balanced;
    var v := Registered(w, k, ws);
    forall l | l in v.workspaces
      ensures WorkspaceOk(v.workspaces[l], v.created, l)
    {
      assert l in w.workspaces ==> WorkspaceOk(w.workspaces[l], w.created, l);
    }
    forall l | l in v.rows
      ensures LinkOk(v.rows[l], v.workspaces, l)
    {
      assert LinkOk(w.rows[l], w.workspaces, l);
    }
  }

  lemma ActivateKeeps(w: World, k: Key)
    requires Inv(w) && k in w.workspaces
    ensures Inv(w.(workspaces := w.workspaces[k := w.workspaces[k].(state := Active)]))
  {
    hide Balanced;
    var v := w.(workspaces := w.workspaces[k := w.workspaces[k].(state := Active)]);
    forall l | l in v.workspaces
      ensures WorkspaceOk(v.workspaces[l], v.created, l)
    {
      assert WorkspaceOk(w.workspaces[l], w.created, l);
    }
    forall l | l in v.rows
      ensures LinkOk(v.rows[l], v.workspaces, l)
    {
      assert LinkOk(w.rows[l], w.workspaces, l);
    }
  }

  /** What setting up a named machine does to the workspaces. */
  ghost predicate SetUpEffect(w: World, k: Key, setup: Setup, v: World) {
    v.rows == w.rows &&
    if setup.SetUp? && setup.created then
      k !in w.workspaces && k !in w.rows && setup.workspace.Some? && !setup.workspace.value.initialized &&
      setup.workspace.value.state == Active &&
      v.workspaces == w.workspaces[k := setup.workspace.value] && v.created == w.created[k := 0]
    else
      v.created == w.created &&
      if setup.SetUp? && setup.workspace.Some? then
        k in w.workspaces && setup.workspace.value == w.workspaces[k].(state := Active) &&
        v.workspaces == w.workspaces[k := setup.workspace.value]
      else v.workspaces == w.workspaces
  }

  lemma NamedSetUpKeeps(w: World, k: Key, req: CreateRequest, told: bool, clone: Option<Clone>, now: int, setup: Setup, v: World)
    requires Inv(w) && NamedSetUp(w, k, req, told, clone, now, setup, v)
    ensures Inv(v) && SetUpEffect(w, k, setup, v)
  {
    hide Balanced, Settled, WorkspacesOk, IdsOk;
    if k in w.workspaces {
      ActivateKeeps(w, k);
    } else {
      var u :| Settled(w, k, told, u) &&
        if k in u.rows then setup == (if told then UnsafeTransition else ContainerUnknown) && v == u
        else if req.projectName == "" then setup == SetUp(None, false) && v == u
        else if clone.None? then setup == CloneFailed && v == u
        else
          var ws := NewWorkspace(u.nextId, k, req, clone.value, now);
          setup == SetUp(Some(ws), true) && v == Registered(u, k, ws);
      NothingStale(w, k, told, u);
      if v != w {
        RegisterKeeps(w, k, setup.workspace.value);
      }
    }
  }

  lemma SetUpKeeps(w: World, k: Key, req: CreateRequest, told: bool, clone: Option<Clone>, now: int, setup: Setup, v: World)
    requires Inv(w) && FlowSetUp(w, k, req, told, clone, now, setup, v)
    ensures Inv(v) && SetUpEffect(w, k, setup, v)
  {
    hide Inv, NamedSetUp;
    if !(req.ephemeral && req.projectName != "") && !req.ephemeral && req.name != "" {
      NamedSetUpKeeps(w, k, req, told, clone, now, setup, v);
    }
  }

  lemma CreateKeeps(w: World, c: Command, w': World)
    requires Inv(w) && c.Creating? && Step(w, c, w')
    ensures Inv(w')
  {
    hide Inv, FlowSetUp, Ensured, SetUpEffect, HookEffect;
    SetUpKeeps(w, c.k, c.req, c.told, c.clone, c.now, c.setup, c.mid);
    CurrentAfterSetUp(w, c.k, c.setup, c.mid, c.maxPerUser, c.lifetime, c.now);
    var q := Request(c.k, if c.setup.SetUp? then c.setup.workspace else None, c.maxPerUser, c.lifetime, c.now);
    match c.result
    case Provisioned =>
      var isNew :| Ensured(c.mid, q, c.s, Ready(isNew), w');
      EnsuredKeeps(c.mid, q, c.s, Ready(isNew), w');
    case RuntimeFailure(outcome) =>
      var u :| Ensured(c.mid, q, c.s, outcome, u) &&
               w' == if c.setup.created && !outcome.OnCreateFailed? then u.(workspaces := u.workspaces - {c.k}) else u;
      EnsuredKeeps(c.mid, q, c.s, outcome, u);
      if c.setup.created && !outcome.OnCreateFailed? {
        CreatedNotRefused(w, q, c.setup, c.mid, c.s, outcome, u);
        ForgetKeeps(u, c.k);
      }
    case _ =>
  }

  lemma CurrentAfterSetUp(w: World, k: Key, setup: Setup, v: World, maxPerUser: int, lifetime: int, now: int)
    requires SetUpEffect(w, k, setup, v)
    ensures setup.SetUp? ==> Current(v, Request(k, setup.workspace, maxPerUser, lifetime, now))
  {
  }

  lemma CreatedNotRefused(w: World, q: Request, setup: Setup, v: World, s: Stages, outcome: Outcome, u: World)
    requires setup.SetUp? && setup.created && SetUpEffect(w, q.key, setup, v) && q.workspace == setup.workspace
    requires Ensured(v, q, s, outcome, u)
    ensures outcome != RefusedPreserved
  {
  }

  lemma StepKeeps(w: World, c: Command, w': World)
    requires Inv(w) && Step(w, c, w')
    ensures Inv(w')
  {
    hide Inv, CreateTried, Ensured, Disconnected, Ended, SwitchTried, RemoveTried, Cleaned, HookEffect, Slimmer, Current;
    match c
    case Creating(_, _, _, _, _, _, _, _, _, _, _) => CreateKeeps(w, c, w');
    case Attaching(q, s, outcome) => EnsuredKeeps(w, q, s, outcome, w');
    case Detaching(k, mode, gracePeriod, now) => DisconnectKeeps(w, k, mode, gracePeriod, now, w');
    case Stopping(k) => EndKeeps(w, k, w');
    case Switching(k, branch, told, git, ok) => SwitchKeeps(w, k, branch, told, git, ok, w');
    case Removing(k, force, told, directory, ok) => RemoveKeeps(w, k, force, told, directory, ok, w');
    case Cleaning(now, strays) => CleanupKeeps(w, now, strays, w');
    case NotFound =>
  }

  // ------------------------------------------------------------ the fate of a workspace

  /** The command ran on_create successfully for the workspace. */
  predicate Succeeds(c: Command, k: Key) {
    match c
    case Creating(k', req, _, _, _, _, _, s, result, setup, _) =>
      k' == k && setup.SetUp? && setup.workspace.Some? && result.Provisioned? && s.hook == Succeeded
    case Attaching(q, s, _) => q.key == k && q.workspace.Some? && s.hook == Succeeded
    case _ => false
  }

  /** The command makes the workspace anew or switches its branch. */
  predicate Resets(c: Command, k: Key) {
    match c
    case Creating(k', _, _, _, _, _, _, _, _, setup, _) => k' == k && setup.SetUp? && setup.created
    case Switching(k', _, _, _, ok) => k' == k && ok
    case _ => false
  }

  predicate CreatesOrRemoves(c: Command, k: Key) {
    (c.Creating? && c.k == k) || (c.Removing? && c.k == k && c.ok)
  }

  /** on_create succeeds only on an uninitialized workspace, and that alone initializes it. */
  ghost predicate Tallied(w: World, k: Key, succeeds: bool, w': World) {
    (k !in w.workspaces ==> k !in w'.workspaces && !succeeds) &&
    (k in w.workspaces && succeeds ==> !w.workspaces[k].initialized) &&
    (k in w.workspaces && k in w'.workspaces ==>
      w'.workspaces[k].initialized == (w.workspaces[k].initialized || succeeds))
  }

  ghost predicate IsPreserved(w: World, k: Key) {
    k in w.workspaces && w.workspaces[k].state == Preserved
  }

  lemma HookFate(w: World, q: Request, s: Stages, outcome: Outcome, w': World, k: Key)
    requires Current(w, q) && Ensured(w, q, s, outcome, w') && HookEffect(w, q, s, w')
    ensures Tallied(w, k, q.key == k && q.workspace.Some? && s.hook == Succeeded, w')
    ensures IsPreserved(w, k) ==> IsPreserved(w', k)
    ensures !outcome.Ready? ==> s.hook != Succeeded
  {
    hide Attached, Reconciled, Settled, Destroyed;
    assert s.hook != NotRun ==> Hooked(s.attached, q.key, q.workspace, s.hook, s.head,
                                       if outcome == OnCreateFailed then s.hooked else w');
  }

  lemma CreateFate(w: World, c: Command, w': World, k: Key)
    requires Inv(w) && c.Creating? && Step(w, c, w')
    ensures !Resets(c, k) ==> Tallied(w, k, Succeeds(c, k), w')
    ensures c.k != k && IsPreserved(w, k) ==> IsPreserved(w', k)
  {
    hide Inv, FlowSetUp, Ensured, HookEffect;
    SetUpKeeps(w, c.k, c.req, c.told, c.clone, c.now, c.setup, c.mid);
    CurrentAfterSetUp(w, c.k, c.setup, c.mid, c.maxPerUser, c.lifetime, c.now);
    var q := Request(c.k, if c.setup.SetUp? then c.setup.workspace else None, c.maxPerUser, c.lifetime, c.now);
    match c.result
    case Provisioned =>
      var isNew :| Ensured(c.mid, q, c.s, Ready(isNew), w');
      EnsuredKeeps(c.mid, q, c.s, Ready(isNew), w');
      HookFate(c.mid, q, c.s, Ready(isNew), w', k);
    case RuntimeFailure(outcome) =>
      var u :| Ensured(c.mid, q, c.s, outcome, u) &&
               w' == if c.setup.created && !outcome.OnCreateFailed? then u.(workspaces := u.workspaces - {c.k}) else u;
      EnsuredKeeps(c.mid, q, c.s, outcome, u);
      HookFate(c.mid, q, c.s, outcome, u, k);
    case _ =>
  }

  lemma Fate(w: World, c: Command, w': World, k: Key)
    requires Inv(w) && Step(w, c, w')
    ensures !Resets(c, k) ==> Tallied(w, k, Succeeds(c, k), w')
    ensures !CreatesOrRemoves(c, k) && IsPreserved(w, k) ==> IsPreserved(w', k)
  {
    hide Inv, CreateTried, Ensured, Disconnected, Ended, SwitchTried, RemoveTried, Cleaned, HookEffect, Current;
    match c
    case Creating(_, _, _, _, _, _, _, _, _, _, _) => CreateFate(w, c, w', k);
    case Attaching(q, s, outcome) =>
      EnsuredKeeps(w, q, s, outcome, w');
      HookFate(w, q, s, outcome, w', k);
    case Detaching(l, mode, gracePeriod, now) => DisconnectKeeps(w, l, mode, gracePeriod, now, w');
    case Stopping(l) => EndKeeps(w, l, w');
    case Switching(l, branch, told, git, ok) => SwitchKeeps(w, l, branch, told, git, ok, w');
    case Removing(l, force, told, directory, ok) => RemoveKeeps(w, l, force, told, directory, ok, w');
    case Cleaning(now, strays) => CleanupKeeps(w, now, strays, w');
    case NotFound =>
  }

  // --------------------------------------------------------------------- whole runs

  const NEW_MACHINE := World(map[], map[], map[], 0, Engine(map[], {}, 0, {}, {}, 0, 0))

  lemma NothingYet()
    ensures Inv(NEW_MACHINE)
  {
  }

  /** Every state of every run keeps the books and the workspaces in order. */
  lemma {:induction false} RunKeeps(ws: seq<World>, cs: seq<Command>, i: nat)
    requires Run(ws, cs) && Inv(ws[0]) && i <= |cs|
    ensures Inv(ws[i])
  {
    hide Inv, Step;
    if i > 0 {
      RunKeeps(ws, cs, i - 1);
      StepKeeps(ws[i - 1], cs[i - 1], ws[i]);
    }
  }

  /**
   Conservation: at every point of every run that starts on a new machine, a container or network that
   has not been given up exists exactly if a session records it, and no two sessions record the same one.
   */
  lemma Conservation(ws: seq<World>, cs: seq<Command>, i: nat)
    requires Run(ws, cs) && ws[0] == NEW_MACHINE && i <= |cs|
    ensures var w := ws[i];
            (forall id :: id in w.engine.containers && id !in w.engine.abandoned <==>
                          exists k :: k in w.rows && id in Owned(PrintOf(w.rows[k]))) &&
            (forall n :: n in w.engine.networks && n !in w.engine.abandonedNets <==>
                         exists k :: k in w.rows && n == w.rows[k].networkId) &&
            (forall k, l :: k in w.rows && l in w.rows && k != l ==>
                            Owned(PrintOf(w.rows[k])) !! Owned(PrintOf(w.rows[l])) &&
                            w.rows[k].networkId != w.rows[l].networkId)
  {
    hide Step, Conserved, Owned, PrintOf, WorkspacesOk;
    NothingYet();
    RunKeeps(ws, cs, i);
    ConservedExactly(ws[i]);
    forall k, l | k in ws[i].rows && l in ws[i].rows && k != l
      ensures Owned(PrintOf(ws[i].rows[k])) !! Owned(PrintOf(ws[i].rows[l]))
      ensures ws[i].rows[k].networkId != ws[i].rows[l].networkId
    {
      ConservedDisjoint(ws[i], k, l);
    }
  }

  /** How many service containers a command left behind. */
  function LeftBy(c: Command): nat {
    match c
    case Creating(_, _, _, _, _, _, _, _, result, _, _) => if result.RuntimeFailure? then LeftOf(result.outcome) else 0
    case Attaching(_, _, outcome) => LeftOf(outcome)
    case _ => 0
  }

  /** Giving something up takes a removal that failed or a service left behind. */
  ghost predicate GivesUpFor(a: Engine, left: nat, b: Engine) {
    b.left == a.left + left && a.botched <= b.botched && (Tidy(a, b) ==> NothingLost(a, b))
  }

  lemma ReasonsAddUp(a: Engine, l: nat, b: Engine, m: nat, c: Engine)
    requires GivesUpFor(a, l, b) && GivesUpFor(b, m, c)
    ensures GivesUpFor(a, l + m, c)
  {
  }

  lemma DestroyReason(w: World, row: Row, w': World)
    requires Destroyed(w, row, w')
    ensures GivesUpFor(w.engine, 0, w'.engine)
  {
    hide Matched, Refs, PrintOf, Nets;
  }

  lemma AttachReason(w: World, q: Request, r: Attachment, w': World)
    requires Attached(w, q, r, w')
    ensures GivesUpFor(w.engine, if r.NotProvisioned? then LeftBehind(r.failure) else 0, w'.engine)
  {
    hide ContainersGrown, NetworksGrown, EngineOk, Full, PrintOf, Owned;
  }

  lemma EnsureReason(w: World, q: Request, s: Stages, outcome: Outcome, w': World)
    requires Ensured(w, q, s, outcome, w')
    ensures GivesUpFor(w.engine, LeftOf(outcome), w'.engine)
  {
    hide Attached, Destroyed, Overdue, Matched, GivesUpFor, LeftBehind, WithInitialized, WithPreserved, Counted;
    Unchanged(w.engine);
    if outcome != RefusedPreserved {
      if s.reaped != w {
        DestroyReason(w, w.rows[q.key], s.reaped);
      }
      assert GivesUpFor(w.engine, 0, s.settled.engine);
      match outcome
      case NotAttached(why) =>
        AttachReason(s.settled, q, why, w');
        ReasonsAddUp(w.engine, 0, s.settled.engine, LeftOf(outcome), w'.engine);
      case Ready(isNew) =>
        AttachReason(s.settled, q, if isNew then Created else Reattached, if isNew then s.attached else w');
        ReasonsAddUp(w.engine, 0, s.settled.engine, 0, w'.engine);
      case OnCreateFailed =>
        AttachReason(s.settled, q, Created, s.attached);
        ReasonsAddUp(w.engine, 0, s.settled.engine, 0, s.hooked.engine);
        DestroyReason(s.hooked, s.hooked.rows[q.key], w');
        ReasonsAddUp(w.engine, 0, s.hooked.engine, 0, w'.engine);
    }
  }

  lemma Unchanged(a: Engine)
    ensures GivesUpFor(a, 0, a)
  {
  }

  lemma CreateReason(w: World, c: Command, w': World)
    requires c.Creating? && Step(w, c, w')
    ensures GivesUpFor(w.engine, LeftBy(c), w'.engine)
  {
    hide Ensured, Settled, GivesUpFor;
    assert c.mid.engine == w.engine by {
      SetUpSameEngine(w, c.k, c.req, c.told, c.clone, c.now, c.setup, c.mid);
    }
    Unchanged(w.engine);
    match c.result
    case Provisioned =>
      var q := Request(c.k, c.setup.workspace, c.maxPerUser, c.lifetime, c.now);
      var isNew :| Ensured(c.mid, q, c.s, Ready(isNew), w');
      EnsureReason(c.mid, q, c.s, Ready(isNew), w');
    case RuntimeFailure(outcome) =>
      var q := Request(c.k, c.setup.workspace, c.maxPerUser, c.lifetime, c.now);
      var u :| Ensured(c.mid, q, c.s, outcome, u) &&
               w' == if c.setup.created && !outcome.OnCreateFailed? then u.(workspaces := u.workspaces - {c.k}) else u;
      EnsureReason(c.mid, q, c.s, outcome, u);
    case _ =>
  }

  lemma SetUpSameEngine(w: World, k: Key, req: CreateRequest, told: bool, clone: Option<Clone>, now: int, setup: Setup, v: World)
    requires FlowSetUp(w, k, req, told, clone, now, setup, v)
    ensures v.engine == w.engine
  {
    hide Matched;
  }

  /** No command gives anything up without such a reason, and it leaves behind what its outcome says. */
  lemma StepReason(w: World, c: Command, w': World)
    requires Step(w, c, w')
    ensures GivesUpFor(w.engine, LeftBy(c), w'.engine)
  {
    hide CreateTried, Ensured, Shrunk, GivesUpFor, Matched, PrintOf, Refs, Nets, TrackedBy, Orphans, RowRefs, RowNets, Expired;
    Unchanged(w.engine);
    match c
    case Creating(_, _, _, _, _, _, _, _, _, _, _) => CreateReason(w, c, w');
    case Attaching(q, s, outcome) => EnsureReason(w, q, s, outcome, w');
    case Detaching(k, mode, gracePeriod, now) =>
      if k in w.rows && w'.engine != w.engine {
        DestroyReason(w.(rows := w.rows[k := Spawn.Detach(w.rows[k])]), Spawn.Detach(w.rows[k]), w');
      }
    case Stopping(k) =>
      if k in w.rows {
        DestroyReason(w, w.rows[k], w');
      }
    case Switching(k, branch, told, git, ok) =>
    case Removing(k, force, told, directory, ok) => RemoveReason(w, c, w');
    case Cleaning(now, strays) =>
      PassReason(w, now, strays, w');
    case NotFound =>
  }

  lemma PassReason(w: World, now: int, strays: set<string>, w': World)
    requires Cleaned(w, now, strays, w')
    ensures GivesUpFor(w.engine, 0, w'.engine)
  {
    hide Matched, TrackedBy, Orphans, RowRefs, RowNets, Expired;
  }

  lemma RemoveReason(w: World, c: Command, w': World)
    requires c.Removing? && Step(w, c, w')
    ensures GivesUpFor(w.engine, 0, w'.engine)
  {
    hide Shrunk, GivesUpFor, Matched, PrintOf, Refs, Nets, Ephemeral;
    Unchanged(w.engine);
    if !Ephemeral(c.k.project) && c.k in w.workspaces {
      var v, u :|
        Settled(w, c.k, c.told, v) &&
        if c.k in v.rows && (!c.told || !c.force) then !c.ok && w' == v
        else Ended(v, c.k, u) && c.ok == c.directory && w' == if c.ok then u.(workspaces := u.workspaces - {c.k}) else u;
      if u.engine != v.engine && w' != v {
        DestroyReason(v, v.rows[c.k], u);
      }
    }
  }

  /** Up to this point of the run no removal has failed and no service has been left behind. */
  ghost predicate Unfailing(ws: seq<World>, cs: seq<Command>, i: nat)
    requires Run(ws, cs) && i <= |cs|
  {
    ws[i].engine.botched == 0 && forall j :: 0 <= j < i ==> LeftBy(cs[j]) == 0
  }

  lemma {:induction false} NothingGivenUp(ws: seq<World>, cs: seq<Command>, i: nat)
    requires Run(ws, cs) && ws[0] == NEW_MACHINE && i <= |cs| && Unfailing(ws, cs, i)
    ensures ws[i].engine.abandoned == {} && ws[i].engine.abandonedNets == {} && ws[i].engine.left == 0
  {
    hide Step, LeftBy;
    if i > 0 {
      StepReason(ws[i - 1], cs[i - 1], ws[i]);
      NothingGivenUp(ws, cs, i - 1);
    }
  }

  /** Containers and networks are exactly what the sessions record. */
  ghost predicate Exact(w: World) {
    w.engine.containers.Keys == (set k, id | k in w.rows && id in Owned(PrintOf(w.rows[k])) :: id) &&
    w.engine.networks == set k | k in w.rows :: w.rows[k].networkId
  }

  /** As long as removals succeed and no start of services leaves some behind, nothing leaks. */
  lemma ExactConservation(ws: seq<World>, cs: seq<Command>, i: nat)
    requires Run(ws, cs) && ws[0] == NEW_MACHINE && i <= |cs| && Unfailing(ws, cs, i)
    ensures Exact(ws[i])
  {
    hide Step, Owned, PrintOf, LeftBy;
    Conservation(ws, cs, i);
    NothingGivenUp(ws, cs, i);
  }

  /** A session created for a workspace has it at every point of every run, and it is never a preserved one. */
  lemma LinksHold(ws: seq<World>, cs: seq<Command>, i: nat, k: Key)
    requires Run(ws, cs) && ws[0] == NEW_MACHINE && i <= |cs| && k in ws[i].rows && ws[i].rows[k].workspaceId.Some?
    ensures k in ws[i].workspaces && ws[i].workspaces[k].id == ws[i].rows[k].workspaceId.value
    ensures ws[i].workspaces[k].state == Active
  {
    hide Step, Conserved;
    NothingYet();
    RunKeeps(ws, cs, i);
    assert LinkOk(ws[i].rows[k], ws[i].workspaces, k);
  }

  /** A head commit is recorded only for an initialized workspace, and a preserved one is uninitialized. */
  lemma HeadImpliesInitialized(ws: seq<World>, cs: seq<Command>, i: nat, k: Key)
    requires Run(ws, cs) && ws[0] == NEW_MACHINE && i <= |cs| && k in ws[i].workspaces
    ensures ws[i].workspaces[k].headCommit != "" ==> ws[i].workspaces[k].initialized
    ensures ws[i].workspaces[k].state == Preserved ==> !ws[i].workspaces[k].initialized
  {
    hide Step, Conserved;
    NothingYet();
    RunKeeps(ws, cs, i);
    assert WorkspaceOk(ws[i].workspaces[k], ws[i].created, k);
  }

  /** Only a create of that machine or its removal ends being preserved. */
  lemma {:induction false} PreservedUntilCreated(ws: seq<World>, cs: seq<Command>, k: Key)
    requires Run(ws, cs) && Inv(ws[0]) && IsPreserved(ws[0], k)
    requires forall i :: 0 <= i < |cs| ==> !CreatesOrRemoves(cs[i], k)
    ensures IsPreserved(ws[|cs|], k)
  {
    hide Inv, Step, IsPreserved, CreatesOrRemoves;
    if cs != [] {
      Fate(ws[0], cs[0], ws[1], k);
      StepKeeps(ws[0], cs[0], ws[1]);
      assert CreatesOrRemoves(cs[0], k) == false;
      Tail(ws, cs);
      PreservedUntilCreated(ws[1..], cs[1..], k);
    }
  }

  lemma Tail(ws: seq<World>, cs: seq<Command>)
    requires Run(ws, cs) && cs != []
    ensures Run(ws[1..], cs[1..]) && Step(ws[0], cs[0], ws[1])
    ensures ws[1..][0] == ws[1] && ws[1..][|cs| - 1] == ws[|cs|]
    ensures forall i :: 0 <= i < |cs| - 1 ==> cs[1..][i] == cs[i + 1]
  {
    hide Step;
    forall i | 0 <= i < |cs| - 1
      ensures Step(ws[1..][i], cs[1..][i], ws[1..][i + 1])
    {
      assert Step(ws[i + 1], cs[i + 1], ws[i + 2]);
    }
  }

  function Successes(cs: seq<Command>, k: Key): nat {
    if cs == [] then 0 else (if Succeeds(cs[0], k) then 1 else 0) + Successes(cs[1..], k)
  }

  /**
   Between two resets on_create succeeds at most once, however often the machine is stopped and started,
   and not at all on an initialized workspace.
   */
  lemma {:induction false} OnCreateAtMostOnce(ws: seq<World>, cs: seq<Command>, k: Key)
    requires Run(ws, cs) && Inv(ws[0]) && forall i :: 0 <= i < |cs| ==> !Resets(cs[i], k)
    ensures Successes(cs, k) <= 1
    ensures k !in ws[0].workspaces || ws[0].workspaces[k].initialized ==> Successes(cs, k) == 0
    ensures k in ws[0].workspaces && k in ws[|cs|].workspaces ==>
              (ws[|cs|].workspaces[k].initialized <==> ws[0].workspaces[k].initialized || Successes(cs, k) == 1)
    ensures k !in ws[0].workspaces ==> k !in ws[|cs|].workspaces
  {
    hide Inv, Step, Resets, Succeeds;
    if cs != [] {
      assert !Resets(cs[0], k);
      Tail(ws, cs);
      Fate(ws[0], cs[0], ws[1], k);
      StepKeeps(ws[0], cs[0], ws[1]);
      OnCreateAtMostOnce(ws[1..], cs[1..], k);
    }
  }

  // --------------------------------------------------------- the methods make such runs

  /**
   What somebody may ask for; `git`, `clone`, `disk` and `directory` are what lies outside answers. In server
   mode (`local` false) attaching goes straight to the container.
   */
  datatype Order =
    | Create(client: Client, req: CreateRequest, clone: Option<Clone>, disk: Project)
    | Shell(client: Client, local: bool, disk: Project)
    | Disconnect(client: Client)
    | End(k: Key)
    | SwitchBranch(k: Key, branch: string, git: bool)
    | Remove(k: Key, force: bool, directory: bool)
    | CleanupPass

  /** The order is for a project whose services can leave some behind. */
  ghost predicate LeakyOrder(order: Order) {
    match order
    case Create(client, _, _, disk) => Leaky(client.project) || Leaky(Some(disk))
    case Shell(client, _, disk) => Leaky(client.project) || Leaky(Some(disk))
    case _ => false
  }

  method Perform(store: FakeStore, rt: FakeRuntime, order: Order, now: int) returns (ghost c: Command)
    requires rt.Valid() && Keyed(store.sessions) && KeyedWorkspaces(store.workspaces)
    modifies store, rt
    ensures rt.Valid() && Step(old(Snap(store, rt)), c, Snap(store, rt))
    ensures LeftBy(c) > 0 ==> LeakyOrder(order)
  {
    hide EngineOk, Justified, CreateTried, Ensured, Disconnected, Ended, SwitchTried, RemoveTried, Cleaned, Leaky, LeftOf,
      LeavesExactly;
    match order
    case Create(client, req, clone, disk) =>
      var tpl := new Session(client);
      ghost var setup, told, s, mid;
      var result;
      result, setup, told, s, mid := Sessions.Create(store, rt, tpl, req, clone, disk, now);
      c := Creating(Target(client.user, client.name, req), req, told, clone, client.maxPerUser, client.maxLifetime, now, s, result, setup, mid);
    case Shell(client, local, disk) =>
      var tpl := new Session(client);
      ghost var q := Request(tpl.At(), if local then store.GetWorkspace(tpl.At()) else None, client.maxPerUser,
                             client.maxLifetime, now);
      ghost var s;
      var outcome;
      outcome, s := Sessions.Shell(store, rt, tpl, local, disk, now);
      c := if outcome.Some? then Attaching(q, s, outcome.value) else NotFound;
    case Disconnect(client) =>
      var session := new Session(client);
      session.Disconnect(store, rt, now);
      c := Detaching(Key(client.user, client.name), client.mode, client.gracePeriod, now);
    case End(k) =>
      var _ := Sessions.End(store, rt, k);
      c := Stopping(k);
    case SwitchBranch(k, branch, git) =>
      ghost var told;
      var ok;
      ok, told := Sessions.SwitchBranch(store, rt, k, branch, git);
      c := Switching(k, branch, told, git, ok);
    case Remove(k, force, directory) =>
      ghost var told;
      var ok;
      ok, told := Sessions.Remove(store, rt, k, force, directory);
      c := Removing(k, force, told, directory, ok);
    case CleanupPass =>
      ghost var strays, reaped;
      var graced, expired, orphans;
      graced, expired, orphans, strays, reaped := RunOnce(store, rt, now);
      c := Cleaning(now, strays);
  }

  lemma InvGives(w: World)
    requires Inv(w)
    ensures Keyed(w.rows) && KeyedWorkspaces(w.workspaces)
  {
    forall k | k in w.workspaces
      ensures Key(w.workspaces[k].user, w.workspaces[k].name) == k
    {
      assert WorkspaceOk(w.workspaces[k], w.created, k);
    }
  }

  lemma {:induction false} BotchedGrows(ws: seq<World>, cs: seq<Command>, i: nat, j: nat)
    requires Run(ws, cs) && i <= j <= |cs|
    ensures ws[i].engine.botched <= ws[j].engine.botched
  {
    hide Step;
    if i < j {
      BotchedGrows(ws, cs, i, j - 1);
      StepReason(ws[j - 1], cs[j - 1], ws[j]);
    }
  }

  /** A run of orders that leak nothing, in which no removal fails, leaks nothing at any point. */
  lemma OrdersExact(ws: seq<World>, cs: seq<Command>, orders: seq<Order>)
    requires Run(ws, cs) && ws[0] == NEW_MACHINE && |orders| == |cs| && ws[|cs|].engine.botched == 0
    requires forall i :: 0 <= i < |cs| ==> (LeftBy(cs[i]) > 0 ==> LeakyOrder(orders[i])) && !LeakyOrder(orders[i])
    ensures forall i :: 0 <= i < |ws| ==> Exact(ws[i])
  {
    hide Step, LeftBy, LeakyOrder, Exact;
    forall i | 0 <= i < |ws|
      ensures Exact(ws[i])
    {
      BotchedGrows(ws, cs, i, |cs|);
      ExactConservation(ws, cs, i);
    }
  }

  /**
   Any script of orders, whatever the runtime and the database answer, makes a run and keeps everything in
   order. On a new machine, if no removal fails and the projects' services cannot leak, containers and
   networks are after every order exactly those of the sessions.
   */
  method Replay(store: FakeStore, rt: FakeRuntime, orders: seq<Order>, clock: nat -> int)
    returns (ghost ws: seq<World>, ghost cs: seq<Command>)
    requires rt.Valid() && Inv(Snap(store, rt))
    modifies store, rt
    ensures rt.Valid()
    ensures |cs| == |orders| && Run(ws, cs) && ws[0] == old(Snap(store, rt)) && ws[|cs|] == Snap(store, rt)
    ensures forall i :: 0 <= i < |ws| ==> Inv(ws[i])
    ensures old(Snap(store, rt)) == NEW_MACHINE && rt.botched == 0 && (forall i :: 0 <= i < |orders| ==> !LeakyOrder(orders[i])) ==>
              forall i :: 0 <= i < |ws| ==> Exact(ws[i])
  {
    hide Inv, Step, EngineOk, Justified, LeftBy, LeakyOrder, Exact;
    ws, cs := [Snap(store, rt)], [];
    for i := 0 to |orders|
      invariant rt.Valid()
      invariant |cs| == i && Run(ws, cs) && ws[0] == old(Snap(store, rt)) && ws[i] == Snap(store, rt)
      invariant forall j :: 0 <= j < |ws| ==> Inv(ws[j])
      invariant forall j :: 0 <= j < i ==> (LeftBy(cs[j]) > 0 ==> LeakyOrder(orders[j]))
    {
      InvGives(ws[i]);
      ghost var c := Perform(store, rt, orders[i], clock(i));
      StepKeeps(ws[i], c, Snap(store, rt));
      ws, cs := ws + [Snap(store, rt)], cs + [c];
    }
    if ws[0] == NEW_MACHINE && rt.botched == 0 && forall i :: 0 <= i < |orders| ==> !LeakyOrder(orders[i]) {
      OrdersExact(ws, cs, orders);
    }
  }
}
