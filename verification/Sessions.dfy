/**
 The commands on named machines: create, shell, stop, rm and switch-branch. Cloning, checking out and
 deleting directories are represented by what they answer.
 */
module Sessions {
  import opened Options
  import opened Runtime
  import opened Store
  import opened World
  import opened Cleanup
  import opened Spawn

  datatype CreateRequest = CreateRequest(name: string, projectName: string, branch: string, ephemeral: bool, provision: bool)

  /**
   What a registered project and its clone answer: the branch its own Podfile names, if it is on disk, and the default
   branch of the repository, if that can be told; then the branches that the clone's Podfile names, before and
   after it is followed; and the mode of the workspace. An empty string names no branch.
   */
  datatype Clone = Clone(
    projectBranch: string, defaultBranch: Option<string>, podfileBranch: string, afterCheckout: string, mode: string)

  datatype Setup =
    | SetUp(workspace: Option<Workspace>, created: bool)
    | UnsafeTransition
    | ContainerUnknown
    | CloneFailed

  datatype CreateResult =
    | NotSetUp(setup: Setup)
    | Configured(created: bool)
    | Provisioned
    | RuntimeFailure(outcome: Outcome)

  /** Workspace rows are stored under their owner and name. */
  ghost predicate KeyedWorkspaces(workspaces: map<Key, Workspace>) {
    forall k :: k in workspaces ==> Key(workspaces[k].user, workspaces[k].name) == k
  }

  // -------------------------------------------------------------- what a command does

  ghost predicate NamedSetUp(w: World, k: Key, req: CreateRequest, told: bool, clone: Option<Clone>, now: int, setup: Setup, w': World) {
    if k in w.workspaces then
      var ws := w.workspaces[k];
      if (req.projectName != "" && ws.project != req.projectName) || (req.branch != "" && ws.branch != req.branch)
      then setup == UnsafeTransition && w' == w
      else setup == SetUp(Some(ws.(state := Active)), false) && w' == w.(workspaces := w.workspaces[k := ws.(state := Active)])
    else
      exists v ::
        Settled(w, k, told, v) &&
        if k in v.rows then setup == (if told then UnsafeTransition else ContainerUnknown) && w' == v
        else if req.projectName == "" then setup == SetUp(None, false) && w' == v
        else if clone.None? then setup == CloneFailed && w' == v
        else
          var ws := NewWorkspace(v.nextId, k, req, clone.value, now);
          setup == SetUp(Some(ws), true) && w' == Registered(v, k, ws)
  }

  /** The branch to clone. */
  function ProjectBranch(asked: string, clone: Clone): string {
    if asked != "" then asked
    else if clone.projectBranch != "" then clone.projectBranch
    else if clone.defaultBranch.Some? then clone.defaultBranch.value
    else "main"
  }

  /** The branch to record: a Podfile that names another one is followed, unless a branch was asked for. */
  function WorkspaceBranch(asked: string, clone: Clone): string {
    var branch := ProjectBranch(asked, clone);
    if asked != "" || clone.podfileBranch == "" || clone.podfileBranch == branch then branch else clone.afterCheckout
  }

  function NewWorkspace(id: nat, k: Key, req: CreateRequest, clone: Clone, now: int): Workspace {
    Workspace(id, k.user, k.project, req.projectName, WorkspaceBranch(req.branch, clone), clone.mode, now, false, Active, "")
  }

  function Registered(w: World, k: Key, ws: Workspace): World {
    w.(workspaces := w.workspaces[k := ws], created := w.created[k := 0], nextId := w.nextId + 1)
  }

  /** A run from a throw-away clone needs its name to be free. */
  predicate NameInUse(w: World, k: Key) {
    k in w.rows || k in w.workspaces
  }

  function EphemeralSetUp(inUse: bool, clone: Option<Clone>): Setup {
    if inUse then UnsafeTransition else if clone.None? then CloneFailed else SetUp(None, false)
  }

  /** What a request is about: its own name, if it has one. */
  function Target(user: string, current: string, req: CreateRequest): Key {
    Key(user, if req.ephemeral || req.name != "" then req.name else current)
  }

  /** The set-up that goes with the shape of a request. */
  ghost predicate FlowSetUp(w: World, k: Key, req: CreateRequest, told: bool, clone: Option<Clone>, now: int, setup: Setup, w': World) {
    if req.ephemeral && req.projectName != "" then setup == EphemeralSetUp(NameInUse(w, k), clone) && w' == w
    else if !req.ephemeral && req.name != "" then NamedSetUp(w, k, req, told, clone, now, setup, w')
    else setup == SetUp(None, false) && w' == w
  }

  /** Ending a session leaves its workspace alone. */
  ghost predicate Ended(w: World, k: Key, w': World) {
    if k in w.rows then Destroyed(w, w.rows[k], w') else w' == w
  }

  function Switched(w: World, k: Key, branch: string): World {
    if k in w.workspaces then
      w.(workspaces := w.workspaces[k := w.workspaces[k].(branch := branch, initialized := false, headCommit := "")],
         created := w.created[k := 0])
    else w
  }

  /** Switching branches needs a stopped machine. */
  ghost predicate SwitchTried(w: World, k: Key, branch: string, told: bool, git: bool, ok: bool, w': World) {
    if k !in w.workspaces then !ok && w' == w
    else
      exists v ::
        Settled(w, k, told, v) && (ok <==> k !in v.rows && git) &&
        w' == if ok then Switched(v, k, branch) else v
  }

  predicate Ephemeral(name: string) {
    ".tmp-" <= name
  }

  /** Removing needs a stopped machine or force; the workspace row goes last. */
  ghost predicate RemoveTried(w: World, k: Key, force: bool, told: bool, directory: bool, ok: bool, w': World) {
    if Ephemeral(k.project) || k !in w.workspaces then !ok && w' == w
    else
      exists v, u ::
        Settled(w, k, told, v) &&
        if k in v.rows && (!told || !force) then !ok && w' == v
        else Ended(v, k, u) && ok == directory && w' == if ok then u.(workspaces := u.workspaces - {k}) else u
  }

  /** A create command: its set-up, then, if wanted, the container; a new workspace is taken back unless a hook failed. */
  ghost predicate CreateTried(w: World, k: Key, req: CreateRequest, told: bool, clone: Option<Clone>,
                              maxPerUser: int, lifetime: int, now: int, s: Stages, result: CreateResult, setup: Setup, v: World, w': World)
  {
    FlowSetUp(w, k, req, told, clone, now, setup, v) &&
    match result
    case NotSetUp(why) => why == setup && !setup.SetUp? && w' == v
    case Configured(created) => setup.SetUp? && !req.provision && created == setup.created && w' == v
    case Provisioned =>
      setup.SetUp? && req.provision &&
      exists isNew :: Ensured(v, Request(k, setup.workspace, maxPerUser, lifetime, now), s, Ready(isNew), w')
    case RuntimeFailure(outcome) =>
      setup.SetUp? && req.provision && !outcome.Ready? &&
      exists u :: Ensured(v, Request(k, setup.workspace, maxPerUser, lifetime, now), s, outcome, u) &&
                  w' == if setup.created && !outcome.OnCreateFailed? then u.(workspaces := u.workspaces - {k}) else u
  }

  // -------------------------------------------------------------------- the commands

  /** Looks up a session and deletes its row if its container is known to be gone. */
  method CheckSession(store: FakeStore, rt: FakeRuntime, k: Key) returns (sess: Option<Row>, told: bool)
    requires rt.Valid()
    modifies store`sessions, rt`calls
    ensures rt.Valid() && Settled(old(Snap(store, rt)), k, told, Snap(store, rt))
    ensures sess == store.GetSession(k) && store.sessions == (if told && sess.None? then old(store.sessions) - {k} else old(store.sessions))
    ensures !told ==> sess.Some?
  {
    sess := store.GetSession(k);
    told := true;
    if sess.Some? {
      var alive := rt.ContainerExists(sess.value.containerName);
      if alive.None? {
        return sess, false;
      }
      if !alive.value {
        store.DeleteSession(k);
        sess := None;
      }
    }
  }

  method ApplyWorkspaceToTemplate(template: Session, workspace: Workspace, disk: Project)
    modifies template`projectName, template`project, template`workspace, template`mode, template`hasPath
    ensures template.projectName == workspace.name && template.workspace == Some(workspace)
    ensures template.project == Some(disk.(mode := workspace.mode)) && template.hasPath
    ensures template.mode == if workspace.mode != "" then workspace.mode else old(template.mode)
  {
    template.projectName := workspace.name;
    template.project := Some(disk.(mode := workspace.mode));
    template.workspace := Some(workspace);
    if workspace.mode != "" {
      template.mode := workspace.mode;
    }
    template.hasPath := true;
  }

  lemma LeakyAnyMode(disk: Project)
    ensures forall mode :: Leaky(Some(disk.(mode := mode))) == Leaky(Some(disk))
  {
  }

  /** The workspace is there: it must fit what is asked for, and is active from now on. */
  method ReuseWorkspace(store: FakeStore, tpl: Session, req: CreateRequest, existing: Workspace, disk: Project) returns (setup: Setup)
    requires store.GetWorkspace(tpl.At()) == Some(existing) && existing.name == tpl.projectName
    modifies tpl`projectName, tpl`project, tpl`workspace, tpl`mode, tpl`hasPath, store`workspaces
    ensures tpl.projectName == old(tpl.projectName)
    ensures if (req.projectName != "" && existing.project != req.projectName) || (req.branch != "" && existing.branch != req.branch)
            then setup == UnsafeTransition && store.workspaces == old(store.workspaces) && tpl.project == old(tpl.project)
            else setup == SetUp(Some(existing.(state := Active)), false) && tpl.workspace == setup.workspace &&
                 tpl.project == Some(disk.(mode := existing.mode)) &&
                 store.workspaces == old(store.workspaces)[tpl.At() := existing.(state := Active)]
  {
    var ws := existing;
    if req.projectName != "" && ws.project != req.projectName {
      return UnsafeTransition;
    }
    if req.branch != "" && ws.branch != req.branch {
      return UnsafeTransition;
    }
    if ws.state == Preserved {
      store.UpdateWorkspace(tpl.At(), (w: Workspace) => w.(state := Active));
      ws := ws.(state := Active);
    }
    ApplyWorkspaceToTemplate(tpl, ws, disk);
    return SetUp(Some(ws), false);
  }

  /** Finds or clones the workspace of a named machine; an explicit create is what ends being preserved. */
  method SetupNamedFlow(store: FakeStore, rt: FakeRuntime, tpl: Session, req: CreateRequest, clone: Option<Clone>, disk: Project, now: int)
    returns (setup: Setup, ghost told: bool)
    requires rt.Valid() && Keyed(store.sessions) && KeyedWorkspaces(store.workspaces)
    requires tpl.projectName == req.name && tpl.workspace.None?
    modifies tpl`projectName, tpl`project, tpl`workspace, tpl`mode, tpl`hasPath
    modifies store`sessions, store`workspaces, store`created, store`nextId, rt`calls
    ensures rt.Valid() && NamedSetUp(old(Snap(store, rt)), old(tpl.At()), req, told, clone, now, setup, Snap(store, rt))
    ensures tpl.projectName == req.name && Keyed(store.sessions) && KeyedWorkspaces(store.workspaces)
    ensures setup.SetUp? ==>
              tpl.workspace == setup.workspace && (setup.workspace.Some? ==> setup.workspace.value.name == req.name) &&
              (setup.created ==> setup.workspace.Some?)
    ensures Leaky(tpl.project) ==> Leaky(Some(disk)) || Leaky(old(tpl.project))
  {
    hide EngineOk, Justified, Settled, Leaky;
    LeakyAnyMode(disk);
    var k := tpl.At();
    told := false;
    var existing := store.GetWorkspace(k);
    if existing.Some? {
      setup := ReuseWorkspace(store, tpl, req, existing.value, disk);
      return;
    }
    var sess, known := CheckSession(store, rt, k);
    told := known;
    ghost var v := Snap(store, rt);
    if !known {
      return ContainerUnknown, told;
    }
    if sess.Some? {
      return UnsafeTransition, told;
    }
    if req.projectName == "" {
      return SetUp(None, false), told;
    }
    if clone.None? {
      return CloneFailed, told;
    }
    var stored := store.CreateWorkspace(NewWorkspace(0, k, req, clone.value, now));
    ApplyWorkspaceToTemplate(tpl, stored.value, disk);
    assert Snap(store, rt) == Registered(v, k, stored.value);
    return SetUp(stored, true), told;
  }

  /** Records no workspace; the template is to run from the clone. */
  method SetupEphemeralFlow(store: FakeStore, tpl: Session, clone: Option<Clone>, disk: Project) returns (setup: Setup)
    modifies tpl`project, tpl`hasPath
    ensures setup == EphemeralSetUp(tpl.At() in store.sessions || tpl.At() in store.workspaces, clone)
    ensures tpl.project == (if setup.SetUp? then Some(disk) else old(tpl.project)) && tpl.hasPath == (setup.SetUp? || old(tpl.hasPath))
  {
    if store.GetSession(tpl.At()).Some? {
      return UnsafeTransition;
    }
    if store.GetWorkspace(tpl.At()).Some? {
      return UnsafeTransition;
    }
    if clone.None? {
      return CloneFailed;
    }
    tpl.project := Some(disk);
    tpl.hasPath := true;
    return SetUp(None, false);
  }

  method RollbackCreate(store: FakeStore, tpl: Session)
    requires tpl.workspace.Some? ==> tpl.workspace.value.name == tpl.projectName
    modifies store`workspaces
    ensures store.workspaces == if tpl.workspace.Some? then old(store.workspaces) - {tpl.At()} else old(store.workspaces)
  {
    if tpl.workspace.Some? {
      store.DeleteWorkspace(Key(tpl.username, tpl.workspace.value.name));
    }
  }

  /** Drives a configured template, and says what a leak takes. */
  method ProvisionTemplate(store: FakeStore, rt: FakeRuntime, tpl: Session, now: int) returns (outcome: Outcome, ghost s: Stages)
    requires rt.Valid() && Keyed(store.sessions) && (tpl.workspace.Some? ==> tpl.workspace.value.name == tpl.projectName)
    modifies tpl`mode, tpl`podfile, tpl`sessionId, tpl`containerId, tpl`workspace
    modifies store`sessions, store`nextId, store`workspaces, store`created, rt
    ensures rt.Valid() && Keyed(store.sessions)
    ensures Ensured(old(Snap(store, rt)), old(tpl.Asks(now)), s, outcome, Snap(store, rt))
    ensures SameWorkspace(tpl.workspace, old(tpl.workspace)) && (LeftOf(outcome) > 0 ==> Leaky(tpl.project))
  {
    hide Ensured, EngineOk, Justified, Explained, Leaky;
    outcome, s := tpl.Ensure(store, rt, now);
    if LeftOf(outcome) > 0 {
      ExplainedLeak(outcome.why.failure, tpl.project, ContainerName(tpl.At()), s.settled.engine.containers.Values, rt.faults,
                    old(rt.calls) + ApproachCalls(old(store.sessions), tpl.At(), now), store.refusals(s.settled.nextId));
    }
  }

  /** The set-up of a create, by the shape of the request. */
  method SetUpFlow(store: FakeStore, rt: FakeRuntime, tpl: Session, req: CreateRequest, clone: Option<Clone>, disk: Project, now: int)
    returns (setup: Setup, ghost told: bool)
    requires rt.Valid() && Keyed(store.sessions) && KeyedWorkspaces(store.workspaces) && tpl.workspace.None?
    modifies tpl, store`sessions, store`workspaces, store`created, store`nextId, rt`calls
    ensures rt.Valid() && Keyed(store.sessions) && tpl.At() == Target(tpl.username, old(tpl.projectName), req)
    ensures FlowSetUp(old(Snap(store, rt)), tpl.At(), req, told, clone, now, setup, Snap(store, rt))
    ensures setup.SetUp? ==>
              tpl.workspace == setup.workspace && (setup.workspace.Some? ==> setup.workspace.value.name == tpl.projectName) &&
              (setup.created ==> setup.workspace.Some?)
    ensures Leaky(tpl.project) ==> Leaky(Some(disk)) || Leaky(old(tpl.project))
  {
    hide EngineOk, Justified, NamedSetUp, Leaky, KeyedWorkspaces;
    told := false;
    if !req.ephemeral && req.name != "" {
      tpl.projectName := req.name;
    } else if req.ephemeral {
      tpl.projectName := req.name;
    }
    if req.ephemeral && req.projectName != "" {
      setup := SetupEphemeralFlow(store, tpl, clone, disk);
      return;
    }
    if !req.ephemeral && req.name != "" {
      setup, told := SetupNamedFlow(store, rt, tpl, req, clone, disk, now);
      return;
    }
    return SetUp(None, false), told;
  }

  method Create(store: FakeStore, rt: FakeRuntime, tpl: Session, req: CreateRequest, clone: Option<Clone>, disk: Project, now: int)
    returns (result: CreateResult, ghost setup: Setup, ghost told: bool, ghost s: Stages, ghost v: World)
    requires rt.Valid() && Keyed(store.sessions) && KeyedWorkspaces(store.workspaces) && tpl.workspace.None?
    modifies tpl, store`sessions, store`workspaces, store`created, store`nextId, rt
    ensures rt.Valid() && Keyed(store.sessions)
    ensures CreateTried(old(Snap(store, rt)), Target(tpl.username, old(tpl.projectName), req), req, told, clone,
                        tpl.maxPerUser, tpl.maxLifetime, now, s, result, setup, v, Snap(store, rt))
    ensures result.RuntimeFailure? && LeftOf(result.outcome) > 0 ==> Leaky(Some(disk)) || Leaky(old(tpl.project))
  {
    hide EngineOk, Justified, Ensured, FlowSetUp, Leaky, KeyedWorkspaces;
    ghost var k := Target(tpl.username, tpl.projectName, req);
    var done;
    done, told := SetUpFlow(store, rt, tpl, req, clone, disk, now);
    setup := done;
    v := Snap(store, rt);
    s := Stages(v, v, false, v, NotRun, None, v);
    if !done.SetUp? {
      return NotSetUp(done), setup, told, s, v;
    }
    if !req.provision {
      return Configured(done.created), setup, told, s, v;
    }
    var outcome;
    ghost var q := tpl.Asks(now);
    outcome, s := ProvisionTemplate(store, rt, tpl, now);
    ghost var u := Snap(store, rt);
    assert Ensured(v, q, s, outcome, u) && q == Request(k, setup.workspace, tpl.maxPerUser, tpl.maxLifetime, now);
    if !outcome.Ready? {
      if done.created && !outcome.OnCreateFailed? {
        RollbackCreate(store, tpl);
      }
      assert Snap(store, rt) == if setup.created && !outcome.OnCreateFailed? then u.(workspaces := u.workspaces - {k}) else u;
      return RuntimeFailure(outcome), setup, told, s, v;
    }
    result := Provisioned;
  }

  /**
   Attaching by name: in local mode the machine's workspace, if it has one, is wired in as it is recorded; in
   server mode the template is used as it is.
   */
  method Shell(store: FakeStore, rt: FakeRuntime, tpl: Session, local: bool, disk: Project, now: int)
    returns (outcome: Option<Outcome>, ghost s: Stages)
    requires rt.Valid() && Keyed(store.sessions) && KeyedWorkspaces(store.workspaces) && tpl.workspace.None?
    modifies tpl, store`sessions, store`workspaces, store`created, store`nextId, rt
    ensures rt.Valid() && Keyed(store.sessions)
    ensures outcome.None? <==> local && old(store.GetWorkspace(tpl.At())).None? && old(store.GetSession(tpl.At())).None?
    ensures outcome.None? ==> Snap(store, rt) == old(Snap(store, rt))
    ensures outcome.Some? ==>
              Ensured(old(Snap(store, rt)),
                      Request(old(tpl.At()), if local then old(store.GetWorkspace(tpl.At())) else None,
                              tpl.maxPerUser, tpl.maxLifetime, now),
                      s, outcome.value, Snap(store, rt))
    ensures outcome.Some? && LeftOf(outcome.value) > 0 ==> Leaky(Some(disk)) || Leaky(old(tpl.project))
  {
    hide EngineOk, Justified, Ensured, Leaky;
    LeakyAnyMode(disk);
    ghost var w := Snap(store, rt);
    s := Stages(w, w, false, w, NotRun, None, w);
    if local {
      var workspace := store.GetWorkspace(tpl.At());
      if workspace.None? && store.GetSession(tpl.At()).None? {
        return None, s;
      }
      if workspace.Some? {
        ApplyWorkspaceToTemplate(tpl, workspace.value, disk);
      }
    }
    var ran;
    ran, s := tpl.Run(store, rt, now);
    outcome := Some(ran);
  }

  /** Stopping takes no lock and leaves the workspace. */
  method End(store: FakeStore, rt: FakeRuntime, k: Key) returns (found: bool)
    requires rt.Valid() && Keyed(store.sessions)
    modifies store`sessions, rt
    ensures rt.Valid() && Keyed(store.sessions)
    ensures found == (k in old(store.sessions)) && Ended(old(Snap(store, rt)), k, Snap(store, rt))
  {
    hide Shrunk, EngineOk, Justified, PrintOf;
    var sess := store.GetSession(k);
    if sess.None? {
      return false;
    }
    DestroySession(store, rt, sess.value);
    found := true;
  }

  /** The branch changes, and the workspace is to be initialized again. */
  method RecordBranch(store: FakeStore, k: Key, branch: string)
    requires k in store.workspaces
    modifies store`workspaces, store`created
    ensures store.workspaces ==
            old(store.workspaces)[k := old(store.workspaces[k]).(branch := branch, initialized := false, headCommit := "")]
    ensures store.created == old(store.created)[k := 0]
  {
    store.UpdateWorkspace(k, (w: Workspace) => w.(branch := branch));
    store.UpdateWorkspace(k, (w: Workspace) => w.(initialized := false));
    store.UpdateWorkspace(k, (w: Workspace) => w.(headCommit := ""));
    store.created := store.created[k := 0];
  }

  method SwitchBranch(store: FakeStore, rt: FakeRuntime, k: Key, branch: string, git: bool) returns (ok: bool, ghost told: bool)
    requires rt.Valid() && Keyed(store.sessions)
    modifies store`sessions, store`workspaces, store`created, rt`calls
    ensures rt.Valid() && Keyed(store.sessions)
    ensures SwitchTried(old(Snap(store, rt)), k, branch, told, git, ok, Snap(store, rt))
  {
    hide EngineOk, Justified;
    told := false;
    var workspace := store.GetWorkspace(k);
    if workspace.None? {
      return false, told;
    }
    var sess, known := CheckSession(store, rt, k);
    told := known;
    ghost var v := Snap(store, rt);
    if !known {
      return false, told;
    }
    if sess.Some? {
      return false, told;
    }
    if !git {
      return false, told;
    }
    RecordBranch(store, k, branch);
    assert Snap(store, rt) == Switched(v, k, branch);
    ok := true;
  }

  method Remove(store: FakeStore, rt: FakeRuntime, k: Key, force: bool, directory: bool) returns (ok: bool, ghost told: bool)
    requires rt.Valid() && Keyed(store.sessions)
    modifies store`sessions, store`workspaces, rt
    ensures rt.Valid() && Keyed(store.sessions)
    ensures RemoveTried(old(Snap(store, rt)), k, force, told, directory, ok, Snap(store, rt))
  {
    hide EngineOk, Justified, Shrunk, PrintOf, Matched;
    told := false;
    if Ephemeral(k.project) {
      return false, told;
    }
    var workspace := store.GetWorkspace(k);
    if workspace.None? {
      return false, told;
    }
    var sess, known := CheckSession(store, rt, k);
    told := known;
    ghost var v := Snap(store, rt);
    if !known {
      return false, told;
    }
    if sess.Some? && !force {
      return false, told;
    }
    if sess.Some? {
      DestroySession(store, rt, sess.value);
    }
    ghost var u := Snap(store, rt);
    assert Ended(v, k, u);
    if !directory {
      return false, told;
    }
    store.DeleteWorkspace(k);
    assert Snap(store, rt) == u.(workspaces := u.workspaces - {k});
    ok := true;
  }
}
