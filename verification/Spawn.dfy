/**
 Attaching to and detaching from a session. The per-user lock around both is left to the model of the
 interleavings; here each command runs by itself.
 */
module Spawn {
  import opened Options
  import opened Lists
  import opened ServiceIds
  import opened Runtime
  import opened Store
  import opened Books
  import opened World
  import opened Services
  import opened Cleanup

  datatype Podfile = Podfile(services: seq<Service>, onCreate: string, onStart: string)

  /**
   A project as found on disk: its Podfile unless reading, parsing or resolving it failed, the tag of
   its image, and whether the image is there or could be built.
   */
  datatype Project = Project(mode: string, podfile: Option<Podfile>, tag: string, imageReady: bool)

  datatype Failure =
    | NetworkNotCreated
    | PodfileUnusable
    | ImageUnavailable
    | ServicesNotStarted(ending: Ending)
    | ContainerNotCreated
    | ContainerNotStarted
    | UserNotSetUp
    | SessionNotRecorded

  /** How many service containers a failure leaves behind. */
  function LeftBehind(f: Failure): nat {
    if f.ServicesNotStarted? && f.ending.MalformedVolume? then f.ending.at else 0
  }

  /** The project's services are such that starting them can leave some behind. */
  ghost predicate Leaky(project: Option<Project>) {
    project.Some? && project.value.podfile.Some? && exists k: nat :: LeakyAt(project.value.podfile.value.services, k)
  }

  function ServiceCount(project: Option<Project>): nat {
    if project.Some? && project.value.podfile.Some? then |project.value.podfile.value.services| else 0
  }

  /** What the creation of the main container, from its first call on, failed of. */
  ghost predicate MainExplained(failure: Failure, name: string, taken: set<string>, faults: nat -> bool, from: nat, refused: bool) {
    match failure
    case ContainerNotCreated => faults(from) || name in taken
    case ContainerNotStarted => Quiet(faults, from, from + 1) && faults(from + 1)
    case UserNotSetUp => Quiet(faults, from, from + 2) && faults(from + 2)
    case SessionNotRecorded => Quiet(faults, from, from + 3) && refused
    case _ => false
  }

  /** The failure names the first step that failed; the creation path makes its calls from `from` on. */
  ghost predicate Explained(failure: Failure, project: Option<Project>, name: string, taken: set<string>, faults: nat -> bool,
                            from: nat, refused: bool)
  {
    match failure
    case NetworkNotCreated => faults(from)
    case PodfileUnusable => !faults(from) && project.Some? && project.value.podfile.None?
    case ImageUnavailable => !faults(from) && project.Some? && project.value.podfile.Some? && !project.value.imageReady
    case ServicesNotStarted(ending) =>
      !faults(from) && project.Some? && project.value.podfile.Some? && project.value.imageReady &&
      ending == Plan(project.value.podfile.value.services, 0, name, taken, faults, from + 1) != Started
    case _ =>
      Quiet(faults, from, from + 1 + 2 * ServiceCount(project)) &&
      MainExplained(failure, name, taken, faults, from + 1 + 2 * ServiceCount(project), refused)
  }

  lemma ExplainedLeak(failure: Failure, project: Option<Project>, name: string, taken: set<string>, faults: nat -> bool,
                      from: nat, refused: bool)
    requires Explained(failure, project, name, taken, faults, from, refused) && LeftBehind(failure) > 0
    ensures Leaky(project)
  {
    LateMalformed(project.value.podfile.value.services, name, taken, faults, from + 1);
  }

  function ContainerName(k: Key): string {
    "podspawn-" + k.user + if k.project != "" then "-" + k.project else ""
  }

  /** The sessions of one user have different names, and those of users without a dash never clash. */
  lemma NamesDistinct(k: Key, l: Key)
    requires k != l && (k.user == l.user || ('-' !in k.user && '-' !in l.user))
    ensures ContainerName(k) != ContainerName(l)
  {
    if ContainerName(k) == ContainerName(l) {
      SplitName(k);
      SplitName(l);
      var a, b := ContainerName(k)[9..], ContainerName(l)[9..];
      assert a == b;
      if k.user != l.user {
        FirstDash(k);
        FirstDash(l);
      }
    }
  }

  /** A name without its first word, and where the user ends. */
  lemma SplitName(k: Key)
    ensures var rest := ContainerName(k)[9..];
            k.user <= rest && (k.project == "" ==> rest == k.user) &&
            (k.project != "" ==> rest == k.user + "-" + k.project && rest[|k.user| + 1..] == k.project)
  {
    assert ContainerName(k) == "podspawn-" + (k.user + if k.project != "" then "-" + k.project else "");
    var rest := ContainerName(k)[9..];
    if k.project != "" {
      assert rest == k.user + "-" + k.project;
      assert rest[|k.user| + 1..] == k.project;
    }
  }

  lemma FirstDash(k: Key)
    requires '-' !in k.user
    ensures var rest := ContainerName(k)[9..];
            ('-' in rest <==> k.project != "") && |k.user| <= |rest| &&
            (k.project != "" ==> |k.user| < |rest| && rest[|k.user|] == '-') &&
            forall i :: 0 <= i < |k.user| ==> rest[i] != '-'
  {
    SplitName(k);
    var rest := ContainerName(k)[9..];
    assert forall i :: 0 <= i < |k.user| ==> rest[i] == k.user[i];
  }

  /** A dash in the name of a user can make it the name of another user's session. */
  lemma NamesClash(user: string, project: string)
    requires project != ""
    ensures ContainerName(Key(user, project)) == ContainerName(Key(user + "-" + project, ""))
  {
    assert "podspawn-" + user + ("-" + project) == "podspawn-" + (user + "-" + project);
  }

  predicate ValidMode(mode: string) {
    mode in {GRACE_PERIOD, DESTROY_ON_DISCONNECT, PERSISTENT}
  }

  /**
   Project before user before workspace before default. An invalid mode counts for nothing, except that of a
   project whose user has no overrides at all.
   */
  predicate Layered(before: string, workspace: Option<Workspace>, userMode: Option<string>, project: Option<Project>, mode: string) {
    var valid := {"grace-period", "destroy-on-disconnect", "persistent"};
    var byProject := project.Some? && project.value.mode != "" && (project.value.mode in valid || userMode.None?);
    var byUser := userMode.Some? && userMode.value in valid;
    var byWorkspace := workspace.Some? && workspace.value.mode != "";
    (byProject ==> mode == project.value.mode) &&
    (!byProject && byUser ==> mode == userMode.value) &&
    (!byProject && !byUser && byWorkspace ==> mode == workspace.value.mode) &&
    (!byProject && !byUser && !byWorkspace ==> mode == before)
  }

  /** No mode is the default one. */
  function RecordedMode(mode: string): string {
    if mode == "" then "grace-period" else mode
  }

  /** The layering is done when a session is created; a client that joins one keeps its own mode. */
  predicate ModeAfter(before: string, workspace: Option<Workspace>, userMode: Option<string>, project: Option<Project>,
                      outcome: Outcome, mode: string)
  {
    match outcome
    case Ready(isNew) => if isNew then Layered(before, workspace, userMode, project, mode) else mode == before
    case OnCreateFailed => Layered(before, workspace, userMode, project, mode)
    case RefusedPreserved => mode == before
    case NotAttached(why) => why.AtCapacity? ==> mode == before
  }

  lemma ModeRefused(mode: string, workspace: Option<Workspace>, userMode: Option<string>, project: Option<Project>)
    ensures ModeAfter(mode, workspace, userMode, project, RefusedPreserved, mode)
  {
  }

  lemma ModeAttached(before: string, workspace: Option<Workspace>, userMode: Option<string>, project: Option<Project>,
                     r: Attachment, failed: bool, mode: string)
    requires r.Created? ==> Layered(before, workspace, userMode, project, mode)
    requires !r.Created? && !r.NotProvisioned? ==> mode == before && !failed
    ensures var outcome := if r.AtCapacity? || r.NotProvisioned? then NotAttached(r)
                           else if failed then OnCreateFailed else Ready(r.Created?);
            ModeAfter(before, workspace, userMode, project, outcome, mode)
  {
  }

  // ------------------------------------------------------------- building on a building

  lemma BuildingTwice(a: Engine, b: Engine, nets: set<string>, c: Engine, ids: set<string>)
    requires EngineOk(a) && EngineOk(b) && Building(a, b, {}, nets) && Building(b, c, ids, {})
    ensures Building(a, c, ids, nets)
  {
    assert forall n :: n in nets ==> MintedNetwork(n, b.minted);
  }

  method DropNetwork(rt: FakeRuntime, networkId: string, ghost a: Engine)
    requires rt.Valid() && EngineOk(a) && Building(a, rt.State(), {}, {networkId})
    modifies rt
    ensures rt.Valid() && Building(a, rt.State(), {}, {}) && rt.minted == old(rt.minted) && rt.left == old(rt.left)
  {
    hide Building, EngineOk, Justified;
    ghost var b := rt.State();
    var ok := rt.RemoveNetwork(networkId);
    BuildingNetwork(a, b, {}, {networkId}, networkId, ok);
    assert {networkId} - {networkId} == {};
  }

  method CleanupServicesAndNetwork(rt: FakeRuntime, serviceIds: seq<string>, networkId: string, ghost a: Engine)
    requires rt.Valid() && EngineOk(a) && networkId != "" && NoDuplicates(serviceIds)
    requires Building(a, rt.State(), ToSet(serviceIds), {networkId})
    modifies rt
    ensures rt.Valid() && Building(a, rt.State(), {}, {}) && rt.minted == old(rt.minted) && rt.left == old(rt.left)
  {
    hide Building, EngineOk, Justified, NoDuplicates;
    assert ToSet(serviceIds) - ToSet(serviceIds) == {};
    if |serviceIds| > 0 {
      StopServices(rt, serviceIds, a, ToSet(serviceIds), {networkId});
    } else {
      assert ToSet(serviceIds) == {};
    }
    if networkId != "" {
      DropNetwork(rt, networkId, a);
    }
  }

  datatype Resolution =
    | Resolved(image: string, networkId: string, serviceIds: seq<string>)
    | Unresolved(failure: Failure)

  ghost predicate ResolvedTo(a: Engine, r: Resolution, b: Engine)
    requires r.Resolved?
  {
    Building(a, b, ToSet(r.serviceIds), {r.networkId}) && NoDuplicates(r.serviceIds) &&
    AllWellFormed(r.serviceIds) && r.networkId != "" && Tidy(a, b)
  }

  /** The last part of resolving a project: the network is there, the services are still to be started. */
  method StartCompanions(rt: FakeRuntime, services: seq<Service>, prefix: string, tag: string, networkId: string, ghost a: Engine)
    returns (r: Resolution)
    requires rt.Valid() && IsName(prefix) && networkId != ""
    requires EngineOk(a) && Building(a, rt.State(), {}, {networkId})
    modifies rt
    ensures rt.Valid()
    ensures r.Resolved? ==> Building(a, rt.State(), ToSet(r.serviceIds), {networkId}) && NoDuplicates(r.serviceIds)
    ensures r.Resolved? ==> AllWellFormed(r.serviceIds) && Tidy(old(rt.State()), rt.State())
    ensures r.Resolved? ==> rt.calls == old(rt.calls) + 2 * |services| && Quiet(rt.faults, old(rt.calls), rt.calls)
    ensures r.Resolved? ==> r.image == tag && r.networkId == networkId && |r.serviceIds| == |services|
    ensures r.Resolved? ==> forall id :: id in r.serviceIds ==> id in rt.containers && rt.containers[id] != prefix
    ensures r.Unresolved? ==>
              Building(a, rt.State(), {}, {}) && rt.left == old(rt.left) + LeftBehind(r.failure) &&
              r.failure.ServicesNotStarted? && r.failure.ending != Started &&
              r.failure.ending == Plan(services, 0, prefix, old(rt.containers.Values), rt.faults, old(rt.calls))
  {
    hide Building, EngineOk, Justified, Plan, WellFormed, GoodVolumes, NoDuplicates, ServiceContainer, LeakyAt;
    ghost var b := rt.State();
    var serviceIds := [];
    EmptyList();
    assert ToSet(serviceIds) == {};
    if |services| > 0 {
      var ending;
      ghost var leaked;
      ending, serviceIds, leaked := StartServices(rt, services, prefix);
      assert serviceIds == [] ==> ToSet(serviceIds) == {};
      BuildingTwice(a, b, {networkId}, rt.State(), ToSet(serviceIds));
      if ending != Started {
        DropNetwork(rt, networkId, a);
        return Unresolved(ServicesNotStarted(ending));
      }
    } else {
      PlanEnd(services, prefix, rt.containers.Values, rt.faults, rt.calls);
    }
    OtherNames(prefix, services);
    return Resolved(tag, networkId, serviceIds);
  }

  lemma OtherNames(prefix: string, services: seq<Service>)
    ensures forall i :: 0 <= i < |services| ==> ServiceContainer(prefix, services[i]) != prefix
  {
    assert forall i :: 0 <= i < |services| ==> |ServiceContainer(prefix, services[i])| > |prefix|;
  }

  // ---------------------------------------------------------------- what a command does

  /** What attaching depends on, apart from the shared state. */
  datatype Request = Request(key: Key, workspace: Option<Workspace>, maxPerUser: int, lifetime: int, now: int)

  datatype Attachment = Reattached | Created | AtCapacity | NotProvisioned(failure: Failure)

  datatype Hook = NotRun | Succeeded | Ignored | Fatal

  datatype Outcome = Ready(isNew: bool) | RefusedPreserved | NotAttached(why: Attachment) | OnCreateFailed

  /** The calls made before a session is created or joined. */
  function ApproachCalls(rows: map<Key, Row>, k: Key, now: int): nat {
    if k !in rows then 0 else if Overdue(rows[k], now) then TeardownCalls(rows[k]) else 1
  }

  function LeftOf(outcome: Outcome): nat {
    if outcome.NotAttached? && outcome.why.NotProvisioned? then LeftBehind(outcome.why.failure) else 0
  }

  /** The session has outlived its last connection. */
  predicate Overdue(r: Row, now: int) {
    StaleZero(r) || (r.status == GracePeriod && r.graceExpiry.Some? && r.graceExpiry.value < now)
  }

  ghost predicate Reconciled(w: World, k: Key, now: int, w': World) {
    if k in w.rows && Overdue(w.rows[k], now) then Destroyed(w, w.rows[k], w') else w' == w
  }

  /** A row whose container the runtime knows to be gone is deleted; nothing else it records is touched. */
  ghost predicate Settled(w: World, k: Key, told: bool, w': World) {
    w' == if k in w.rows && told && Matched(w.engine, {w.rows[k].containerName}) == {} then w.(rows := w.rows - {k}) else w
  }

  function Reattach(r: Row): Row {
    r.(status := Running, connections := r.connections + 1,
       graceExpiry := if r.status == GracePeriod then None else r.graceExpiry)
  }

  ghost predicate Attached(w: World, q: Request, r: Attachment, w': World) {
    match r
    case Reattached => q.key in w.rows && w' == w.(rows := w.rows[q.key := Reattach(w.rows[q.key])])
    case AtCapacity => q.key !in w.rows && Full(w.rows, q.key.user, q.maxPerUser) && w' == w
    case NotProvisioned(failure) =>
      q.key !in w.rows && !Full(w.rows, q.key.user, q.maxPerUser) && Undone(w, w') &&
      w'.engine.left == w.engine.left + LeftBehind(failure)
    case Created =>
      q.key !in w.rows && !Full(w.rows, q.key.user, q.maxPerUser) && q.key in w'.rows &&
      Provisioned(w, w'.rows[q.key], w') && w'.rows[q.key].At() == q.key &&
      w'.rows[q.key].containerName == ContainerName(q.key) &&
      w'.rows[q.key].createdAt == q.now && w'.rows[q.key].maxLifetime == q.now + q.lifetime &&
      w'.rows[q.key].workspaceId == if q.workspace.Some? then Some(q.workspace.value.id) else None
  }

  function WithInitialized(workspaces: map<Key, Workspace>, k: Key, head: Option<string>): map<Key, Workspace> {
    if k in workspaces then
      var ws := workspaces[k].(initialized := true);
      workspaces[k := if head.Some? then ws.(headCommit := head.value) else ws]
    else workspaces
  }

  function Counted(created: map<Key, nat>, workspaces: map<Key, Workspace>, k: Key): map<Key, nat> {
    if k !in workspaces then created
    else created[k := if k in created then created[k] + 1 else 1]
  }

  function Initialized(w: World, k: Key, head: Option<string>): World {
    w.(workspaces := WithInitialized(w.workspaces, k, head), created := Counted(w.created, w.workspaces, k))
  }

  function WithPreserved(workspaces: map<Key, Workspace>, k: Key): map<Key, Workspace> {
    if k in workspaces then workspaces[k := workspaces[k].(state := Preserved)] else workspaces
  }

  function MarkedPreserved(w: World, k: Key): World {
    w.(workspaces := WithPreserved(w.workspaces, k))
  }

  ghost predicate Hooked(w: World, k: Key, workspace: Option<Workspace>, hook: Hook, head: Option<string>, w': World) {
    (hook != NotRun ==> workspace.None? || !workspace.value.initialized) &&
    w' == if hook == Succeeded && workspace.Some? then Initialized(w, k, head)
          else if hook == Fatal && workspace.Some? then MarkedPreserved(w, k)
          else w
  }

  /** The states a command passes through. */
  datatype Stages = Stages(reaped: World, settled: World, told: bool, attached: World, hook: Hook, head: Option<string>, hooked: World)

  ghost predicate Ensured(w: World, q: Request, s: Stages, outcome: Outcome, w': World) {
    (outcome == RefusedPreserved <==> q.workspace.Some? && q.workspace.value.state == Preserved) &&
    (s.hook != NotRun ==> outcome in {Ready(true), OnCreateFailed}) &&
    if outcome == RefusedPreserved then w' == w
    else
      Reconciled(w, q.key, q.now, s.reaped) && Settled(s.reaped, q.key, s.told, s.settled) &&
      match outcome
      case NotAttached(why) => (why.AtCapacity? || why.NotProvisioned?) && Attached(s.settled, q, why, w')
      case Ready(false) => Attached(s.settled, q, Reattached, w')
      case Ready(true) =>
        Attached(s.settled, q, Created, s.attached) && s.hook != Fatal &&
        Hooked(s.attached, q.key, q.workspace, s.hook, s.head, w')
      case OnCreateFailed =>
        Attached(s.settled, q, Created, s.attached) && s.hook == Fatal &&
        Hooked(s.attached, q.key, q.workspace, s.hook, s.head, s.hooked) && q.key in s.hooked.rows &&
        Destroyed(s.hooked, s.hooked.rows[q.key], w')
  }

  lemma RefusedEnsured(w: World, q: Request, s: Stages)
    requires q.workspace.Some? && q.workspace.value.state == Preserved && s.hook == NotRun
    ensures Ensured(w, q, s, RefusedPreserved, w)
  {
  }

  lemma NotAttachedEnsured(w: World, q: Request, s: Stages, why: Attachment, w': World)
    requires !(q.workspace.Some? && q.workspace.value.state == Preserved) && s.hook == NotRun
    requires Reconciled(w, q.key, q.now, s.reaped) && Settled(s.reaped, q.key, s.told, s.settled)
    requires (why.AtCapacity? || why.NotProvisioned?) && Attached(s.settled, q, why, w')
    ensures Ensured(w, q, s, NotAttached(why), w')
  {
  }

  lemma FinishedEnsured(w: World, q: Request, s: Stages, r: Attachment, w': World)
    requires !(q.workspace.Some? && q.workspace.value.state == Preserved)
    requires Reconciled(w, q.key, q.now, s.reaped) && Settled(s.reaped, q.key, s.told, s.settled)
    requires (r.Reattached? || r.Created?) && Attached(s.settled, q, r, s.attached)
    requires Hooked(s.attached, q.key, q.workspace, s.hook, s.head, s.hooked) && (r.Reattached? ==> s.hook == NotRun)
    requires s.hook == NotRun ==> s.hooked == s.attached
    requires if s.hook == Fatal then q.key in s.hooked.rows && Destroyed(s.hooked, s.hooked.rows[q.key], w') else w' == s.hooked
    ensures Ensured(w, q, s, if s.hook == Fatal then OnCreateFailed else Ready(r.Created?), w')
  {
    hide Reconciled, Settled, Attached, Destroyed, Hooked;
  }

  function Detach(r: Row): Row {
    r.(connections := if r.connections == 0 then 0 else r.connections - 1)
  }

  /** A disconnect by a client with the given mode and grace period. */
  ghost predicate Disconnected(w: World, k: Key, mode: string, gracePeriod: int, now: int, w': World) {
    if k !in w.rows then w' == w
    else
      var row := Detach(w.rows[k]);
      var v := w.(rows := w.rows[k := row]);
      if row.connections > 0 || mode == PERSISTENT then w' == v
      else if mode == DESTROY_ON_DISCONNECT || gracePeriod == 0 then Destroyed(v, row, w')
      else w' == w.(rows := w.rows[k := row.(status := GracePeriod, graceExpiry := Some(now + gracePeriod))])
  }

  /** How a client of a session is configured. */
  datatype Client = Client(
    user: string, name: string, project: Option<Project>, mode: string, gracePeriod: int, maxLifetime: int, maxPerUser: int,
    image: string, userMode: Option<string>, hookFatal: bool, head: Option<string>)

  /** on_create runs in a new container if there is a Podfile and the workspace is not initialized yet. */
  predicate Due(podfile: Option<Podfile>, isNew: bool, workspace: Option<Workspace>, hook: Hook) {
    hook != NotRun <==> podfile.Some? && isNew && (workspace.None? || !workspace.value.initialized)
  }

  /** Updates of the copy do not touch its name. */
  predicate SameWorkspace(a: Option<Workspace>, b: Option<Workspace>) {
    a.Some? == b.Some? && (a.Some? ==> a.value.name == b.value.name)
  }

  class Session {
    const username: string
    const gracePeriod: int
    const maxLifetime: int
    const maxPerUser: int
    const image: string
    const userMode: Option<string>  // the mode in the user's overrides, if there are any
    const hookFatal: bool
    const head: Option<string>      // what git answers when asked for the workspace's HEAD
    var projectName: string
    var project: Option<Project>
    var mode: string
    var workspace: Option<Workspace>  // a copy of the row
    var hasPath: bool                 // the workspace lives in a host directory
    var podfile: Option<Podfile>
    var sessionId: Option<nat>
    var containerId: string

    constructor (c: Client)
      ensures username == c.user && projectName == c.name && project == c.project && mode == c.mode
      ensures gracePeriod == c.gracePeriod && maxLifetime == c.maxLifetime && maxPerUser == c.maxPerUser
      ensures image == c.image && userMode == c.userMode && hookFatal == c.hookFatal && head == c.head
      ensures workspace == None && podfile == None && sessionId == None && containerId == "" && !hasPath
    {
      username, projectName, project, mode := c.user, c.name, c.project, c.mode;
      gracePeriod, maxLifetime, maxPerUser := c.gracePeriod, c.maxLifetime, c.maxPerUser;
      image, userMode, hookFatal, head := c.image, c.userMode, c.hookFatal, c.head;
      workspace, podfile, sessionId, containerId, hasPath := None, None, None, "", false;
    }

    function At(): Key
      reads this`projectName
    {
      Key(username, projectName)
    }

    /** The mode part of the override layering. */
    method ApplyUserOverrides()
      modifies this`mode
      ensures Layered(old(mode), workspace, userMode, project, mode)
    {
      if workspace.Some? && workspace.value.mode != "" {
        mode := workspace.value.mode;
      }
      if userMode.None? {
        if project.Some? && project.value.mode != "" {
          mode := project.value.mode;
        }
        return;
      }
      if ValidMode(userMode.value) {
        mode := userMode.value;
      }
      if project.Some? && ValidMode(project.value.mode) {
        mode := project.value.mode;
      }
    }

    /** The network and the companion services, or neither. */
    method ResolveProject(rt: FakeRuntime) returns (r: Resolution)
      requires rt.Valid()
      modifies this`mode, this`podfile, rt
      ensures rt.Valid()
      ensures r.Resolved? ==> ResolvedTo(old(rt.State()), r, rt.State())
      ensures r.Resolved? ==>
                rt.calls == old(rt.calls) + 1 + 2 * ServiceCount(project) && Quiet(rt.faults, old(rt.calls), rt.calls)
      ensures r.Resolved? ==> Layered(old(mode), workspace, userMode, project, mode)
      ensures r.Resolved? ==> forall id :: id in r.serviceIds ==> id in rt.containers && rt.containers[id] != ContainerName(At())
      ensures r.Resolved? && project.None? ==> r.serviceIds == [] && r.image == image && podfile == old(podfile)
      ensures r.Resolved? && project.Some? ==>
                podfile.Some? && project.value.podfile == podfile && r.image == project.value.tag &&
                |r.serviceIds| == |podfile.value.services|
      ensures r.Unresolved? ==>
                Building(old(rt.State()), rt.State(), {}, {}) && rt.left == old(rt.left) + LeftBehind(r.failure)
      ensures r.Unresolved? ==>
                (r.failure.NetworkNotCreated? || r.failure.PodfileUnusable? || r.failure.ImageUnavailable? ||
                 r.failure.ServicesNotStarted?) &&
                Explained(r.failure, project, ContainerName(At()), old(rt.containers.Values), rt.faults, old(rt.calls), false)
    {
      hide Building, EngineOk, Justified, Plan, WellFormed, GoodVolumes, NoDuplicates, Layered, ValidMode, Quiet, MainExplained;
      ghost var a := rt.State();
      BuildingStart(a);
      var network := rt.CreateNetwork();
      if network.None? {
        return Unresolved(NetworkNotCreated);
      }
      BuildingNet(a, a, {}, {});
      QuietCall(rt.faults, old(rt.calls));
      var networkId := network.value;
      assert {} + {networkId} == {networkId};
      if project.None? {
        ApplyUserOverrides();
        r := Resolved(image, networkId, []);
        assert ToSet(r.serviceIds) == {};
        EmptyList();
        return r;
      }
      if project.value.podfile.None? {
        DropNetwork(rt, networkId, a);
        return Unresolved(PodfileUnusable);
      }
      podfile := project.value.podfile;
      if !project.value.imageReady {
        DropNetwork(rt, networkId, a);
        return Unresolved(ImageUnavailable);
      }
      ApplyUserOverrides();
      r := StartCompanions(rt, podfile.value.services, ContainerName(At()), project.value.tag, networkId, a);
      if r.Resolved? {
        QuietJoined(rt.faults, old(rt.calls), old(rt.calls) + 1, rt.calls);
      }
    }

    /** The row that is recorded for a new session. */
    ghost predicate Describes(row: Row, now: int)
      reads this
    {
      row.At() == At() && row.containerName == ContainerName(At()) &&
      row.createdAt == now && row.maxLifetime == now + maxLifetime &&
      row.workspaceId == (if workspace.Some? then Some(workspace.value.id) else None) &&
      row.mode == RecordedMode(mode) &&
      sessionId == Some(row.id) && containerId == row.containerId
    }

    /**
     The path that creates everything: all of it if no step fails, else nothing; the failure names the first
     step that failed.
     */
    method Provision(store: FakeStore, rt: FakeRuntime, now: int) returns (failure: Option<Failure>)
      requires rt.Valid() && At() !in store.sessions
      modifies this`mode, this`podfile, this`sessionId, this`containerId, store`sessions, store`nextId, rt
      ensures rt.Valid()
      ensures failure.None? ==>
                At() in store.sessions && Describes(store.sessions[At()], now) &&
                Provisioned(old(Snap(store, rt)), store.sessions[At()], Snap(store, rt))
      ensures failure.None? ==> podfile == if project.Some? then project.value.podfile else old(podfile)
      ensures failure.None? ==> Layered(old(mode), workspace, userMode, project, mode)
      ensures failure.None? ==>
                rt.calls == old(rt.calls) + 4 + 2 * ServiceCount(project) && Quiet(rt.faults, old(rt.calls), rt.calls) &&
                !store.refusals(old(store.nextId))
      ensures failure.Some? ==>
                Undone(old(Snap(store, rt)), Snap(store, rt)) && rt.left == old(rt.left) + LeftBehind(failure.value) &&
                Explained(failure.value, project, ContainerName(At()), old(rt.containers.Values), rt.faults, old(rt.calls),
                          store.refusals(old(store.nextId)))
    {
      hide Building, EngineOk, Justified, Plan, WellFormed, GoodVolumes, NoDuplicates, Decode, Join, Owned, Quiet, MainExplained,
        Layered;
      ghost var a := rt.State();
      var r := ResolveProject(rt);
      if r.Unresolved? {
        return Some(r.failure);
      }
      ghost var resolved := rt.calls;
      failure := CreateMain(store, rt, now, r, a);
      if failure.None? {
        QuietJoined(rt.faults, old(rt.calls), resolved, rt.calls);
      }
    }

    /** The rest of the creation path, once the network and the services are up. */
    method CreateMain(store: FakeStore, rt: FakeRuntime, now: int, r: Resolution, ghost a: Engine)
      returns (failure: Option<Failure>)
      requires rt.Valid() && EngineOk(a) && At() !in store.sessions && r.Resolved? && ResolvedTo(a, r, rt.State())
      requires forall id :: id in r.serviceIds ==> id in rt.containers && rt.containers[id] != ContainerName(At())
      modifies this`sessionId, this`containerId, store`sessions, store`nextId, rt
      ensures rt.Valid()
      ensures failure.None? ==>
                At() in store.sessions && Describes(store.sessions[At()], now) &&
                Provisioned(old(Snap(store, rt)).(engine := a), store.sessions[At()], Snap(store, rt))
      ensures failure.None? ==>
                rt.calls == old(rt.calls) + 3 && Quiet(rt.faults, old(rt.calls), rt.calls) && !store.refusals(old(store.nextId))
      ensures failure.Some? ==>
                Building(a, rt.State(), {}, {}) && store.sessions == old(store.sessions) && store.nextId >= old(store.nextId) &&
                rt.left == a.left
      ensures failure.Some? ==>
                failure.value in {ContainerNotCreated, ContainerNotStarted, UserNotSetUp, SessionNotRecorded} &&
                MainExplained(failure.value, ContainerName(At()), a.containers.Values, rt.faults, old(rt.calls),
                              store.refusals(old(store.nextId)))
    {
      hide Building, EngineOk, Justified, Plan, WellFormed, GoodVolumes, NoDuplicates, Decode, Join, Owned, Quiet;
      var name := ContainerName(At());
      var id;
      failure, id := StartMain(rt, name, r, a);
      if failure.Some? {
        return;
      }
      var row := Row(0, if workspace.Some? then Some(workspace.value.id) else None, username, projectName, id, name,
                     r.image, Running, 1, now, None, now + maxLifetime, r.networkId, Join(r.serviceIds), mode);
      var stored := store.CreateSession(row);
      if stored.None? {
        Discard(rt, name, id, r.serviceIds, r.networkId, a);
        return Some(SessionNotRecorded);
      }
      sessionId := Some(stored.value.id);
      containerId := id;
      RecordedOwns(stored.value, r.serviceIds);
      failure := None;
    }

    // ---------------------------------------------------------------------- attaching

    /** At most one teardown: of the row at this key, if it is overdue. */
    method ReconcileUser(store: FakeStore, rt: FakeRuntime, now: int)
      requires rt.Valid() && Keyed(store.sessions)
      modifies store`sessions, rt
      ensures rt.Valid() && Keyed(store.sessions)
      ensures Reconciled(old(Snap(store, rt)), At(), now, Snap(store, rt))
      ensures rt.calls == old(rt.calls) + if At() in old(store.sessions) && Overdue(old(store.sessions[At()]), now)
                                          then TeardownCalls(old(store.sessions[At()])) else 0
    {
      hide Shrunk, EngineOk, Justified, TeardownCalls;
      var stale := store.StaleZeroConnections(At());
      if stale.Some? {
        DestroySession(store, rt, stale.value);
      }
      var sess := store.GetSession(At());
      if sess.None? {
        return;
      }
      if sess.value.status == GracePeriod && sess.value.graceExpiry.Some? && sess.value.graceExpiry.value < now {
        DestroySession(store, rt, sess.value);
      }
    }

    ghost function Asks(now: int): Request
      reads this
    {
      Request(At(), workspace, maxPerUser, maxLifetime, now)
    }

    /** Deletes the row if its container is known to be gone. */
    method SettleStale(store: FakeStore, rt: FakeRuntime) returns (sess: Option<Row>, ghost told: bool)
      requires rt.Valid()
      modifies store`sessions, rt`calls
      ensures rt.Valid() && Settled(old(Snap(store, rt)), At(), told, Snap(store, rt))
      ensures sess == store.GetSession(At())
      ensures rt.calls == old(rt.calls) + if At() in old(store.sessions) then 1 else 0
    {
      sess := store.GetSession(At());
      told := false;
      if sess.Some? {
        var known := rt.ContainerExists(sess.value.containerName);
        told := known.Some?;
        var alive := if known.Some? then known.value else true;
        if !alive {
          store.DeleteSession(At());
          sess := None;
        }
      }
    }

    method Rejoin(store: FakeStore, row: Row)
      requires store.GetSession(At()) == Some(row)
      modifies this`sessionId, this`containerId, store`sessions
      ensures store.sessions == old(store.sessions)[At() := Reattach(row)]
      ensures sessionId == Some(row.id) && containerId == row.containerId
    {
      if row.status == GracePeriod {
        store.CancelGracePeriod(At());
      }
      var _ := store.UpdateConnections(At(), 1);
      sessionId := Some(row.id);
      containerId := row.containerId;
    }

    /** A new session, unless the user has too many. */
    method CreateUnlessFull(store: FakeStore, rt: FakeRuntime, now: int) returns (r: Attachment)
      requires rt.Valid() && Keyed(store.sessions) && At() !in store.sessions
      modifies this`mode, this`podfile, this`sessionId, this`containerId, store`sessions, store`nextId, rt
      ensures rt.Valid() && Keyed(store.sessions)
      ensures !r.Reattached? && Attached(old(Snap(store, rt)), Asks(now), r, Snap(store, rt))
      ensures r.AtCapacity? ==> mode == old(mode)
      ensures r.Created? ==>
                At() in store.sessions && Describes(store.sessions[At()], now) &&
                Layered(old(mode), workspace, userMode, project, mode) &&
                podfile == if project.Some? then project.value.podfile else old(podfile)
      ensures r.NotProvisioned? ==>
                Explained(r.failure, project, ContainerName(At()), old(rt.containers.Values), rt.faults, old(rt.calls),
                          store.refusals(old(store.nextId)))
    {
      hide Shrunk, EngineOk, Justified, Building, PrintOf, Explained, Layered;
      if maxPerUser > 0 {
        if |RowsOf(store.sessions, username)| >= maxPerUser {
          return AtCapacity;
        }
      }
      var failure := Provision(store, rt, now);
      r := if failure.Some? then NotProvisioned(failure.value) else Created;
    }

    method EnsureContainerWithState(store: FakeStore, rt: FakeRuntime, now: int) returns (r: Attachment, ghost s: Stages)
      requires rt.Valid() && Keyed(store.sessions)
      modifies this`mode, this`podfile, this`sessionId, this`containerId, store`sessions, store`nextId, rt
      ensures rt.Valid() && Keyed(store.sessions)
      ensures Reconciled(old(Snap(store, rt)), At(), now, s.reaped) && Settled(s.reaped, At(), s.told, s.settled)
      ensures Attached(s.settled, Asks(now), r, Snap(store, rt)) && s.hook == NotRun
      ensures r.Reattached? || r.Created? ==>
                At() in store.sessions && sessionId == Some(store.sessions[At()].id) && containerId == store.sessions[At()].containerId
      ensures r.NotProvisioned? ==>
                Explained(r.failure, project, ContainerName(At()), s.settled.engine.containers.Values, rt.faults,
                          old(rt.calls) + ApproachCalls(old(store.sessions), At(), now), store.refusals(s.settled.nextId))
      ensures r.Created? ==> store.sessions[At()].mode == RecordedMode(mode)
      ensures r.Created? ==> Layered(old(mode), workspace, userMode, project, mode)
      ensures !r.Created? && !r.NotProvisioned? ==> mode == old(mode)
      ensures r.Created? && project.Some? ==> podfile == project.value.podfile
      ensures r.Created? && project.None? ==> podfile == old(podfile)
    {
      hide EngineOk, Justified, PrintOf, Explained, Matched, Undone, Provisioned, TeardownCalls, Shrunk, StaleZero, Layered;
      ReconcileUser(store, rt, now);
      ghost var reaped := Snap(store, rt);
      var sess: Option<Row>;
      ghost var told: bool;
      sess, told := SettleStale(store, rt);
      s := Stages(reaped, Snap(store, rt), told, reaped, NotRun, None, reaped);
      if sess.Some? {
        Rejoin(store, sess.value);
        return Reattached, s;
      }
      r := CreateUnlessFull(store, rt, now);
    }

    // -------------------------------------------------------------------------- hooks

    /** Reads the Podfile on reattaching, where no project was resolved. */
    method EnsurePodfileParsed()
      modifies this`podfile
      ensures podfile == if old(podfile).Some? || project.None? then old(podfile) else project.value.podfile
    {
      if podfile.Some? || project.None? {
        return;
      }
      podfile := project.value.podfile;
    }

    method RunHook(rt: FakeRuntime, containerName: string, script: string) returns (ok: bool)
      requires rt.Valid()
      modifies rt`calls
      ensures rt.Valid()
      ensures ok <==> script == "" || !rt.faults(old(rt.calls))
      ensures rt.calls == old(rt.calls) + if script == "" then 0 else 1
    {
      if script == "" {
        return true;
      }
      ok := rt.Exec(containerName);
    }

    predicate ShouldInitialize(isNew: bool)
      reads this`podfile, this`workspace
    {
      podfile.Some? && isNew && (workspace.None? || !workspace.value.initialized)
    }

    /** Runs on_create if the container is new and the workspace uninitialized, then on_start. */
    method RunHooks(store: FakeStore, rt: FakeRuntime, containerName: string, isNew: bool) returns (hook: Hook)
      requires rt.Valid()
      requires workspace.Some? ==> workspace.value.name == projectName
      modifies this`workspace, store`workspaces, store`created, rt`calls
      ensures rt.Valid()
      ensures Hooked(old(Snap(store, rt)), At(), old(workspace), hook, if hasPath then head else None, Snap(store, rt))
      ensures SameWorkspace(workspace, old(workspace))
      ensures hook == NotRun <==> !old(ShouldInitialize(isNew))
      ensures hook == Succeeded ==> podfile.value.onCreate == "" || !rt.faults(old(rt.calls))
      ensures hook == Ignored || hook == Fatal ==> podfile.value.onCreate != "" && rt.faults(old(rt.calls))
      ensures hook == Fatal ==> hookFatal
      ensures hook == Ignored ==> !hookFatal
      ensures rt.calls == old(rt.calls)
                        + (if hook != NotRun && podfile.value.onCreate != "" then 1 else 0)
                        + (if podfile.Some? && hook != Fatal && podfile.value.onStart != "" then 1 else 0)
      ensures old(workspace).Some? && old(store.GetWorkspace(At())) == old(workspace) ==>
                store.GetWorkspace(At()) == workspace
    {
      hook := NotRun;
      if podfile.None? {
        return;
      }
      if ShouldInitialize(isNew) {
        var ok := RunHook(rt, containerName, podfile.value.onCreate);
        if !ok {
          if hookFatal {
            MarkPreserved(store);
            return Fatal;
          }
          hook := Ignored;
        } else {
          hook := Succeeded;
          MarkInitialized(store);
        }
      }
      var _ := RunHook(rt, containerName, podfile.value.onStart);
    }

    method MarkPreserved(store: FakeStore)
      requires workspace.Some? ==> workspace.value.name == projectName
      modifies this`workspace, store`workspaces
      ensures store.workspaces ==
              if workspace.Some? && At() in old(store.workspaces)
              then old(store.workspaces)[At() := old(store.workspaces)[At()].(state := Preserved)] else old(store.workspaces)
      ensures workspace == if old(workspace).Some? then Some(old(workspace).value.(state := Preserved)) else None
    {
      if workspace.Some? {
        store.UpdateWorkspace(Key(username, workspace.value.name), (w: Workspace) => w.(state := Preserved));
        workspace := Some(workspace.value.(state := Preserved));
      }
    }

    /** Marks the workspace initialized and records its head commit, if git tells. */
    method MarkInitialized(store: FakeStore)
      requires workspace.Some? ==> workspace.value.name == projectName
      modifies this`workspace, store`workspaces, store`created
      ensures SameWorkspace(workspace, old(workspace))
      ensures workspace.Some? ==>
                store.workspaces == WithInitialized(old(store.workspaces), At(), if hasPath then head else None) &&
                store.created == Counted(old(store.created), old(store.workspaces), At())
      ensures workspace.None? ==> store.workspaces == old(store.workspaces) && store.created == old(store.created)
      ensures old(workspace).Some? && old(store.GetWorkspace(At())) == old(workspace) ==>
                store.GetWorkspace(At()) == workspace
    {
      if workspace.None? {
        return;
      }
      var k := Key(username, workspace.value.name);
      store.UpdateWorkspace(k, (w: Workspace) => w.(initialized := true));
      workspace := Some(workspace.value.(initialized := true));
      store.created := Counted(store.created, store.workspaces, k);
      CaptureWorkspaceHead(store);
    }

    /** Forensic only: whatever goes wrong here, nothing else fails. */
    method CaptureWorkspaceHead(store: FakeStore)
      modifies this`workspace, store`workspaces
      ensures SameWorkspace(workspace, old(workspace))
      ensures if hasPath && head.Some? && old(workspace).Some? then
                var k := Key(username, old(workspace).value.name);
                workspace == Some(old(workspace).value.(headCommit := head.value)) &&
                store.workspaces == if k in old(store.workspaces)
                                    then old(store.workspaces)[k := old(store.workspaces)[k].(headCommit := head.value)]
                                    else old(store.workspaces)
              else workspace == old(workspace) && store.workspaces == old(store.workspaces)
    {
      if !hasPath || workspace.None? {
        return;
      }
      if head.None? {
        return;
      }
      store.UpdateWorkspace(Key(username, workspace.value.name), (w: Workspace) => w.(headCommit := head.value));
      workspace := Some(workspace.value.(headCommit := head.value));
    }

    method CleanupFailedSession(store: FakeStore, rt: FakeRuntime)
      requires rt.Valid() && Keyed(store.sessions)
      modifies store`sessions, rt
      ensures rt.Valid() && Keyed(store.sessions)
      ensures if At() in old(store.sessions)
              then Destroyed(old(Snap(store, rt)), old(store.sessions[At()]), Snap(store, rt))
              else Snap(store, rt) == old(Snap(store, rt))
    {
      hide Shrunk, EngineOk, Justified, PrintOf;
      var sess := store.GetSession(At());
      if sess.Some? {
        DestroySession(store, rt, sess.value);
      }
    }

    /** A workspace whose set-up failed is not attached to. */
    predicate RefusedIfPreserved()
      reads this`workspace
    {
      workspace.Some? && workspace.value.state == Preserved
    }

    /** The hooks of a session that was created or joined; if one is fatal, the session is torn down. */
    method FinishAttach(store: FakeStore, rt: FakeRuntime, isNew: bool)
      returns (failed: bool, ghost hook: Hook, ghost hooked: World)
      requires rt.Valid() && Keyed(store.sessions) && At() in store.sessions
      requires workspace.Some? ==> workspace.value.name == projectName
      modifies this`podfile, this`workspace, store`sessions, store`workspaces, store`created, rt
      ensures rt.Valid() && Keyed(store.sessions) && SameWorkspace(workspace, old(workspace))
      ensures podfile == if old(podfile).Some? || project.None? then old(podfile) else project.value.podfile
      ensures Due(podfile, isNew, old(workspace), hook) && (!isNew ==> hook == NotRun)
      ensures hook == Fatal ==> hookFatal
      ensures Hooked(old(Snap(store, rt)), At(), old(workspace), hook, if hasPath then head else None, hooked)
      ensures failed == (hook == Fatal) && (hook == NotRun ==> hooked == old(Snap(store, rt)))
      ensures if failed then At() in hooked.rows && Destroyed(hooked, hooked.rows[At()], Snap(store, rt))
              else Snap(store, rt) == hooked && store.sessions == old(store.sessions)
    {
      hide Shrunk, EngineOk, Justified, PrintOf;
      EnsurePodfileParsed();
      var h := RunHooks(store, rt, store.sessions[At()].containerName, isNew);
      hook, hooked := h, Snap(store, rt);
      failed := h == Fatal;
      if failed {
        CleanupFailedSession(store, rt);
      }
    }

    /** What follows once the session is there, in the state it is in. */
    method CompleteAttach(store: FakeStore, rt: FakeRuntime, now: int, r: Attachment, ghost w: World, ghost begun: Stages)
      returns (outcome: Outcome, ghost s: Stages)
      requires rt.Valid() && Keyed(store.sessions) && At() in store.sessions && (r.Reattached? || r.Created?)
      requires !RefusedIfPreserved() && (workspace.Some? ==> workspace.value.name == projectName)
      requires Reconciled(w, At(), now, begun.reaped) && Settled(begun.reaped, At(), begun.told, begun.settled)
      requires Attached(begun.settled, Asks(now), r, Snap(store, rt))
      modifies this`podfile, this`workspace, store`sessions, store`workspaces, store`created, rt
      ensures rt.Valid() && Keyed(store.sessions) && SameWorkspace(workspace, old(workspace))
      ensures Ensured(w, old(Asks(now)), s, outcome, Snap(store, rt))
      ensures outcome == if s.hook == Fatal then OnCreateFailed else Ready(r.Created?)
      ensures outcome.Ready? ==> store.sessions == old(store.sessions)
      ensures Due(podfile, r.Created?, old(workspace), s.hook) && (s.hook == Fatal ==> hookFatal && r.Created?)
    {
      hide EngineOk, Justified, Reconciled, Settled, Attached, Destroyed, Hooked, Ensured, Due;
      s := begun.(attached := Snap(store, rt));
      ghost var q := Asks(now);
      var failed;
      ghost var hook, hooked;
      failed, hook, hooked := FinishAttach(store, rt, r.Created?);
      s := s.(hook := hook, head := if hasPath then head else None, hooked := hooked);
      FinishedEnsured(w, q, s, r, Snap(store, rt));
      outcome := if failed then OnCreateFailed else Ready(r.Created?);
    }

    /** Creates or joins the session and runs the hooks. */
    method Ensure(store: FakeStore, rt: FakeRuntime, now: int) returns (outcome: Outcome, ghost s: Stages)
      requires rt.Valid() && Keyed(store.sessions)
      requires workspace.Some? ==> workspace.value.name == projectName
      modifies this`mode, this`podfile, this`sessionId, this`containerId, this`workspace
      modifies store`sessions, store`nextId, store`workspaces, store`created, rt
      ensures rt.Valid() && Keyed(store.sessions)
      ensures Ensured(old(Snap(store, rt)), old(Asks(now)), s, outcome, Snap(store, rt))
      ensures SameWorkspace(workspace, old(workspace))
      ensures ModeAfter(old(mode), old(workspace), userMode, project, outcome, mode)
      ensures outcome == Ready(true) ==> At() in store.sessions && store.sessions[At()].mode == RecordedMode(mode)
      ensures outcome == Ready(true) || outcome == OnCreateFailed ==> Due(podfile, true, old(workspace), s.hook)
      ensures s.hook == Fatal ==> hookFatal
      ensures outcome.NotAttached? && outcome.why.NotProvisioned? ==>
                Explained(outcome.why.failure, project, ContainerName(At()), s.settled.engine.containers.Values, rt.faults,
                          old(rt.calls) + ApproachCalls(old(store.sessions), At(), now), store.refusals(s.settled.nextId))
    {
      hide EngineOk, Justified, Reconciled, Settled, Attached, Explained, Destroyed, Hooked, Ensured, Due, ApproachCalls,
        Layered, ModeAfter, RecordedMode;
      ghost var w, start, ws := Snap(store, rt), mode, workspace;
      if RefusedIfPreserved() {
        s := Stages(w, w, false, w, NotRun, None, w);
        RefusedEnsured(w, Asks(now), s);
        ModeRefused(mode, workspace, userMode, project);
        return RefusedPreserved, s;
      }
      var r;
      r, s := EnsureContainerWithState(store, rt, now);
      if r.AtCapacity? || r.NotProvisioned? {
        NotAttachedEnsured(w, Asks(now), s, r, Snap(store, rt));
        ModeAttached(start, ws, userMode, project, r, false, mode);
        return NotAttached(r), s;
      }
      outcome, s := CompleteAttach(store, rt, now, r, w, s);
      ModeAttached(start, ws, userMode, project, r, s.hook == Fatal, mode);
    }

    /** As Ensure, then the user's shell or command, which changes nothing that is modelled. */
    method Run(store: FakeStore, rt: FakeRuntime, now: int) returns (outcome: Outcome, ghost s: Stages)
      requires rt.Valid() && Keyed(store.sessions)
      requires workspace.Some? ==> workspace.value.name == projectName
      modifies this`mode, this`podfile, this`sessionId, this`containerId, this`workspace
      modifies store`sessions, store`nextId, store`workspaces, store`created, rt
      ensures rt.Valid() && Keyed(store.sessions)
      ensures Ensured(old(Snap(store, rt)), old(Asks(now)), s, outcome, Snap(store, rt))
      ensures SameWorkspace(workspace, old(workspace)) && (LeftOf(outcome) > 0 ==> Leaky(project))
      ensures ModeAfter(old(mode), old(workspace), userMode, project, outcome, mode)
    {
      hide Ensured, EngineOk, Justified, Explained, Leaky, ModeAfter;
      outcome, s := Ensure(store, rt, now);
      if LeftOf(outcome) > 0 {
        ExplainedLeak(outcome.why.failure, project, ContainerName(At()), s.settled.engine.containers.Values, rt.faults,
                      old(rt.calls) + ApproachCalls(old(store.sessions), At(), now), store.refusals(s.settled.nextId));
      }
      if outcome.Ready? {
        var _ := rt.Exec(ContainerName(At()));
      }
    }

    /** A client's whole life: it detaches even if it did not get in. */
    method RunAndCleanup(store: FakeStore, rt: FakeRuntime, now: int, later: int)
      returns (outcome: Outcome, ghost s: Stages, ghost mid: World)
      requires rt.Valid() && Keyed(store.sessions)
      requires workspace.Some? ==> workspace.value.name == projectName
      modifies this`mode, this`podfile, this`sessionId, this`containerId, this`workspace
      modifies store`sessions, store`nextId, store`workspaces, store`created, rt
      ensures rt.Valid() && Keyed(store.sessions)
      ensures Ensured(old(Snap(store, rt)), old(Asks(now)), s, outcome, mid)
      ensures Disconnected(mid, At(), mode, gracePeriod, later, Snap(store, rt))
      ensures ModeAfter(old(mode), old(workspace), userMode, project, outcome, mode)
    {
      hide Ensured, EngineOk, Justified, Disconnected, ModeAfter;
      outcome, s := Run(store, rt, now);
      mid := Snap(store, rt);
      Disconnect(store, rt, later);
    }

    // ---------------------------------------------------------------------- detaching

    method Disconnect(store: FakeStore, rt: FakeRuntime, now: int)
      requires rt.Valid() && Keyed(store.sessions)
      modifies this`sessionId, this`containerId, store`sessions, rt
      ensures rt.Valid() && Keyed(store.sessions)
      ensures Disconnected(old(Snap(store, rt)), At(), mode, gracePeriod, now, Snap(store, rt))
    {
      hide Shrunk, EngineOk, Justified, PrintOf;
      var count := store.UpdateConnections(At(), -1);
      if count.None? {
        return;
      }
      if count.value > 0 {
        return;
      }
      if mode == PERSISTENT {
        return;
      }
      if mode == DESTROY_ON_DISCONNECT || gracePeriod == 0 {
        var sess := store.GetSession(At());
        if sess.None? {
          return;
        }
        sessionId := Some(sess.value.id);
        containerId := sess.value.containerId;
        DestroySession(store, rt, sess.value);
        return;
      }
      store.SetGracePeriod(At(), now + gracePeriod);
    }
  }

  /** Creates, starts and prepares the main container, or gives back everything. */
  method StartMain(rt: FakeRuntime, name: string, r: Resolution, ghost a: Engine)
    returns (failure: Option<Failure>, id: string)
    requires rt.Valid() && EngineOk(a) && IsName(name) && r.Resolved? && ResolvedTo(a, r, rt.State())
    requires forall id :: id in r.serviceIds ==> id in rt.containers && rt.containers[id] != name
    modifies rt
    ensures rt.Valid()
    ensures failure.None? ==> rt.calls == old(rt.calls) + 3 && Quiet(rt.faults, old(rt.calls), rt.calls)
    ensures failure.None? ==>
              id in rt.containers && rt.containers[id] == name && id !in r.serviceIds && Tidy(a, rt.State()) &&
              Building(a, rt.State(), ToSet(r.serviceIds) + {id}, {r.networkId})
    ensures failure.Some? ==>
              Building(a, rt.State(), {}, {}) && rt.left == a.left &&
              failure.value in {ContainerNotCreated, ContainerNotStarted, UserNotSetUp} &&
              MainExplained(failure.value, name, a.containers.Values, rt.faults, old(rt.calls), false)
  {
    hide Building, EngineOk, Justified, NoDuplicates, AllWellFormed;
    ghost var b := rt.State();
    var created := rt.CreateContainer(name);
    if created.None? {
      NameTaken(a, b, r.serviceIds, {r.networkId}, name);
      CleanupServicesAndNetwork(rt, r.serviceIds, r.networkId, a);
      return Some(ContainerNotCreated), "";
    }
    id := created.value;
    BuildingMore(a, b, ToSet(r.serviceIds), {r.networkId}, name);
    var started := rt.StartContainer(name);
    if !started {
      Discard(rt, name, id, r.serviceIds, r.networkId, a);
      return Some(ContainerNotStarted), id;
    }
    var ready := rt.Exec(id);
    if !ready {
      Discard(rt, name, id, r.serviceIds, r.networkId, a);
      return Some(UserNotSetUp), id;
    }
    failure := None;
  }

  /** Gives back a container by its name, then the services and the network. */
  method Discard(rt: FakeRuntime, name: string, ghost id: string, serviceIds: seq<string>, networkId: string, ghost a: Engine)
    requires rt.Valid() && EngineOk(a) && networkId != "" && NoDuplicates(serviceIds)
    requires id in rt.containers && rt.containers[id] == name && id !in serviceIds
    requires Building(a, rt.State(), ToSet(serviceIds) + {id}, {networkId})
    modifies rt
    ensures rt.Valid() && Building(a, rt.State(), {}, {}) && rt.left == old(rt.left)
  {
    hide Building, EngineOk, Justified, NoDuplicates;
    ghost var b, held := rt.State(), ToSet(serviceIds) + {id};
    var ok := rt.RemoveContainer(name);
    BuildingContainer(a, b, held, {networkId}, id, ok);
    assert held - {id} == ToSet(serviceIds);
    CleanupServicesAndNetwork(rt, serviceIds, networkId, a);
  }

  /** If the name of the main container is taken, it was taken before. */
  lemma NameTaken(a: Engine, b: Engine, ids: seq<string>, nets: set<string>, name: string)
    requires EngineOk(a) && Building(a, b, ToSet(ids), nets) && Tidy(a, b)
    requires forall id :: id in ids ==> id in b.containers && b.containers[id] != name
    ensures name in b.containers.Values ==> name in a.containers.Values
  {
    if name in b.containers.Values {
      var id :| id in b.containers && b.containers[id] == name;
      assert id in a.containers;
    }
  }

  lemma RecordedOwns(row: Row, ids: seq<string>)
    requires row.serviceIds == Join(ids) && AllWellFormed(ids)
    ensures PrintOf(row).services == ToSet(ids) && Owned(PrintOf(row)) == ToSet(ids) + {row.containerId}
  {
    EncodingUndone(ids);
  }

  lemma EmptyList()
    ensures NoDuplicates<string>([])
  {
  }
}
