/**
 What a named machine is bound to: the project and the branch it was created with, over whole runs, and which
 later creates it accepts.
 */
module Machines {
  import opened Options
  import opened Runtime
  import opened Store
  import opened Books
  import opened World
  import opened Cleanup
  import opened Spawn
  import opened Sessions
  import opened Runs

  // ------------------------------------------------------------------- the branch of a clone

  /** What is in the working directory of a clone. */
  predicate CheckedOut(asked: string, clone: Clone, branch: string) {
    if asked != "" then branch == asked
    else if clone.podfileBranch != "" then branch == clone.podfileBranch
    else if clone.projectBranch != "" then branch == clone.projectBranch
    else branch == if clone.defaultBranch.Some? then clone.defaultBranch.value else "main"
  }

  /**
   The recorded branch is the one that is checked out exactly unless no branch was asked for, the clone's Podfile
   named another one than was cloned, and the Podfile found there names yet another one.
   */
  lemma RecordedIsCheckedOut(asked: string, clone: Clone)
    ensures CheckedOut(asked, clone, WorkspaceBranch(asked, clone)) <==>
            asked != "" || clone.podfileBranch in {"", ProjectBranch(asked, clone), clone.afterCheckout}
  {
  }

  // ---------------------------------------------------------------------- what is recorded

  /** A machine that is set up anew is recorded as it was asked for. */
  lemma NewMachine(w: World, k: Key, req: CreateRequest, told: bool, clone: Option<Clone>, now: int, setup: Setup, v: World)
    requires NamedSetUp(w, k, req, told, clone, now, setup, v) && setup.SetUp? && setup.created
    ensures k !in w.workspaces && req.projectName != "" && clone.Some? && k in v.workspaces
    ensures var ws := v.workspaces[k];
            ws.user == k.user && ws.name == k.project && ws.project == req.projectName && ws.mode == clone.value.mode &&
            (req.branch != "" ==> ws.branch == req.branch) && ws.createdAt == now && !ws.initialized && ws.state == Active &&
            ws.headCommit == ""
    ensures setup.workspace == Some(v.workspaces[k]) && w.nextId <= v.workspaces[k].id < v.nextId
  {
    hide Settled;
    var u :| Settled(w, k, told, u) && v == Registered(u, k, NewWorkspace(u.nextId, k, req, clone.value, now)) &&
      setup == SetUp(Some(NewWorkspace(u.nextId, k, req, clone.value, now)), true);
    SettledWorkspaces(w, k, told, u);
    assert v.workspaces[k] == NewWorkspace(u.nextId, k, req, clone.value, now);
    assert v.workspaces[k].id == u.nextId;
    assert v.nextId == u.nextId + 1;
  }

  lemma SettledWorkspaces(w: World, k: Key, told: bool, u: World)
    requires Settled(w, k, told, u)
    ensures u.workspaces == w.workspaces && u.nextId == w.nextId
  {
    hide Matched;
  }

  // -------------------------------------------------------------------------- over runs

  /** The same machine: only whether it is initialized or preserved, and its head commit, may differ. */
  predicate SameMachine(a: Workspace, b: Workspace) {
    b == a.(initialized := b.initialized, state := b.state, headCommit := b.headCommit)
  }

  /** The command makes the machine anew, switches its branch or removes it. */
  predicate Rebinds(c: Command, k: Key) {
    Resets(c, k) || (c.Removing? && c.k == k && c.ok)
  }

  ghost predicate Bound(w: World, k: Key, w': World) {
    k in w.workspaces ==> k in w'.workspaces && SameMachine(w.workspaces[k], w'.workspaces[k])
  }

  lemma HookBound(w: World, q: Request, s: Stages, w': World, k: Key)
    requires HookEffect(w, q, s, w')
    ensures Bound(w, k, w')
  {
  }

  lemma SetUpBound(w: World, l: Key, setup: Setup, v: World, k: Key)
    requires SetUpEffect(w, l, setup, v) && !(l == k && setup.SetUp? && setup.created)
    ensures Bound(w, k, v)
  {
  }

  lemma CreateBound(w: World, c: Command, w': World, k: Key)
    requires Inv(w) && c.Creating? && Step(w, c, w') && !Rebinds(c, k)
    ensures Bound(w, k, w')
  {
    hide Inv, FlowSetUp, Ensured, HookEffect, SetUpEffect;
    SetUpKeeps(w, c.k, c.req, c.told, c.clone, c.now, c.setup, c.mid);
    CurrentAfterSetUp(w, c.k, c.setup, c.mid, c.maxPerUser, c.lifetime, c.now);
    SetUpBound(w, c.k, c.setup, c.mid, k);
    var q := Request(c.k, if c.setup.SetUp? then c.setup.workspace else None, c.maxPerUser, c.lifetime, c.now);
    match c.result
    case Provisioned =>
      var isNew :| Ensured(c.mid, q, c.s, Ready(isNew), w');
      EnsuredKeeps(c.mid, q, c.s, Ready(isNew), w');
      HookBound(c.mid, q, c.s, w', k);
    case RuntimeFailure(outcome) =>
      var u :| Ensured(c.mid, q, c.s, outcome, u) &&
               w' == if c.setup.created && !outcome.OnCreateFailed? then u.(workspaces := u.workspaces - {c.k}) else u;
      EnsuredKeeps(c.mid, q, c.s, outcome, u);
      HookBound(c.mid, q, c.s, u, k);
    case _ =>
  }

  lemma StepBound(w: World, c: Command, w': World, k: Key)
    requires Inv(w) && Step(w, c, w') && !Rebinds(c, k)
    ensures Bound(w, k, w')
  {
    hide Inv, CreateTried, Ensured, Disconnected, Ended, SwitchTried, RemoveTried, Cleaned, HookEffect, Current;
    match c
    case Creating(_, _, _, _, _, _, _, _, _, _, _) => CreateBound(w, c, w', k);
    case Attaching(q, s, outcome) =>
      EnsuredKeeps(w, q, s, outcome, w');
      HookBound(w, q, s, w', k);
    case Detaching(l, mode, gracePeriod, now) => DisconnectKeeps(w, l, mode, gracePeriod, now, w');
    case Stopping(l) => EndKeeps(w, l, w');
    case Switching(l, branch, told, git, ok) => SwitchKeeps(w, l, branch, told, git, ok, w');
    case Removing(l, force, told, directory, ok) => RemoveKeeps(w, l, force, told, directory, ok, w');
    case Cleaning(now, strays) => CleanupKeeps(w, now, strays, w');
    case NotFound =>
  }

  /** A machine keeps its id, owner, project, branch and mode until it is created anew, switched or removed. */
  lemma {:induction false} StaysBound(ws: seq<World>, cs: seq<Command>, i: nat, k: Key)
    requires Run(ws, cs) && Inv(ws[0]) && i <= |cs| && forall j :: 0 <= j < i ==> !Rebinds(cs[j], k)
    ensures Bound(ws[0], k, ws[i])
  {
    hide Inv, Step, Rebinds;
    if i > 0 {
      StaysBound(ws, cs, i - 1, k);
      RunKeeps(ws, cs, i - 1);
      assert Step(ws[i - 1], cs[i - 1], ws[i - 1 + 1]) && !Rebinds(cs[i - 1], k);
      StepBound(ws[i - 1], cs[i - 1], ws[i], k);
    }
  }

  // ----------------------------------------------------------------------- creating again

  /** A create of an existing machine is accepted exactly if it asks for no other project and no other branch. */
  lemma AcceptedExactly(w: World, k: Key, req: CreateRequest, told: bool, clone: Option<Clone>, now: int, setup: Setup,
                        v: World)
    requires k in w.workspaces && NamedSetUp(w, k, req, told, clone, now, setup, v)
    ensures setup.SetUp? <==>
            req.projectName in {"", w.workspaces[k].project} && req.branch in {"", w.workspaces[k].branch}
    ensures setup.SetUp? ==> !setup.created && k in v.workspaces && v.workspaces[k] == w.workspaces[k].(state := Active)
    ensures !setup.SetUp? ==> setup == UnsafeTransition && v == w
  {
  }

  /**
   However long after a machine was created, while it is neither switched nor removed, the same request is accepted
   again, and one that asks for another project or, if a branch was asked for, for another branch is refused.
   */
  lemma CreateAgain(w: World, k: Key, req: CreateRequest, told: bool, clone: Option<Clone>, now: int, setup: Setup,
                    ws: seq<World>, cs: seq<Command>, i: nat,
                    req': CreateRequest, told': bool, clone': Option<Clone>, now': int, setup': Setup, v: World)
    requires Run(ws, cs) && Inv(w) && NamedSetUp(w, k, req, told, clone, now, setup, ws[0]) && setup.SetUp? && setup.created
    requires i <= |cs| && forall j :: 0 <= j < i ==> !Rebinds(cs[j], k)
    requires NamedSetUp(ws[i], k, req', told', clone', now', setup', v)
    ensures req' == req ==> setup'.SetUp? && !setup'.created
    ensures req'.projectName !in {"", req.projectName} ==> setup' == UnsafeTransition && v == ws[i]
    ensures req.branch != "" && req'.branch !in {"", req.branch} ==> setup' == UnsafeTransition && v == ws[i]
  {
    hide Inv, Step, NamedSetUp, Rebinds, WorkspaceBranch;
    NamedSetUpKeeps(w, k, req, told, clone, now, setup, ws[0]);
    NewMachine(w, k, req, told, clone, now, setup, ws[0]);
    StaysBound(ws, cs, i, k);
    AcceptedExactly(ws[i], k, req', told', clone', now', setup', v);
  }

  /** After a switch it is the new branch that counts. */
  lemma CreateAfterSwitch(w: World, k: Key, branch: string, told: bool, git: bool, ws: seq<World>, cs: seq<Command>, i: nat,
                          req: CreateRequest, told': bool, clone: Option<Clone>, now: int, setup: Setup, v: World)
    requires Run(ws, cs) && Inv(w) && SwitchTried(w, k, branch, told, git, true, ws[0])
    requires i <= |cs| && forall j :: 0 <= j < i ==> !Rebinds(cs[j], k)
    requires NamedSetUp(ws[i], k, req, told', clone, now, setup, v)
    ensures k in w.workspaces
    ensures setup.SetUp? <==> req.projectName in {"", w.workspaces[k].project} && req.branch in {"", branch}
  {
    hide Inv, Step, NamedSetUp, Rebinds, SwitchTried;
    SwitchKeeps(w, k, branch, told, git, true, ws[0]);
    assert ws[0].workspaces[k].branch == branch && ws[0].workspaces[k].project == w.workspaces[k].project;
    StaysBound(ws, cs, i, k);
    AcceptedExactly(ws[i], k, req, told', clone, now, setup, v);
  }

  // ---------------------------------------------------------------- switching and removing

  /** A switch succeeds exactly on a stopped machine whose checkout works, and then the machine starts afresh. */
  lemma SwitchedExactly(w: World, k: Key, branch: string, told: bool, git: bool, ok: bool, w': World)
    requires Inv(w) && SwitchTried(w, k, branch, told, git, ok, w')
    ensures ok <==> k in w.workspaces && k !in w.rows && git
    ensures ok ==>
              var ws := w.workspaces[k].(branch := branch, initialized := false, headCommit := "");
              w'.workspaces == w.workspaces[k := ws] && w'.rows == w.rows && w'.engine == w.engine
    ensures !ok ==> w' == w
  {
    hide Balanced, Settled, WorkspacesOk, IdsOk;
    if k in w.workspaces {
      var v :| Settled(w, k, told, v) && (ok <==> k !in v.rows && git) && w' == if ok then Switched(v, k, branch) else v;
      NothingStale(w, k, told, v);
    }
  }

  /**
   A removal succeeds exactly on a recorded machine that is no throw-away clone, is stopped or removed by force, and
   whose directory goes; its session goes first, whether or not the directory does.
   */
  lemma RemovedExactly(w: World, k: Key, force: bool, told: bool, directory: bool, ok: bool, w': World)
    requires Inv(w) && RemoveTried(w, k, force, told, directory, ok, w')
    ensures var allowed := !(".tmp-" <= k.project) && k in w.workspaces && (k in w.rows ==> told && force);
            (ok <==> allowed && directory) &&
            w'.rows == (if allowed then w.rows - {k} else w.rows) &&
            w'.workspaces == if ok then w.workspaces - {k} else w.workspaces
  {
    hide Balanced, Settled, WorkspacesOk, IdsOk, Shrunk, PrintOf;
    if !Ephemeral(k.project) && k in w.workspaces {
      var v, u :|
        Settled(w, k, told, v) &&
        if k in v.rows && (!told || !force) then !ok && w' == v
        else Ended(v, k, u) && ok == directory && w' == if ok then u.(workspaces := u.workspaces - {k}) else u;
      NothingStale(w, k, told, v);
    }
  }

  // ------------------------------------------------------------------------- preserved

  lemma FatalPreserves(w: World, q: Request, s: Stages, w': World)
    requires Inv(w) && Runs.Current(w, q) && q.workspace.Some? && Ensured(w, q, s, OnCreateFailed, w')
    ensures Inv(w') && q.key !in w'.rows && IsPreserved(w', q.key)
  {
    hide Inv, Ensured;
    EnsuredKeeps(w, q, s, OnCreateFailed, w');
    FatalHook(w, q, s, w');
  }

  lemma FatalHook(w: World, q: Request, s: Stages, w': World)
    requires Ensured(w, q, s, OnCreateFailed, w')
    ensures s.hook == Fatal
  {
    hide Attached, Reconciled, Settled, Destroyed, Hooked;
  }

  lemma Prefix(ws: seq<World>, cs: seq<Command>, i: nat)
    requires Run(ws, cs) && i <= |cs|
    ensures Run(ws[..i + 1], cs[..i])
  {
    hide Step;
    forall j | 0 <= j < i
      ensures Step(ws[..i + 1][j], cs[..i][j], ws[..i + 1][j + 1])
    {
      assert Step(ws[j], cs[j], ws[j + 1]);
    }
  }

  /**
   Once on_create has failed fatally for a workspace, its session is gone, and every client that comes with the
   workspace is refused and changes nothing, until somebody creates the machine again or removes it.
   */
  lemma RefusedUntilCreated(w: World, q: Request, s: Stages, ws: seq<World>, cs: seq<Command>, i: nat,
                            q': Request, s': Stages, outcome: Outcome, w': World)
    requires Run(ws, cs) && Inv(w) && Runs.Current(w, q) && q.workspace.Some? && Ensured(w, q, s, OnCreateFailed, ws[0])
    requires i <= |cs| && forall j :: 0 <= j < i ==> !CreatesOrRemoves(cs[j], q.key)
    requires q'.key == q.key && q'.workspace.Some? && Runs.Current(ws[i], q') && Ensured(ws[i], q', s', outcome, w')
    ensures outcome == RefusedPreserved && w' == ws[i]
  {
    hide Inv, Step, CreatesOrRemoves, Reconciled, Settled, Attached, Hooked, Destroyed;
    FatalPreserves(w, q, s, ws[0]);
    Prefix(ws, cs, i);
    PreservedUntilCreated(ws[..i + 1], cs[..i], q.key);
  }

  /**
   A create that sets up a new machine and then fails leaves no session; it takes the machine back, unless on_create
   failed fatally, and then the machine stays and is preserved.
   */
  lemma CreateOutcome(w: World, c: Command, w': World)
    requires Inv(w) && c.Creating? && Step(w, c, w') && c.setup.SetUp? && c.setup.created && c.result.RuntimeFailure?
    ensures c.k !in w.workspaces && c.k !in w'.rows
    ensures if c.result.outcome == OnCreateFailed then IsPreserved(w', c.k) else w'.workspaces == w.workspaces
  {
    hide Inv, FlowSetUp, Ensured, HookEffect;
    SetUpKeeps(w, c.k, c.req, c.told, c.clone, c.now, c.setup, c.mid);
    CurrentAfterSetUp(w, c.k, c.setup, c.mid, c.maxPerUser, c.lifetime, c.now);
    var q, outcome := Request(c.k, c.setup.workspace, c.maxPerUser, c.lifetime, c.now), c.result.outcome;
    var u :| Ensured(c.mid, q, c.s, outcome, u) &&
             w' == if !outcome.OnCreateFailed? then u.(workspaces := u.workspaces - {c.k}) else u;
    CreatedNotRefused(w, q, c.setup, c.mid, c.s, outcome, u);
    EnsuredKeeps(c.mid, q, c.s, outcome, u);
    if outcome == OnCreateFailed {
      FatalPreserves(c.mid, q, c.s, u);
    } else {
      NoHook(c.mid, q, c.s, outcome, u);
    }
  }

  lemma NoHook(w: World, q: Request, s: Stages, outcome: Outcome, w': World)
    requires Ensured(w, q, s, outcome, w') && outcome !in {Ready(true), OnCreateFailed} && HookEffect(w, q, s, w')
    ensures w'.workspaces == w.workspaces
  {
    hide Attached, Reconciled, Settled, Destroyed, Hooked;
  }
}
