/**
 The connection counter over whole runs in which every attach succeeds, each attached client detaches at
 most once, and nobody stops or removes a running machine or outlives its lifetime.
 */
module Ledger {
  import opened Runtime
  import opened Store
  import opened Books
  import opened World
  import opened Cleanup
  import opened Spawn
  import opened Sessions
  import opened Runs
  import opened Lifetimes

  ghost predicate AllGraceOk(w: World) {
    forall k :: k in w.rows ==> GraceOk(w.rows[k])
  }

  function Connections(w: World, k: Key): nat {
    if k in w.rows then w.rows[k].connections else 0
  }

  /** What a command adds to the number of connections that are held at a key. */
  function Delta(c: Command, k: Key): int {
    match c
    case Creating(k', _, _, _, _, _, _, _, result, _, _) => if k' == k && result.Provisioned? then 1 else 0
    case Attaching(q, _, _) => if q.key == k then 1 else 0
    case Detaching(k', _, _, _) => if k' == k then -1 else 0
    case _ => 0
  }

  /** Clients that have attached and not yet detached. */
  function Attachments(cs: seq<Command>, k: Key): int {
    if cs == [] then 0
    else
      var c := cs[|cs| - 1];
      Attachments(cs[..|cs| - 1], k) +
      if c.Attaching? && c.q.key == k then 1 else if c.Detaching? && c.k == k then -1 else 0
  }

  /** Creates that provisioned; nobody is attached for them. */
  function Ensures(cs: seq<Command>, k: Key): nat {
    if cs == [] then 0
    else
      var c := cs[|cs| - 1];
      Ensures(cs[..|cs| - 1], k) + if c.Creating? && c.k == k && c.result.Provisioned? then 1 else 0
  }

  ghost predicate CalmCommand(w: World, c: Command) {
    match c
    case Creating(_, _, _, _, _, _, _, _, result, _, _) => !result.RuntimeFailure?
    case Attaching(_, _, outcome) => outcome.Ready?
    case Detaching(_, _, _, _) => true
    case Stopping(_) => false
    case Switching(_, _, _, _, _) => true
    case Removing(_, force, _, _, _) => !force
    case Cleaning(now, _) => forall k :: k in w.rows ==> !LifetimeExpired(w.rows[k], now)
    case NotFound => true
  }

  ghost predicate Calm(ws: seq<World>, cs: seq<Command>) {
    Run(ws, cs) && ws[0] == NEW_MACHINE &&
    (forall i :: 0 <= i < |cs| ==> CalmCommand(ws[i], cs[i])) &&
    (forall i :: 0 <= i < |cs| && cs[i].Detaching? ==> Attachments(cs[..i], cs[i].k) > 0)
  }

  // ------------------------------------------------------------------- step by step

  /** The session at a key stays the same one unless it had no connections. */
  ghost predicate SameOrIdle(w: World, w': World, k: Key) {
    k in w.rows && k in w'.rows && w'.rows[k].id != w.rows[k].id ==> w.rows[k].connections == 0
  }

  /** Up to the point where the session is created or joined: at most an idle row has gone. */
  lemma ApproachCounts(w: World, q: Request, s: Stages)
    requires Inv(w) && AllGraceOk(w)
    requires Reconciled(w, q.key, q.now, s.reaped) && Settled(s.reaped, q.key, s.told, s.settled)
    ensures s.settled.rows == w.rows || (Connections(w, q.key) == 0 && s.settled.rows == w.rows - {q.key})
    ensures w.nextId <= s.settled.nextId
  {
    hide Balanced, WorkspacesOk, IdsOk, Settled, Shrunk, PrintOf;
    ReconcileKeeps(w, q.key, q.now, s.reaped);
    NothingStale(s.reaped, q.key, s.told, s.settled);
    assert q.key in w.rows ==> GraceOk(w.rows[q.key]);
  }

  lemma AttachCounts(w: World, q: Request, s: Stages, outcome: Outcome, w': World, k: Key)
    requires Inv(w) && AllGraceOk(w) && outcome.Ready? && Ensured(w, q, s, outcome, w')
    ensures AllGraceOk(w') && Connections(w', k) == Connections(w, k) + if q.key == k then 1 else 0
    ensures SameOrIdle(w, w', k)
    ensures outcome == Ready(true) && q.key in w.rows && q.key in w'.rows ==> w'.rows[q.key].id != w.rows[q.key].id
  {
    hide Conserved, WorkspacesOk, Reconciled, Settled, Building, EngineOk, PrintOf, WithInitialized, WithPreserved, Counted, Full;
    ApproachCounts(w, q, s);
  }

  lemma CreateCounts(w: World, c: Command, w': World, k: Key)
    requires Inv(w) && AllGraceOk(w) && c.Creating? && Step(w, c, w') && CalmCommand(w, c)
    ensures AllGraceOk(w') && Connections(w', k) == Connections(w, k) + Delta(c, k)
    ensures SameOrIdle(w, w', k)
  {
    hide Inv, FlowSetUp, Ensured, HookEffect, GraceOk;
    SetUpKeeps(w, c.k, c.req, c.told, c.clone, c.now, c.setup, c.mid);
    if c.result.Provisioned? {
      var q := Request(c.k, c.setup.workspace, c.maxPerUser, c.lifetime, c.now);
      var isNew :| Ensured(c.mid, q, c.s, Ready(isNew), w');
      AttachCounts(c.mid, q, c.s, Ready(isNew), w', k);
    }
  }

  lemma DetachCounts(w: World, l: Key, mode: string, gracePeriod: int, now: int, w': World, k: Key)
    requires Keyed(w.rows) && AllGraceOk(w) && Disconnected(w, l, mode, gracePeriod, now, w') && Connections(w, l) > 0
    ensures AllGraceOk(w') && Connections(w', k) == Connections(w, k) - if l == k then 1 else 0
    ensures SameOrIdle(w, w', k)
  {
    hide Shrunk, PrintOf;
  }

  lemma PassCounts(w: World, now: int, strays: set<string>, w': World, k: Key)
    requires AllGraceOk(w) && Cleaned(w, now, strays, w') && CalmCommand(w, Cleaning(now, strays))
    ensures AllGraceOk(w') && Connections(w', k) == Connections(w, k) && SameOrIdle(w, w', k)
  {
    hide Shrunk, RowRefs, RowNets, Orphans, TrackedBy;
    if k in w.rows && k !in w'.rows {
      assert GraceExpired(w.rows[k], now) && GraceOk(w.rows[k]);
    }
  }

  lemma StepCounts(w: World, c: Command, w': World, k: Key)
    requires Inv(w) && AllGraceOk(w) && Step(w, c, w') && CalmCommand(w, c)
    requires c.Detaching? ==> Connections(w, c.k) > 0
    ensures AllGraceOk(w') && Connections(w', k) == Connections(w, k) + Delta(c, k)
    ensures SameOrIdle(w, w', k)
  {
    hide Balanced, WorkspacesOk, IdsOk, CreateTried, Ensured, Disconnected, SwitchTried, RemoveTried, Cleaned, GraceOk;
    match c
    case Creating(_, _, _, _, _, _, _, _, _, _, _) => CreateCounts(w, c, w', k);
    case Attaching(q, s, outcome) => AttachCounts(w, q, s, outcome, w', k);
    case Detaching(l, mode, gracePeriod, now) => DetachCounts(w, l, mode, gracePeriod, now, w', k);
    case Switching(l, branch, told, git, ok) => SwitchKeeps(w, l, branch, told, git, ok, w');
    case Removing(_, _, _, _, _) => RemoveContinues(w, c, w');
    case Cleaning(now, strays) => PassCounts(w, now, strays, w', k);
    case NotFound =>
  }

  // --------------------------------------------------------------------- whole runs

  lemma Recent(cs: seq<Command>, i: nat, k: Key)
    requires i < |cs|
    ensures Attachments(cs[..i + 1], k) + Ensures(cs[..i + 1], k) ==
            Attachments(cs[..i], k) + Ensures(cs[..i], k) + Delta(cs[i], k)
  {
    assert cs[..i + 1][..i] == cs[..i];
  }

  /**
   At every point of a calm run a session's counter is the number of attached clients plus the number of
   creates that provisioned it, and where there is no session, that number is zero.
   */
  lemma {:induction false} LedgerBalances(ws: seq<World>, cs: seq<Command>, i: nat, k: Key)
    requires Calm(ws, cs) && i <= |cs|
    ensures Connections(ws[i], k) == Attachments(cs[..i], k) + Ensures(cs[..i], k)
    ensures AllGraceOk(ws[i])
  {
    hide Step, CalmCommand, Inv, Delta, GraceOk;
    if i > 0 {
      LedgerBalances(ws, cs, i - 1, k);
      NothingYet();
      RunKeeps(ws, cs, i - 1);
      Recent(cs, i - 1, k);
      var c := cs[i - 1];
      if c.Detaching? {
        LedgerBalances(ws, cs, i - 1, c.k);
      }
      assert Step(ws[i - 1], c, ws[i - 1 + 1]) && CalmCommand(ws[i - 1], c);
      StepCounts(ws[i - 1], c, ws[i], k);
    }
  }

  /** So a session that goes, or makes way for another, has nobody left who counts on it. */
  lemma GoesOnlyWhenIdle(ws: seq<World>, cs: seq<Command>, i: nat, k: Key)
    requires Calm(ws, cs) && i < |cs| && k in ws[i].rows
    ensures k !in ws[i + 1].rows ==> Attachments(cs[..i + 1], k) + Ensures(cs[..i + 1], k) == 0
    ensures k in ws[i + 1].rows && ws[i + 1].rows[k].id != ws[i].rows[k].id ==>
              Attachments(cs[..i], k) + Ensures(cs[..i], k) == 0
  {
    hide Step, CalmCommand, Inv, Delta, GraceOk;
    LedgerBalances(ws, cs, i, k);
    LedgerBalances(ws, cs, i + 1, k);
    NothingYet();
    RunKeeps(ws, cs, i);
    var c := cs[i];
    if c.Detaching? {
      LedgerBalances(ws, cs, i, c.k);
    }
    assert Step(ws[i], c, ws[i + 1]) && CalmCommand(ws[i], c);
    StepCounts(ws[i], c, ws[i + 1], k);
  }

  /** Nobody detaches who has not attached. */
  lemma {:induction false} AttachmentsCount(ws: seq<World>, cs: seq<Command>, i: nat, k: Key)
    requires Calm(ws, cs) && i <= |cs|
    ensures Attachments(cs[..i], k) >= 0
  {
    hide Step, CalmCommand;
    if i > 0 {
      AttachmentsCount(ws, cs, i - 1, k);
      assert cs[..i][..i - 1] == cs[..i - 1];
    }
  }

  /** The session of a machine that was created stays, however many clients come and go. */
  lemma CreatedStays(ws: seq<World>, cs: seq<Command>, i: nat, k: Key)
    requires Calm(ws, cs) && i <= |cs| && Ensures(cs[..i], k) > 0
    ensures k in ws[i].rows && ws[i].rows[k].connections > 0
  {
    hide Step, CalmCommand, GraceOk, Ensures, Attachments;
    LedgerBalances(ws, cs, i, k);
    AttachmentsCount(ws, cs, i, k);
  }

  // ------------------------------------------------------------------- failed attaches

  /**
   A client detaches even if it did not get in. That changes no counter exactly unless it was refused for a
   preserved workspace while somebody holds a connection under the same name.
   */
  lemma ExtraDetach(w: World, q: Request, s: Stages, outcome: Outcome, mid: World,
                    mode: string, gracePeriod: int, later: int, w': World)
    requires Inv(w) && Current(w, q) && Ensured(w, q, s, outcome, mid) && !outcome.Ready?
    requires Disconnected(mid, q.key, mode, gracePeriod, later, w')
    ensures (forall k :: Connections(w', k) == Connections(mid, k)) <==>
            outcome != RefusedPreserved || Connections(w, q.key) == 0
  {
    hide Balanced, WorkspacesOk, IdsOk, Shrunk, HookEffect, PrintOf;
    EnsuredKeeps(w, q, s, outcome, mid);
    hide Ensured;
    if outcome == RefusedPreserved && Connections(w, q.key) > 0 {
      assert Connections(w', q.key) < Connections(mid, q.key);
    }
  }

  lemma NewSessionHasOne(w: World, q: Request, s: Stages, w': World)
    requires Ensured(w, q, s, Ready(true), w')
    ensures q.key in w'.rows && Connections(w', q.key) == 1
  {
    hide Reconciled, Settled, Building, EngineOk, PrintOf, WithInitialized, WithPreserved, Counted, Full;
  }

  lemma LastDetach(w: World, k: Key, mode: string, gracePeriod: int, now: int, w': World)
    requires Keyed(w.rows) && k in w.rows && Connections(w, k) == 1 && Disconnected(w, k, mode, gracePeriod, now, w')
    ensures Connections(w', k) == 0 && (mode == "destroy-on-disconnect" ==> k !in w'.rows)
  {
    hide Shrunk, PrintOf;
  }

  /**
   And if another client creates the session in between, the extra detach takes that client's connection:
   it is attached, and nobody is counted.
   */
  lemma ExtraDetachTakesAnother(w: World, q: Request, s: Stages, outcome: Outcome, w1: World, r: Request, t: Stages, w2: World,
                                mode: string, gracePeriod: int, later: int, w3: World)
    requires Inv(w) && Current(w, q) && Ensured(w, q, s, outcome, w1) && (outcome.NotAttached? || outcome == OnCreateFailed)
    requires r.key == q.key && Current(w1, r) && Ensured(w1, r, t, Ready(true), w2)
    requires Disconnected(w2, q.key, mode, gracePeriod, later, w3)
    ensures Connections(w1, q.key) == 0 && Connections(w2, q.key) == 1 && Connections(w3, q.key) == 0
    ensures mode == "destroy-on-disconnect" ==> q.key !in w3.rows
  {
    hide Balanced, WorkspacesOk, IdsOk, Ensured, HookEffect, Disconnected, Current;
    EnsuredKeeps(w, q, s, outcome, w1);
    EnsuredKeeps(w1, r, t, Ready(true), w2);
    NewSessionHasOne(w1, r, t, w2);
    LastDetach(w2, q.key, mode, gracePeriod, later, w3);
  }
}
