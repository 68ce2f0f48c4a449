/**
 The container runtime: the maps of the in-memory fake, with a script that says which calls fail. As with
 Docker, containers have an id besides their name, either finds them, and creating one fails if its name is
 taken.

 Four fields are bookkeeping of the proof: `abandoned` and `abandonedNets` are what the program has given up
 on, `botched` counts the removals that failed, and `left` the containers it returned without removing.
 */
module Runtime {
  import opened Options
  import Lists

  /** `containers` maps ids to names. */
  datatype Engine = Engine(
    containers: map<string, string>, networks: set<string>, minted: nat,
    abandoned: set<string>, abandonedNets: set<string>, botched: nat, left: nat)

  /** Stand-ins for the hex ids of the runtime; names start with `podspawn-`, so ids and names never clash. */
  function ContainerId(n: nat): string {
    seq(n + 1, _ => 'f')
  }

  function NetworkId(n: nat): string {
    seq(n + 1, _ => 'e')
  }

  predicate MintedContainer(id: string, n: nat) {
    0 < |id| <= n && forall i :: 0 <= i < |id| ==> id[i] == 'f'
  }

  predicate MintedNetwork(id: string, n: nat) {
    0 < |id| <= n && forall i :: 0 <= i < |id| ==> id[i] == 'e'
  }

  predicate IsName(name: string) {
    name != "" && name[0] == 'p'
  }

  ghost predicate EngineOk(e: Engine) {
    (forall id :: id in e.containers ==> MintedContainer(id, e.minted) && IsName(e.containers[id])) &&
    (forall id, jd :: id in e.containers && jd in e.containers && id != jd ==> e.containers[id] != e.containers[jd]) &&
    (forall id :: id in e.abandoned ==> MintedContainer(id, e.minted)) &&
    (forall n :: n in e.networks ==> MintedNetwork(n, e.minted)) &&
    (forall n :: n in e.abandonedNets ==> MintedNetwork(n, e.minted))
  }

  // --------------------------------------------------------------- references

  /** A reference finds a container by its id or by its name. */
  function Matched(e: Engine, refs: set<string>): set<string> {
    set id | id in e.containers && (id in refs || e.containers[id] in refs)
  }

  function RemovedContainer(e: Engine, ref: string, ok: bool): Engine {
    if ok then e.(containers := map id | id in e.containers && id !in Matched(e, {ref}) :: e.containers[id])
    else e.(abandoned := e.abandoned + Matched(e, {ref}), botched := e.botched + 1)
  }

  function RemovedNetwork(e: Engine, id: string, ok: bool): Engine {
    if ok then e.(networks := e.networks - {id})
    else e.(abandonedNets := e.abandonedNets + ({id} * e.networks), botched := e.botched + 1)
  }

  /** Nothing was given up between the two. */
  predicate NothingLost(a: Engine, b: Engine) {
    b.abandoned == a.abandoned && b.abandonedNets == a.abandonedNets
  }

  /** Between the two no removal failed and nothing was left behind. */
  predicate Tidy(a: Engine, b: Engine) {
    b.botched == a.botched && b.left == a.left
  }

  lemma MatchId(e: Engine, id: string)
    requires EngineOk(e) && id in e.containers
    ensures Matched(e, {id}) == {id}
    ensures Matched(e, {e.containers[id]}) == {id}
  {
  }

  // ------------------------------------------------------------- tearing down

  /**
   b is a after removing what refs and nets name: everything else is as before, and what should be
   gone but is not has been given up, which takes a removal that failed.
   */
  ghost predicate Shrunk(a: Engine, refs: set<string>, nets: set<string>, b: Engine) {
    b.minted == a.minted &&
    (forall id :: id in b.containers ==> id in a.containers && b.containers[id] == a.containers[id]) &&
    (forall id :: id in a.containers && id !in Matched(a, refs) ==> id in b.containers) &&
    (forall id :: id in Matched(a, refs) && id in b.containers ==> id in b.abandoned) &&
    a.abandoned <= b.abandoned <= a.abandoned + Matched(a, refs) &&
    b.networks <= a.networks <= b.networks + nets &&
    nets * b.networks <= b.abandonedNets &&
    a.abandonedNets <= b.abandonedNets <= a.abandonedNets + (nets * a.networks) &&
    b.left == a.left && a.botched <= b.botched && (Tidy(a, b) ==> NothingLost(a, b))
  }

  lemma ShrunkNothing(a: Engine)
    ensures Shrunk(a, {}, {}, a)
  {
  }

  lemma ShrunkContainer(a: Engine, refs: set<string>, nets: set<string>, b: Engine, ref: string, ok: bool)
    requires Shrunk(a, refs, nets, b)
    ensures Shrunk(a, refs + {ref}, nets, RemovedContainer(b, ref, ok))
  {
    var c := RemovedContainer(b, ref, ok);
    forall id | id in Matched(a, refs + {ref}) && id in c.containers
      ensures id in c.abandoned
    {
      if id !in Matched(a, refs) {
        assert id in Matched(b, {ref});
      }
    }
  }

  lemma ShrunkNetwork(a: Engine, refs: set<string>, nets: set<string>, b: Engine, id: string, ok: bool)
    requires Shrunk(a, refs, nets, b)
    ensures Shrunk(a, refs, nets + {id}, RemovedNetwork(b, id, ok))
  {
  }

  /** One teardown after the other. */
  lemma ShrunkTwice(a: Engine, r1: set<string>, n1: set<string>, b: Engine, r2: set<string>, n2: set<string>, c: Engine)
    requires Shrunk(a, r1, n1, b) && Shrunk(b, r2, n2, c)
    ensures Shrunk(a, r1 + r2, n1 + n2, c)
  {
    forall id | id in Matched(a, r1 + r2) && id in c.containers
      ensures id in c.abandoned
    {
      if id !in Matched(a, r1) {
        assert id in Matched(b, r2);
      }
    }
    assert forall id :: id in Matched(b, r2) ==> id in Matched(a, r1 + r2);
  }

  lemma ShrunkOk(a: Engine, refs: set<string>, nets: set<string>, b: Engine)
    requires EngineOk(a) && Shrunk(a, refs, nets, b)
    ensures EngineOk(b)
  {
  }

  // --------------------------------------------------------------- building up

  /**
   b is a plus the new containers ids and networks nets that somebody still holds; anything else that
   is new has been given up, because a removal failed or because it was left behind. New ids are longer than all earlier ones, which is how freshness is said here.
   */
  ghost predicate Building(a: Engine, b: Engine, ids: set<string>, nets: set<string>) {
    a.minted <= b.minted &&
    ContainersGrown(a.minted, a.containers, a.abandoned, b.containers, b.abandoned, ids) &&
    NetworksGrown(a.minted, a.networks, a.abandonedNets, b.networks, b.abandonedNets, nets) &&
    a.left <= b.left && a.botched <= b.botched && (Tidy(a, b) ==> NothingLost(a, b))
  }

  ghost predicate ContainersGrown(minted: nat, before: map<string, string>, lost: set<string>,
                                  after: map<string, string>, lostAfter: set<string>, ids: set<string>)
  {
    (forall id :: id in before ==> id in after && after[id] == before[id]) &&
    (forall id :: id in after && id !in before ==> |id| > minted && (id in ids || id in lostAfter)) &&
    (forall id :: id in ids ==> id in after && |id| > minted && id !in lostAfter) &&
    lost <= lostAfter && (forall id :: id in lostAfter && id !in lost ==> |id| > minted)
  }

  ghost predicate NetworksGrown(minted: nat, before: set<string>, lost: set<string>,
                                after: set<string>, lostAfter: set<string>, nets: set<string>)
  {
    before <= after &&
    (forall n :: n in after && n !in before ==> |n| > minted && (n in nets || n in lostAfter)) &&
    (forall n :: n in nets ==> n in after && |n| > minted && n !in lostAfter) &&
    lost <= lostAfter && (forall n :: n in lostAfter && n !in lost ==> |n| > minted)
  }

  /** With nothing held, nothing left behind and no removal failed, everything is as it was. */
  lemma NothingLeft(a: Engine, b: Engine)
    requires EngineOk(a) && Building(a, b, {}, {}) && Tidy(a, b)
    ensures b.containers == a.containers && b.networks == a.networks
  {
    forall id | id in b.containers
      ensures id in a.containers
    {
      assert id !in a.containers ==> id in a.abandoned;
    }
    forall n | n in b.networks
      ensures n in a.networks
    {
      assert n !in a.networks ==> n in a.abandonedNets;
    }
  }

  lemma RemovedOk(b: Engine, ref: string, ok: bool)
    requires EngineOk(b)
    ensures EngineOk(RemovedContainer(b, ref, ok))
  {
  }

  /** One container that was held is gone or given up. */
  lemma GrownLess(minted: nat, before: map<string, string>, lost: set<string>,
                  after: map<string, string>, lostAfter: set<string>, ids: set<string>, id: string)
    requires ContainersGrown(minted, before, lost, after, lostAfter, ids) && id in ids
    requires forall x :: x in before ==> |x| <= minted
    ensures ContainersGrown(minted, before, lost, after - {id}, lostAfter, ids - {id})
    ensures ContainersGrown(minted, before, lost, after, lostAfter + {id}, ids - {id})
  {
  }

  lemma BuildingContainer(a: Engine, b: Engine, ids: set<string>, nets: set<string>, id: string, ok: bool)
    requires EngineOk(a) && EngineOk(b) && Building(a, b, ids, nets) && id in ids
    ensures Building(a, RemovedContainer(b, id, ok), ids - {id}, nets)
    ensures EngineOk(RemovedContainer(b, id, ok))
    ensures RemovedContainer(b, b.containers[id], ok) == RemovedContainer(b, id, ok)
  {
    assert id in b.containers;
    OldIsShort(a);
    RemovedOk(b, id, ok);
    MatchId(b, id);
    GrownLess(a.minted, a.containers, a.abandoned, b.containers, b.abandoned, ids, id);
    hide NetworksGrown, ContainersGrown, EngineOk, Matched;
    assert RemovedContainer(b, id, true).containers == b.containers - {id};
    assert RemovedContainer(b, b.containers[id], true).containers == b.containers - {id};
  }

  lemma OldIsShort(a: Engine)
    requires EngineOk(a)
    ensures forall id :: id in a.containers || id in a.abandoned ==> |id| <= a.minted
    ensures forall n :: n in a.networks || n in a.abandonedNets ==> |n| <= a.minted
  {
  }

  lemma BuildingNetwork(a: Engine, b: Engine, ids: set<string>, nets: set<string>, n: string, ok: bool)
    requires EngineOk(a) && EngineOk(b) && Building(a, b, ids, nets) && n in nets
    ensures Building(a, RemovedNetwork(b, n, ok), ids, nets - {n})
    ensures EngineOk(RemovedNetwork(b, n, ok))
  {
    OldIsShort(a);
    hide ContainersGrown;
  }

  lemma OneMoreOk(b: Engine, name: string)
    requires EngineOk(b) && IsName(name) && name !in b.containers.Values
    ensures ContainerId(b.minted) !in b.containers && ContainerId(b.minted) !in b.abandoned
    ensures EngineOk(b.(containers := b.containers[ContainerId(b.minted) := name], minted := b.minted + 1))
  {
  }

  lemma BuildingMore(a: Engine, b: Engine, ids: set<string>, nets: set<string>, name: string)
    requires EngineOk(a) && EngineOk(b) && Building(a, b, ids, nets)
    requires IsName(name) && name !in b.containers.Values
    ensures var id := ContainerId(b.minted);
            var c := b.(containers := b.containers[id := name], minted := b.minted + 1);
            id !in ids && EngineOk(c) && Building(a, c, ids + {id}, nets)
  {
    hide EngineOk, NetworksGrown;
    OneMoreOk(b, name);
  }

  lemma OneMoreNetOk(b: Engine)
    requires EngineOk(b)
    ensures NetworkId(b.minted) !in b.networks && NetworkId(b.minted) !in b.abandonedNets
    ensures EngineOk(b.(networks := b.networks + {NetworkId(b.minted)}, minted := b.minted + 1))
  {
  }

  lemma BuildingNet(a: Engine, b: Engine, ids: set<string>, nets: set<string>)
    requires EngineOk(a) && EngineOk(b) && Building(a, b, ids, nets)
    ensures var n := NetworkId(b.minted);
            var c := b.(networks := b.networks + {n}, minted := b.minted + 1);
            n !in nets && EngineOk(c) && Building(a, c, ids, nets + {n})
  {
    hide EngineOk, ContainersGrown;
    OneMoreNetOk(b);
  }

  // ------------------------------------------------------------------- the fake

  /** How many of the first calls fail. */
  function Failures(faults: nat -> bool, calls: nat): nat {
    if calls == 0 then 0 else Failures(faults, calls - 1) + if faults(calls - 1) then 1 else 0
  }

  /** No removal counts as failed for which no call failed. */
  ghost predicate Justified(botched: nat, faults: nat -> bool, calls: nat) {
    botched <= Failures(faults, calls)
  }

  class FakeRuntime {
    var containers: map<string, string>
    var networks: set<string>
    var minted: nat
    const faults: nat -> bool  // the scripted outcome of the n-th call: true for an error
    var calls: nat
    ghost var abandoned: set<string>
    ghost var abandonedNets: set<string>
    ghost var botched: nat
    ghost var left: nat

    constructor (faults: nat -> bool)
      ensures this.faults == faults && calls == 0
      ensures State() == Engine(map[], {}, 0, {}, {}, 0, 0)
    {
      this.faults := faults;
      containers, networks, minted, calls := map[], {}, 0, 0;
      abandoned, abandonedNets, botched, left := {}, {}, 0, 0;
    }

    ghost function State(): Engine
      reads this
    {
      Engine(containers, networks, minted, abandoned, abandonedNets, botched, left)
    }

    ghost predicate Valid()
      reads this
    {
      EngineOk(State()) && Justified(botched, faults, calls)
    }

    method Fault() returns (fails: bool)
      modifies this`calls
      ensures old(Justified(botched, faults, calls)) ==> Justified(botched, faults, calls)
      ensures fails == faults(old(calls)) && calls == old(calls) + 1
    {
      fails := faults(calls);
      calls := calls + 1;
    }

    /** None when the runtime cannot tell. */
    method ContainerExists(ref: string) returns (found: Option<bool>)
      modifies this`calls
      ensures old(Justified(botched, faults, calls)) ==> Justified(botched, faults, calls)
      ensures calls == old(calls) + 1 && (found.None? <==> old(faults(calls)))
      ensures found.Some? ==> (found.value <==> Matched(State(), {ref}) != {})
    {
      var fails := Fault();
      if fails {
        return None;
      }
      return Some((set id | id in containers && (id in {ref} || containers[id] in {ref})) != {});
    }

    method CreateContainer(name: string) returns (id: Option<string>)
      modifies this`containers, this`minted, this`calls
      ensures old(Justified(botched, faults, calls)) ==> Justified(botched, faults, calls)
      ensures calls == old(calls) + 1
      ensures id.None? <==> old(faults(calls)) || name in old(containers.Values)
      ensures id.None? ==> State() == old(State())
      ensures id.Some? ==>
                id.value == ContainerId(old(minted)) &&
                State() == old(State()).(containers := old(containers)[id.value := name], minted := old(minted) + 1)
    {
      var fails := Fault();
      if fails || name in containers.Values {
        return None;
      }
      var cid := ContainerId(minted);
      containers := containers[cid := name];
      minted := minted + 1;
      return Some(cid);
    }

    /** Starting, and running a command in, a container changes nothing that is modelled. */
    method StartContainer(ref: string) returns (ok: bool)
      modifies this`calls
      ensures old(Justified(botched, faults, calls)) ==> Justified(botched, faults, calls)
      ensures calls == old(calls) + 1 && ok == !old(faults(calls))
    {
      var fails := Fault();
      ok := !fails;
    }

    method Exec(ref: string) returns (ok: bool)
      modifies this`calls
      ensures old(Justified(botched, faults, calls)) ==> Justified(botched, faults, calls)
      ensures calls == old(calls) + 1 && ok == !old(faults(calls))
    {
      var fails := Fault();
      ok := !fails;
    }

    method RemoveContainer(ref: string) returns (ok: bool)
      modifies this`containers, this`calls, this`abandoned, this`botched
      ensures old(Justified(botched, faults, calls)) ==> Justified(botched, faults, calls)
      ensures State() == RemovedContainer(old(State()), ref, ok)
      ensures calls == old(calls) + 1 && ok == !old(faults(calls))
    {
      var fails := Fault();
      ok := !fails;
      if ok {
        containers := map id | id in containers && !(id in {ref} || containers[id] in {ref}) :: containers[id];
      } else {
        abandoned := abandoned + Matched(State(), {ref});
        botched := botched + 1;
      }
    }

    method CreateNetwork() returns (id: Option<string>)
      modifies this`networks, this`minted, this`calls
      ensures old(Justified(botched, faults, calls)) ==> Justified(botched, faults, calls)
      ensures calls == old(calls) + 1 && (id.None? <==> old(faults(calls)))
      ensures id.None? ==> State() == old(State())
      ensures id.Some? ==>
                id.value == NetworkId(old(minted)) &&
                State() == old(State()).(networks := old(networks) + {id.value}, minted := old(minted) + 1)
    {
      var fails := Fault();
      if fails {
        return None;
      }
      var nid := NetworkId(minted);
      networks := networks + {nid};
      minted := minted + 1;
      return Some(nid);
    }

    method RemoveNetwork(id: string) returns (ok: bool)
      modifies this`networks, this`calls, this`abandonedNets, this`botched
      ensures old(Justified(botched, faults, calls)) ==> Justified(botched, faults, calls)
      ensures State() == RemovedNetwork(old(State()), id, ok)
      ensures calls == old(calls) + 1 && ok == !old(faults(calls))
    {
      var fails := Fault();
      ok := !fails;
      if ok {
        networks := networks - {id};
      } else {
        abandonedNets := abandonedNets + ({id} * networks);
        botched := botched + 1;
      }
    }

    /** The managed containers in some order, as pairs of id and name, each once. */
    method ListContainers() returns (list: Option<seq<(string, string)>>)
      modifies this`calls
      ensures old(Justified(botched, faults, calls)) ==> Justified(botched, faults, calls)
      ensures calls == old(calls) + 1 && (list.None? <==> old(faults(calls)))
      ensures list.Some? ==> Lists.NoDuplicates(list.value)
      ensures list.Some? ==> forall c :: c in list.value <==> c.0 in containers && containers[c.0] == c.1
    {
      var fails := Fault();
      if fails {
        return None;
      }
      var found: seq<(string, string)> := [];
      var todo := containers.Keys;
      while todo != {}
        invariant todo <= containers.Keys && Lists.NoDuplicates(found)
        invariant forall c :: c in found <==> c.0 in containers.Keys - todo && containers[c.0] == c.1
        decreases todo
      {
        var id :| id in todo;
        found := found + [(id, containers[id])];
        todo := todo - {id};
      }
      return Some(found);
    }
  }
}
