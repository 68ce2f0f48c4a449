/**
 Starting a session's companion services, with the undoing of what was started when a later one fails.
 */
module Services {
  import opened Options
  import opened Lists
  import opened ServiceIds
  import opened Runtime
  import KeyedMerge

  type Service = KeyedMerge.Service

  datatype Ending = Started | MalformedVolume(at: nat) | CreateFailed(at: nat) | StartFailed(at: nat)

  /** A volume is `source:target`. */
  predicate GoodVolumes(s: Service) {
    forall v :: v in s.volumes ==> ':' in v
  }

  function ServiceContainer(prefix: string, s: Service): string {
    prefix + "-" + s.name
  }

  /** How starting ends, from the names in use and the script of the runtime. */
  function Plan(services: seq<Service>, i: nat, prefix: string, taken: set<string>, faults: nat -> bool, call: nat): Ending
    requires i <= |services|
    decreases |services| - i
  {
    if i == |services| then Started
    else
      var name := ServiceContainer(prefix, services[i]);
      if !GoodVolumes(services[i]) then MalformedVolume(i)
      else if faults(call) || name in taken then CreateFailed(i)
      else if faults(call + 1) then StartFailed(i)
      else Plan(services, i + 1, prefix, taken + {name}, faults, call + 2)
  }

  lemma ServiceNames(prefix: string, services: seq<Service>)
    ensures forall i :: 0 <= i < |services| ==> ServiceContainer(prefix, services[i]) == prefix + "-" + services[i].name
  {
  }

  predicate Never(n: nat) {
    false
  }

  /** No call from `from` up to now was scripted to fail. */
  ghost predicate Quiet(faults: nat -> bool, from: nat, to: nat) {
    forall t :: from <= t < to ==> !faults(t)
  }

  lemma QuietCall(faults: nat -> bool, call: nat)
    requires !faults(call)
    ensures Quiet(faults, call, call + 1)
  {
  }

  lemma QuietJoined(faults: nat -> bool, a: nat, b: nat, c: nat)
    requires a <= b <= c && Quiet(faults, a, b) && Quiet(faults, b, c)
    ensures Quiet(faults, a, c)
  {
  }

  /** Best effort: failures are ignored, the containers that stay are given up. */
  method StopServices(rt: FakeRuntime, ids: seq<string>, ghost a: Engine, ghost held: set<string>, ghost nets: set<string>)
    requires rt.Valid() && EngineOk(a) && Building(a, rt.State(), held, nets) && ToSet(ids) <= held && NoDuplicates(ids)
    modifies rt
    ensures rt.Valid() && Building(a, rt.State(), held - ToSet(ids), nets)
    ensures rt.minted == old(rt.minted) && rt.left == old(rt.left)
  {
    hide Building, EngineOk, Justified;
    assert held - ToSet(ids[..0]) == held;
    for i := 0 to |ids|
      invariant rt.Valid() && Building(a, rt.State(), held - ToSet(ids[..i]), nets)
      invariant rt.minted == old(rt.minted) && rt.left == old(rt.left)
    {
      ghost var b, left := rt.State(), held - ToSet(ids[..i]);
      assert ids[i] in left;
      var ok := rt.RemoveContainer(ids[i]);
      BuildingContainer(a, b, left, nets, ids[i], ok);
      assert held - ToSet(ids[..i + 1]) == left - {ids[i]};
    }
    assert ids[..|ids|] == ids;
  }

  /** Leaving n containers behind without touching them. */
  lemma BuildingGiveUp(a: Engine, b: Engine, ids: set<string>, nets: set<string>, n: nat)
    requires EngineOk(b) && Building(a, b, ids, nets) && (n == 0 ==> ids == {})
    ensures Building(a, b.(abandoned := b.abandoned + ids, left := b.left + n), {}, nets)
    ensures EngineOk(b.(abandoned := b.abandoned + ids, left := b.left + n))
  {
    hide NetworksGrown;
  }

  lemma MintedWellFormed(n: nat)
    ensures WellFormed(ContainerId(n)) && WellFormed(NetworkId(n))
  {
  }

  /**
   On success the ids of the running containers, in order. On failure everything this call started is
   removed again, except that a malformed volume returns at once and leaves the earlier services behind.
   */
  method StartServices(rt: FakeRuntime, services: seq<Service>, prefix: string)
    returns (ending: Ending, ids: seq<string>, ghost leaked: seq<string>)
    requires rt.Valid() && IsName(prefix)
    modifies rt
    ensures rt.Valid()
    ensures ending == Plan(services, 0, prefix, old(rt.containers.Values), rt.faults, old(rt.calls))
    ensures ending == Started ==>
              Building(old(rt.State()), rt.State(), ToSet(ids), {}) && AllWellFormed(ids) && NoDuplicates(ids) && |ids| == |services| &&
              forall i :: 0 <= i < |ids| ==>
                ids[i] in rt.containers && rt.containers[ids[i]] == prefix + "-" + services[i].name
    ensures ending == Started ==>
              rt.calls == old(rt.calls) + 2 * |services| && Quiet(rt.faults, old(rt.calls), rt.calls)
    ensures ending != Started ==> Building(old(rt.State()), rt.State(), {}, {}) && ids == []
    ensures NoDuplicates(leaked) && ToSet(leaked) <= rt.containers.Keys - old(rt.containers.Keys)
    ensures |leaked| == if ending.MalformedVolume? then ending.at else 0
    ensures rt.left == old(rt.left) + |leaked| && (ending == Started ==> Tidy(old(rt.State()), rt.State()))
    ensures leaked != [] ==>
              LeakyAt(services, |leaked|) && rt.botched == old(rt.botched) &&
              rt.abandoned == old(rt.abandoned) + ToSet(leaked) && rt.abandonedNets == old(rt.abandonedNets)
  {
    hide Building, EngineOk, Justified, Plan, WellFormed, GoodVolumes, ServiceContainer, LeakyAt;
    ghost var a := rt.State();
    ids, leaked := [], [];
    BuildingStart(a);
    assert ToSet(ids) == {};
    for i := 0 to |services|
      invariant rt.Valid() && Building(a, rt.State(), ToSet(ids), {})
      invariant |ids| == i && NoDuplicates(ids) && AllWellFormed(ids)
      invariant forall j :: 0 <= j < i ==>
                  ids[j] in rt.containers && rt.containers[ids[j]] == ServiceContainer(prefix, services[j])
      invariant NothingLost(a, rt.State()) && Tidy(a, rt.State())
      invariant rt.calls == old(rt.calls) + 2 * i && Quiet(rt.faults, old(rt.calls), rt.calls)
      invariant Plan(services, 0, prefix, a.containers.Values, rt.faults, old(rt.calls))
             == Plan(services, i, prefix, rt.containers.Values, rt.faults, rt.calls)
    {
      var svc := services[i];
      PlanStep(services, i, prefix, rt.containers.Values, rt.faults, rt.calls);
      if !GoodVolumes(svc) {
        leaked := ids;
        HeldAreNew(a, rt.State(), ToSet(ids));
        BuildingGiveUp(a, rt.State(), ToSet(ids), {}, i);
        if i > 0 {
          LateMalformed(services, prefix, a.containers.Values, rt.faults, old(rt.calls));
        }
        rt.abandoned, rt.left := rt.abandoned + ToSet(ids), rt.left + i;
        return MalformedVolume(i), [], leaked;
      }
      var created, started;
      created, started := StartOne(rt, ServiceContainer(prefix, svc), ids, a);
      if created.None? {
        return CreateFailed(i), [], [];
      }
      if !started {
        return StartFailed(i), [], [];
      }
      QuietJoined(rt.faults, old(rt.calls), old(rt.calls) + 2 * i, rt.calls);
      ids := ids + [created.value];
    }
    PlanEnd(services, prefix, rt.containers.Values, rt.faults, rt.calls);
    ServiceNames(prefix, services);
    ending := Started;
  }

  /** Creates and starts one more container; if that fails, removes all of this call's containers. */
  method StartOne(rt: FakeRuntime, name: string, ids: seq<string>, ghost a: Engine)
    returns (created: Option<string>, started: bool)
    requires rt.Valid() && IsName(name) && NoDuplicates(ids) && AllWellFormed(ids)
    requires EngineOk(a) && Building(a, rt.State(), ToSet(ids), {})
    modifies rt
    ensures rt.Valid() && rt.left == old(rt.left)
    ensures created.None? <==> old(rt.faults(rt.calls)) || name in old(rt.containers.Values)
    ensures created.Some? ==> (started <==> !old(rt.faults(rt.calls + 1)))
    ensures created.Some? && started ==>
              created.value !in old(rt.containers) && rt.containers == old(rt.containers)[created.value := name] &&
              rt.containers.Values == old(rt.containers.Values) + {name} && rt.calls == old(rt.calls) + 2 &&
              NoDuplicates(ids + [created.value]) && AllWellFormed(ids + [created.value]) &&
              Building(a, rt.State(), ToSet(ids + [created.value]), {}) &&
              NothingLost(old(rt.State()), rt.State()) && rt.botched == old(rt.botched)
    ensures created.None? || !started ==> Building(a, rt.State(), {}, {})
  {
    hide Building, EngineOk, Justified, WellFormed;
    ghost var b := rt.State();
    started := false;
    created := rt.CreateContainer(name);
    if created.None? {
      StopServices(rt, ids, a, ToSet(ids), {});
      assert ToSet(ids) - ToSet(ids) == {};
      return;
    }
    BuildingMore(a, b, ToSet(ids), {}, name);
    MintedWellFormed(b.minted);
    MintedAbsent(b);
    var all := ids + [created.value];
    assert ToSet(all) == ToSet(ids) + {created.value};
    assert rt.containers.Values == b.containers.Values + {name} by {
      ValuesAdded(b.containers, created.value, name);
    }
    started := rt.StartContainer(created.value);
    if !started {
      StopServices(rt, all, a, ToSet(all), {});
      assert ToSet(all) - ToSet(all) == {};
    }
  }

  lemma ValuesAdded(m: map<string, string>, k: string, v: string)
    requires k !in m
    ensures m[k := v].Values == m.Values + {v}
  {
    var n := m[k := v];
    forall x | x in m.Values + {v}
      ensures x in n.Values
    {
      if x in m.Values {
        var j :| j in m && m[j] == x;
        assert n[j] == x;
      } else {
        assert n[k] == x;
      }
    }
  }

  lemma PlanStep(services: seq<Service>, i: nat, prefix: string, taken: set<string>, faults: nat -> bool, call: nat)
    requires i < |services| && IsName(prefix)
    ensures IsName(ServiceContainer(prefix, services[i]))
    ensures var name := ServiceContainer(prefix, services[i]);
            Plan(services, i, prefix, taken, faults, call) ==
            if !GoodVolumes(services[i]) then MalformedVolume(i)
            else if faults(call) || name in taken then CreateFailed(i)
            else if faults(call + 1) then StartFailed(i)
            else Plan(services, i + 1, prefix, taken + {name}, faults, call + 2)
  {
  }

  lemma PlanEnd(services: seq<Service>, prefix: string, taken: set<string>, faults: nat -> bool, call: nat)
    ensures Plan(services, |services|, prefix, taken, faults, call) == Started
  {
  }

  lemma BuildingStart(a: Engine)
    ensures Building(a, a, {}, {})
  {
  }

  lemma HeldAreNew(a: Engine, b: Engine, ids: set<string>)
    requires EngineOk(a) && Building(a, b, ids, {})
    ensures ids <= b.containers.Keys - a.containers.Keys
  {
  }

  lemma MintedAbsent(b: Engine)
    requires EngineOk(b)
    ensures ContainerId(b.minted) !in b.containers
  {
  }

  // ------------------------------------------------------------- when nothing leaks

  /** A service with a malformed volume comes after services that can all be started. */
  predicate LeakyAt(services: seq<Service>, k: nat) {
    0 < k < |services| && (exists v :: v in services[k].volumes && ':' !in v) &&
    (forall i, v :: 0 <= i < k && v in services[i].volumes ==> ':' in v) &&
    (forall i, j :: 0 <= i < j < k ==> services[i].name != services[j].name)
  }

  lemma {:induction false} PlanLeaks(services: seq<Service>, i: nat, prefix: string, taken: set<string>, k: nat)
    requires LeakyAt(services, k) && i <= k
    requires forall j :: i <= j < k ==> ServiceContainer(prefix, services[j]) !in taken
    ensures Plan(services, i, prefix, taken, Never, 0) == MalformedVolume(k)
    decreases k - i
  {
    if i < k {
      var name := ServiceContainer(prefix, services[i]);
      forall j | i + 1 <= j < k
        ensures ServiceContainer(prefix, services[j]) !in taken + {name}
      {
        SameName(prefix, services[i], services[j]);
      }
      PlanLeaks(services, i + 1, prefix, taken + {name}, k);
      PlanShift(services, i + 1, prefix, taken + {name}, 2, 0);
    }
  }

  lemma SameName(prefix: string, s: Service, t: Service)
    ensures ServiceContainer(prefix, s) == ServiceContainer(prefix, t) <==> s.name == t.name
  {
    assert s.name == ServiceContainer(prefix, s)[|prefix| + 1..];
    assert t.name == ServiceContainer(prefix, t)[|prefix| + 1..];
  }

  lemma {:induction false} PlanShift(services: seq<Service>, i: nat, prefix: string, taken: set<string>, c: nat, d: nat)
    requires i <= |services|
    ensures Plan(services, i, prefix, taken, Never, c) == Plan(services, i, prefix, taken, Never, d)
    decreases |services| - i
  {
    if i < |services| {
      PlanShift(services, i + 1, prefix, taken + {ServiceContainer(prefix, services[i])}, c + 2, d + 2);
    }
  }

  lemma {:induction false} MalformedMeansLeaky(services: seq<Service>, i: nat, prefix: string, taken: set<string>, faults: nat -> bool, call: nat)
    requires i <= |services| && Plan(services, i, prefix, taken, faults, call).MalformedVolume?
    ensures var k := Plan(services, i, prefix, taken, faults, call).at;
            i <= k < |services| && !GoodVolumes(services[k]) &&
            (forall j :: i <= j < k ==> GoodVolumes(services[j]) && ServiceContainer(prefix, services[j]) !in taken) &&
            (forall j, l :: i <= j < l < k ==> services[j].name != services[l].name)
    decreases |services| - i
  {
    var name := ServiceContainer(prefix, services[i]);
    if GoodVolumes(services[i]) {
      MalformedMeansLeaky(services, i + 1, prefix, taken + {name}, faults, call + 2);
      var k := Plan(services, i, prefix, taken, faults, call).at;
      forall l | i < l < k
        ensures services[i].name != services[l].name
      {
        assert ServiceContainer(prefix, services[l]) !in taken + {name};
      }
    }
  }

  lemma LateMalformed(services: seq<Service>, prefix: string, taken: set<string>, faults: nat -> bool, call: nat)
    requires var e := Plan(services, 0, prefix, taken, faults, call); e.MalformedVolume? && e.at > 0
    ensures LeakyAt(services, Plan(services, 0, prefix, taken, faults, call).at)
  {
    MalformedMeansLeaky(services, 0, prefix, taken, faults, call);
  }

  /**
   A failed start leaves nothing behind, whatever the runtime does, exactly if no malformed volume comes
   after well-formed services with distinct names.
   */
  lemma NoLeakExactly(services: seq<Service>, prefix: string)
    ensures (forall taken: set<string>, faults: nat -> bool, call: nat ::
               var e := Plan(services, 0, prefix, taken, faults, call); e.MalformedVolume? ==> e.at == 0)
            <==> forall k: nat :: !LeakyAt(services, k)
  {
    if k: nat :| LeakyAt(services, k) {
      PlanLeaks(services, 0, prefix, {}, k);
      var none: set<string> := {};
      var e := Plan(services, 0, prefix, none, Never, 0);
      assert e == MalformedVolume(k);
    } else {
      forall taken: set<string>, faults: nat -> bool, call: nat
        | Plan(services, 0, prefix, taken, faults, call).MalformedVolume?
        ensures Plan(services, 0, prefix, taken, faults, call).at == 0
      {
        MalformedMeansLeaky(services, 0, prefix, taken, faults, call);
        var k := Plan(services, 0, prefix, taken, faults, call).at;
        assert !LeakyAt(services, k);
      }
    }
  }

  /** The second of two services has a malformed volume: the first one is started and left. */
  lemma LeakExample()
    ensures var good := KeyedMerge.Service("db", "postgres", [], map[], ["data:/data"]);
            var bad := KeyedMerge.Service("web", "nginx", [], map[], ["data"]);
            Plan([good, bad], 0, "podspawn-ann", {}, Never, 0) == MalformedVolume(1)
  {
    var good := KeyedMerge.Service("db", "postgres", [], map[], ["data:/data"]);
    var bad := KeyedMerge.Service("web", "nginx", [], map[], ["data"]);
    assert "data:/data"[4] == ':';
    assert GoodVolumes(good);
    assert "data" in bad.volumes && !GoodVolumes(bad);
    assert Plan([good, bad], 1, "podspawn-ann", {ServiceContainer("podspawn-ann", good)}, Never, 2) == MalformedVolume(1);
  }
}
