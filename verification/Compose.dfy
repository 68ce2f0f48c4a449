/**
 Merging a child Podfile over its base, and what repeated merging along an `extends` chain means.
 A nil slice or map and an empty one are the same value here.
 */
module Compose {
  import opened Options
  import opened Lists
  import opened KeyedMerge

  datatype Dotfiles = Dotfiles(repo: string, install: string)
  datatype Resources = Resources(cpus: real, memory: string)
  datatype Ports = Ports(expose: seq<int>, strategy: string)

  datatype Podfile = Podfile(
    base: string, packages: seq<string>, shell: string, dotfiles: Option<Dotfiles>, repos: seq<Repo>,
    env: map<string, string>, services: seq<Service>, ports: Ports, resources: Resources,
    onCreate: string, onStart: string, extraCommands: seq<string>, parent: string, name: string,
    branch: string, mount: string, mode: string, workspace: string)

  datatype Flags = Flags(packages: bool, env: bool, services: bool, repos: bool,
                         extraCommands: bool, onCreate: bool, onStart: bool)

  /** A parsed file together with the fields it wrote with a bang. */
  datatype Raw = Raw(pf: Podfile, replace: Flags)

  // ------------------------------------------------------------------- one merge

  function Pick(child: string, base: string): string {
    if child != "" then child else base
  }

  function ConcatHooks(base: string, child: string): string {
    if base == "" then child
    else if child == "" then base
    else base + "\n" + child
  }

  function MergedEnv(base: map<string, string>, child: map<string, string>): map<string, string> {
    map k | k in base.Keys + child.Keys && (k in child ==> child[k] != "") ::
      if k in child then child[k] else base[k]
  }

  function WithScalars(base: Podfile, c: Podfile): Podfile {
    base.(base := Pick(c.base, base.base), shell := Pick(c.shell, base.shell),
          dotfiles := if c.dotfiles.Some? then c.dotfiles else base.dotfiles,
          ports := Ports(base.ports.expose, Pick(c.ports.strategy, base.ports.strategy)),
          resources := Resources(if c.resources.cpus > 0.0 then c.resources.cpus else base.resources.cpus,
                                 Pick(c.resources.memory, base.resources.memory)),
          parent := "", name := c.name, branch := Pick(c.branch, base.branch), mount := Pick(c.mount, base.mount),
          mode := Pick(c.mode, base.mode), workspace := Pick(c.workspace, base.workspace))
  }

  function Combined(base: Podfile, child: Raw): Podfile {
    var c, over := child.pf, WithScalars(base, child.pf);
    over.(
    packages :=
      if child.replace.packages then c.packages
      else if c.packages != [] then Merged(base.packages, c.packages)
      else base.packages,
    env := if child.replace.env then c.env else MergedEnv(base.env, c.env),
    extraCommands := if child.replace.extraCommands then c.extraCommands else base.extraCommands + c.extraCommands,
    onCreate := if child.replace.onCreate then c.onCreate else ConcatHooks(base.onCreate, c.onCreate),
    onStart := if child.replace.onStart then c.onStart else ConcatHooks(base.onStart, c.onStart),
    services := if child.replace.services then c.services else MergedServices(base.services, c.services),
    repos := if child.replace.repos then c.repos else MergedRepos(base.repos, c.repos),
    ports := over.ports.(expose := Dedupe(base.ports.expose + c.ports.expose)))
  }

  function Restricted(m: map<string, string>, keys: set<string>): map<string, string> {
    map k | k in m && k in keys :: m[k]
  }

  lemma EnvStep(base: map<string, string>, child: map<string, string>, seen: set<string>, k: string)
    requires k in child && k !in seen
    ensures var before := MergedEnv(base, Restricted(child, seen));
            MergedEnv(base, Restricted(child, seen + {k})) ==
            if child[k] == "" then before - {k} else before[k := child[k]]
  {
  }

  lemma EnvEnds(base: map<string, string>, child: map<string, string>)
    ensures MergedEnv(base, Restricted(child, {})) == base
    ensures Restricted(child, child.Keys) == child
  {
  }

  /** The entries of the child are visited in any order. */
  method MergeMaps(base: map<string, string>, child: map<string, string>) returns (out: map<string, string>)
    ensures out == MergedEnv(base, child)
  {
    hide MergedEnv, Restricted;
    out := base;
    var todo := child.Keys;
    EnvEnds(base, child);
    assert child.Keys - todo == {};
    while todo != {}
      invariant todo <= child.Keys
      invariant out == MergedEnv(base, Restricted(child, child.Keys - todo))
      decreases todo
    {
      var k :| k in todo;
      EnvStep(base, child, child.Keys - todo, k);
      assert child.Keys - todo + {k} == child.Keys - (todo - {k});
      if child[k] == "" {
        out := out - {k};
      } else {
        out := out[k := child[k]];
      }
      todo := todo - {k};
    }
    assert child.Keys - todo == child.Keys;
  }

  /** Scalars: the child wins if it says something. */
  method Override(child: string, base: string) returns (v: string)
    ensures v == Pick(child, base)
  {
    v := base;
    if child != "" {
      v := child;
    }
  }

  method MergeScalars(base: Podfile, c: Podfile) returns (out: Podfile)
    ensures out == WithScalars(base, c)
  {
    hide Pick;
    var image := Override(c.base, base.base);
    var shell := Override(c.shell, base.shell);
    var branch := Override(c.branch, base.branch);
    var mount := Override(c.mount, base.mount);
    var mode := Override(c.mode, base.mode);
    var workspace := Override(c.workspace, base.workspace);
    var strategy := Override(c.ports.strategy, base.ports.strategy);
    out := base.(base := image, shell := shell, branch := branch, mount := mount, mode := mode, workspace := workspace,
                 ports := base.ports.(strategy := strategy), name := c.name, parent := "");
    if c.dotfiles.Some? {
      out := out.(dotfiles := c.dotfiles);
    }
    var memory := Override(c.resources.memory, base.resources.memory);
    var cpus := base.resources.cpus;
    if c.resources.cpus > 0.0 {
      cpus := c.resources.cpus;
    }
    out := out.(resources := Resources(cpus, memory));
  }

  method Merge(base: Podfile, child: Raw) returns (out: Podfile)
    ensures out == Combined(base, child)
  {
    hide Merged, MergedRepos, MergedServices, MergedEnv, ConcatHooks, WithScalars, Dedupe;
    var c, replace := child.pf, child.replace;
    out := MergeScalars(base, c);

    var packages := base.packages;
    if replace.packages {
      packages := c.packages;
    } else if |c.packages| > 0 {
      packages := MergeStringList(base.packages, c.packages);
    }
    var env := c.env;
    if !replace.env {
      env := MergeMaps(base.env, c.env);
    }
    var extraCommands := base.extraCommands;
    if replace.extraCommands {
      extraCommands := c.extraCommands;
    } else if |c.extraCommands| > 0 {
      extraCommands := base.extraCommands + c.extraCommands;
    }
    var onCreate := if replace.onCreate then c.onCreate else ConcatHooks(base.onCreate, c.onCreate);
    var onStart := if replace.onStart then c.onStart else ConcatHooks(base.onStart, c.onStart);
    var services := c.services;
    if !replace.services {
      services := MergeServices(base.services, c.services);
    }
    var repos := c.repos;
    if !replace.repos {
      repos := MergeRepos(base.repos, c.repos);
    }
    var expose := DedupeInts(base.ports.expose + c.ports.expose);
    out := out.(packages := packages, env := env, extraCommands := extraCommands, onCreate := onCreate,
                onStart := onStart, services := services, repos := repos, ports := out.ports.(expose := expose));
  }

  // -------------------------------------------------------------------- chains

  /** Levels from the root to the leaf; the root's own bang flags have nothing to replace. */
  function Fold(levels: seq<Raw>): Podfile
    requires levels != []
  {
    if |levels| == 1 then levels[0].pf
    else Combined(Fold(levels[..|levels| - 1]), levels[|levels| - 1])
  }

  /** The last level above the root with the property, or the root. */
  function Last(levels: seq<Raw>, marked: Raw -> bool): (i: nat)
    requires levels != []
    ensures i < |levels|
    ensures i > 0 ==> marked(levels[i])
    ensures forall j :: i < j < |levels| ==> !marked(levels[j])
  {
    var n := |levels| - 1;
    if n == 0 || marked(levels[n]) then n
    else
      var i := Last(levels[..n], marked);
      assert forall j :: 0 <= j < n ==> levels[..n][j] == levels[j];
      i
  }

  function Map<A, B>(s: seq<A>, f: A -> B): seq<B> {
    if s == [] then [] else Map(s[..|s| - 1], f) + [f(s[|s| - 1])]
  }

  function Flatten<T>(s: seq<seq<T>>): seq<T> {
    if s == [] then [] else Flatten(s[..|s| - 1]) + s[|s| - 1]
  }

  function NonEmpty(s: seq<string>): seq<string> {
    if s == [] then []
    else if s[|s| - 1] == "" then NonEmpty(s[..|s| - 1])
    else NonEmpty(s[..|s| - 1]) + [s[|s| - 1]]
  }

  function JoinLines(s: seq<string>): string {
    if s == [] then ""
    else if |s| == 1 then s[0]
    else JoinLines(s[..|s| - 1]) + "\n" + s[|s| - 1]
  }

  /** The levels that still count when a field is replaced by a bang. */
  function Since(levels: seq<Raw>, marked: Raw -> bool): seq<Raw>
    requires levels != []
  {
    levels[Last(levels, marked)..]
  }

  lemma SinceStep(levels: seq<Raw>, marked: Raw -> bool)
    requires |levels| > 1
    ensures var front, leaf := levels[..|levels| - 1], levels[|levels| - 1];
            Since(levels, marked) == if marked(leaf) then [leaf] else Since(front, marked) + [leaf]
    ensures levels[..|levels| - 1] != []
  {
    var n := |levels| - 1;
    assert levels == levels[..n] + [levels[n]];
    if !marked(levels[n]) {
      var i := Last(levels[..n], marked);
      assert levels[i..] == levels[..n][i..] + [levels[n]];
    }
  }

  lemma MapSnoc<A, B>(s: seq<A>, x: A, f: A -> B)
    ensures Map(s + [x], f) == Map(s, f) + [f(x)]
  {
    assert (s + [x])[..|s|] == s;
  }

  lemma FlattenSnoc<T>(s: seq<seq<T>>, x: seq<T>)
    ensures Flatten(s + [x]) == Flatten(s) + x
  {
    assert (s + [x])[..|s|] == s;
  }

  lemma {:induction false} JoinedNotEmpty(s: seq<string>)
    ensures forall x :: x in NonEmpty(s) ==> x != ""
    ensures JoinLines(NonEmpty(s)) == "" <==> NonEmpty(s) == []
  {
    if s != [] {
      JoinedNotEmpty(s[..|s| - 1]);
      var lines := NonEmpty(s);
      if |lines| > 1 {
        assert JoinLines(lines) == JoinLines(lines[..|lines| - 1]) + "\n" + lines[|lines| - 1];
      } else if |lines| == 1 {
        assert lines[0] in lines;
      }
    }
  }

  /** Concatenating one more hook is joining one more line, unless it is empty. */
  lemma ConcatIsJoin(s: seq<string>, hook: string)
    ensures ConcatHooks(JoinLines(NonEmpty(s)), hook) == JoinLines(NonEmpty(s + [hook]))
  {
    JoinedNotEmpty(s);
    assert (s + [hook])[..|s|] == s;
    var lines := NonEmpty(s);
    if hook != "" {
      assert NonEmpty(s + [hook]) == lines + [hook];
      assert (lines + [hook])[..|lines|] == lines;
    }
  }

  function OnCreateOf(r: Raw): string { r.pf.onCreate }

  function OnStartOf(r: Raw): string { r.pf.onStart }

  function ExtraOf(r: Raw): seq<string> { r.pf.extraCommands }

  function ExposeOf(r: Raw): seq<int> { r.pf.ports.expose }

  predicate ReplacesOnCreate(r: Raw) { r.replace.onCreate }

  predicate ReplacesOnStart(r: Raw) { r.replace.onStart }

  predicate ReplacesExtra(r: Raw) { r.replace.extraCommands }

  lemma SingleHook(hook: string)
    ensures JoinLines(NonEmpty([hook])) == hook
  {
    assert [hook][..0] == [];
  }

  /** on_create of a chain: the non-empty hooks since the last replacing level, one below the other. */
  lemma {:induction false} OnCreateOfChain(levels: seq<Raw>)
    requires levels != []
    ensures Fold(levels).onCreate == JoinLines(NonEmpty(Map(Since(levels, ReplacesOnCreate), OnCreateOf)))
  {
    var n := |levels| - 1;
    var leaf := levels[n];
    if n == 0 || leaf.replace.onCreate {
      assert Since(levels, ReplacesOnCreate) == [leaf];
      MapSnoc([], leaf, OnCreateOf);
      assert [] + [leaf] == [leaf] && [] + [leaf.pf.onCreate] == [leaf.pf.onCreate];
      SingleHook(leaf.pf.onCreate);
    } else {
      OnCreateOfChain(levels[..n]);
      SinceStep(levels, ReplacesOnCreate);
      var front := Since(levels[..n], ReplacesOnCreate);
      MapSnoc(front, leaf, OnCreateOf);
      ConcatIsJoin(Map(front, OnCreateOf), leaf.pf.onCreate);
    }
  }

  /** on_start of a chain, likewise. */
  lemma {:induction false} OnStartOfChain(levels: seq<Raw>)
    requires levels != []
    ensures Fold(levels).onStart == JoinLines(NonEmpty(Map(Since(levels, ReplacesOnStart), OnStartOf)))
  {
    var n := |levels| - 1;
    var leaf := levels[n];
    if n == 0 || leaf.replace.onStart {
      assert Since(levels, ReplacesOnStart) == [leaf];
      MapSnoc([], leaf, OnStartOf);
      assert [] + [leaf] == [leaf] && [] + [leaf.pf.onStart] == [leaf.pf.onStart];
      SingleHook(leaf.pf.onStart);
    } else {
      OnStartOfChain(levels[..n]);
      SinceStep(levels, ReplacesOnStart);
      var front := Since(levels[..n], ReplacesOnStart);
      MapSnoc(front, leaf, OnStartOf);
      ConcatIsJoin(Map(front, OnStartOf), leaf.pf.onStart);
    }
  }

  /** Extra commands of a chain: all lists since the last replacing level, in order. */
  lemma {:induction false} ExtraCommandsOfChain(levels: seq<Raw>)
    requires levels != []
    ensures Fold(levels).extraCommands == Flatten(Map(Since(levels, ReplacesExtra), ExtraOf))
  {
    var n := |levels| - 1;
    var leaf := levels[n];
    if n == 0 || leaf.replace.extraCommands {
      assert Since(levels, ReplacesExtra) == [leaf];
      MapSnoc([], leaf, ExtraOf);
      FlattenSnoc([], leaf.pf.extraCommands);
      assert [] + [leaf] == [leaf];
    } else {
      ExtraCommandsOfChain(levels[..n]);
      SinceStep(levels, ReplacesExtra);
      var front := Since(levels[..n], ReplacesExtra);
      MapSnoc(front, leaf, ExtraOf);
      FlattenSnoc(Map(front, ExtraOf), leaf.pf.extraCommands);
    }
  }

  lemma DedupeTwice<T>(a: seq<T>, b: seq<T>)
    ensures Dedupe(Dedupe(a) + b) == Dedupe(a + b)
  {
    DedupeConcat(a, b);
    DedupeConcat(Dedupe(a), b);
    DedupeMembers(a);
    DedupeNothing(Dedupe(a));
    assert ToSet(Dedupe(a)) == ToSet(a);
  }

  /** Exposed ports of a chain with at least one merge: every port once, in order of first mention. */
  lemma {:induction false} PortsOfChain(levels: seq<Raw>)
    requires levels != []
    ensures var all := Flatten(Map(levels, ExposeOf));
            Fold(levels).ports.expose == if |levels| == 1 then all else Dedupe(all)
  {
    var n := |levels| - 1;
    var leaf := levels[n];
    assert levels == levels[..n] + [leaf];
    MapSnoc(levels[..n], leaf, ExposeOf);
    FlattenSnoc(Map(levels[..n], ExposeOf), leaf.pf.ports.expose);
    if n > 0 {
      PortsOfChain(levels[..n]);
      DedupeTwice(Flatten(Map(levels[..n], ExposeOf)), leaf.pf.ports.expose);
    } else {
      assert levels[..0] == [];
      assert [] + leaf.pf.ports.expose == leaf.pf.ports.expose;
    }
  }

  /** Level r says something about variable k: it sets it, unsets it, or replaces the whole map. */
  predicate Mentions(r: Raw, k: string) {
    r.replace.env || k in r.pf.env
  }

  function EnvAt(env: map<string, string>, k: string): Option<string> {
    if k in env then Some(env[k]) else None
  }

  /** A variable of a chain is what the last level that mentions it says; an empty value unsets it. */
  lemma {:induction false} EnvOfChain(levels: seq<Raw>, k: string)
    requires levels != []
    ensures var i := Last(levels, r => Mentions(r, k));
            var said := EnvAt(levels[i].pf.env, k);
            EnvAt(Fold(levels).env, k) ==
            if i > 0 && said == Some("") && !levels[i].replace.env then None else said
  {
    var n := |levels| - 1;
    if n > 0 && !Mentions(levels[n], k) {
      EnvOfChain(levels[..n], k);
      LastPrefix(levels, r => Mentions(r, k));
    }
  }

  lemma LastPrefix(levels: seq<Raw>, marked: Raw -> bool)
    requires |levels| > 1 && !marked(levels[|levels| - 1])
    ensures levels[..|levels| - 1] != []
    ensures Last(levels, marked) == Last(levels[..|levels| - 1], marked)
  {
  }
}
