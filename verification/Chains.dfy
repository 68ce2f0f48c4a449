/**
 What a whole `extends` chain says about each field of a Podfile: which level decides, in terms of what the levels
 themselves contain.
 */
module Chains {
  import opened Options
  import opened Lists
  import opened KeyedMerge
  import opened Compose

  lemma LastStep(levels: seq<Raw>, marked: Raw -> bool)
    requires |levels| > 1
    ensures levels[..|levels| - 1] != []
    ensures Last(levels, marked) ==
            if marked(levels[|levels| - 1]) then |levels| - 1 else Last(levels[..|levels| - 1], marked)
  {
  }

  // ------------------------------------------------------------------------- scalars

  /** What the last level says that says anything, or nothing. */
  function LastSaid(levels: seq<Raw>, said: Raw -> string): string
    requires levels != []
  {
    var n := |levels| - 1;
    if said(levels[n]) != "" || n == 0 then said(levels[n]) else LastSaid(levels[..n], said)
  }

  lemma {:induction false} LastSaidDecides(levels: seq<Raw>, said: Raw -> string, i: nat)
    requires i < |levels| && forall j :: i < j < |levels| ==> said(levels[j]) == ""
    ensures said(levels[i]) != "" ==> LastSaid(levels, said) == said(levels[i])
    ensures i == 0 ==> LastSaid(levels, said) == said(levels[0])
  {
    var n := |levels| - 1;
    if i < n {
      LastSaidDecides(levels[..n], said, i);
    }
  }

  function BaseOf(r: Raw): string { r.pf.base }

  function ShellOf(r: Raw): string { r.pf.shell }

  function BranchOf(r: Raw): string { r.pf.branch }

  function MountOf(r: Raw): string { r.pf.mount }

  function ModeOf(r: Raw): string { r.pf.mode }

  function WorkspaceOf(r: Raw): string { r.pf.workspace }

  function StrategyOf(r: Raw): string { r.pf.ports.strategy }

  function MemoryOf(r: Raw): string { r.pf.resources.memory }

  /** Each of the eight strings is what the last level says that says anything. */
  lemma {:induction false} ScalarsOfChain(levels: seq<Raw>)
    requires levels != []
    ensures var pf := Fold(levels);
            pf.base == LastSaid(levels, BaseOf) && pf.shell == LastSaid(levels, ShellOf) &&
            pf.branch == LastSaid(levels, BranchOf) && pf.mount == LastSaid(levels, MountOf) &&
            pf.mode == LastSaid(levels, ModeOf) && pf.workspace == LastSaid(levels, WorkspaceOf) &&
            pf.ports.strategy == LastSaid(levels, StrategyOf) && pf.resources.memory == LastSaid(levels, MemoryOf)
  {
    hide Merged, MergedServices, MergedRepos, MergedEnv, ConcatHooks, Dedupe;
    if |levels| > 1 {
      ScalarsOfChain(levels[..|levels| - 1]);
    }
  }

  predicate HasDotfiles(r: Raw) { r.pf.dotfiles.Some? }

  predicate HasCpus(r: Raw) { r.pf.resources.cpus > 0.0 }

  /**
   The dotfiles are those of the last level that has some, the CPUs those of the last level that asks for more than
   zero or else of the root; the name is the leaf's, and a merged Podfile extends nothing.
   */
  lemma {:induction false} RecordsOfChain(levels: seq<Raw>)
    requires levels != []
    ensures var pf := Fold(levels);
            pf.dotfiles == levels[Last(levels, HasDotfiles)].pf.dotfiles &&
            pf.resources.cpus == levels[Last(levels, HasCpus)].pf.resources.cpus &&
            pf.name == levels[|levels| - 1].pf.name && (|levels| > 1 ==> pf.parent == "")
  {
    hide Merged, MergedServices, MergedRepos, MergedEnv, ConcatHooks, Dedupe, Pick;
    if |levels| > 1 {
      var front := levels[..|levels| - 1];
      RecordsOfChain(front);
      LastStep(levels, HasDotfiles);
      LastStep(levels, HasCpus);
      assert forall i :: 0 <= i < |front| ==> front[i] == levels[i];
    }
  }

  // ------------------------------------------------------------------------ packages

  /** The level installs the package, removes it, or replaces the whole list. */
  predicate AboutPackage(r: Raw, x: string) {
    r.replace.packages || x in r.pf.packages || "!" + x in r.pf.packages
  }

  lemma Banged(x: string, packages: seq<string>)
    requires !("!" <= x)
    ensures x in Additions(packages) <==> x in packages
    ensures x in Removals(packages) <==> "!" + x in packages
  {
    AdditionsMembers(packages);
    assert ("!" + x)[1..] == x;
    if x in Removals(packages) {
      var item :| item in packages && Bang(item) && item[1..] == x;
      assert item == "!" + x;
    }
  }

  lemma {:induction false} AdditionsMembers(s: seq<string>)
    ensures forall x :: x in Additions(s) <==> x in s && !Bang(x)
  {
    if s != [] {
      var n := |s| - 1;
      AdditionsMembers(s[..n]);
      assert s == s[..n] + [s[n]];
    }
  }

  /** A package is installed exactly if the last level that is about it lists it. */
  lemma {:induction false} PackagesOfChain(levels: seq<Raw>, x: string)
    requires levels != [] && !("!" <= x)
    ensures x in Fold(levels).packages <==> x in levels[Last(levels, r => AboutPackage(r, x))].pf.packages
  {
    hide Merged, MergedServices, MergedRepos, MergedEnv, ConcatHooks, Dedupe, WithScalars;
    var n := |levels| - 1;
    if n > 0 {
      var front, leaf := levels[..n], levels[n];
      PackagesOfChain(front, x);
      LastStep(levels, r => AboutPackage(r, x));
      assert forall i :: 0 <= i < n ==> front[i] == levels[i];
      MergedMembers(Fold(front).packages, leaf.pf.packages);
      Banged(x, leaf.pf.packages);
    }
  }

  // ------------------------------------------------------- which records a merge holds

  lemma {:induction false} EntriesMembers<T>(s: seq<T>, key: T -> string)
    ensures forall x :: x in Entries(s, key) <==> x in s && !Bang(key(x))
  {
    if s != [] {
      var n := |s| - 1;
      EntriesMembers(s[..n], key);
      assert s == s[..n] + [s[n]];
    }
  }

  lemma {:induction false} PlacedMembers<T>(s: seq<T>, key: T -> string, removed: set<string>, changed: map<string, T>)
    ensures forall y :: y in Placed(s, key, removed, changed) <==>
                        exists b :: b in s && key(b) !in removed && y == if key(b) in changed then changed[key(b)] else b
  {
    if s != [] {
      var front, x := s[..|s| - 1], s[|s| - 1];
      PlacedMembers(front, key, removed, changed);
      assert s == front + [x];
      PlacedSnoc(front, x, key, removed, changed);
    }
  }

  lemma {:induction false} NewEntriesMembers<T>(s: seq<T>, key: T -> string, known: set<string>)
    ensures forall x :: x in NewEntries(s, key, known) <==> x in s && key(x) !in known
  {
    if s != [] {
      var n := |s| - 1;
      NewEntriesMembers(s[..n], key, known);
      assert s == s[..n] + [s[n]];
    }
  }

  lemma {:induction false} ChangesMembers<T>(s: seq<T>, key: T -> string, known: set<string>)
    ensures forall k :: k in Changes(s, key, known) ==> Changes(s, key, known)[k] in s && key(Changes(s, key, known)[k]) == k
    ensures forall x :: x in s && key(x) in known ==> key(x) in Changes(s, key, known)
  {
    if s != [] {
      var n := |s| - 1;
      ChangesMembers(s[..n], key, known);
      assert s == s[..n] + [s[n]];
    }
  }

  lemma KeysHave<T>(s: seq<T>, key: T -> string, k: string)
    ensures k in Keys(s, key) <==> exists x :: x in s && key(x) == k
  {
    KeysMembers(s, key);
    if k in Keys(s, key) {
      var i := IndexOf(Keys(s, key), k);
      assert s[i] in s && key(s[i]) == k;
    }
    if x :| x in s && key(x) == k {
      var i := IndexOf(s, x);
      assert Keys(s, key)[i] == k;
    }
  }

  // ------------------------------------------------------------------------- services

  /** An entry for the service or its removal. */
  predicate NamesService(s: Service, name: string) {
    s.name == name || s.name == "!" + name
  }

  /** No level is about the service twice. */
  predicate OnceService(r: Raw, name: string) {
    forall i, j :: 0 <= i < j < |r.pf.services| && NamesService(r.pf.services[i], name) ==>
                     !NamesService(r.pf.services[j], name)
  }

  predicate AboutService(r: Raw, name: string) {
    r.replace.services || exists s :: s in r.pf.services && NamesService(s, name)
  }

  /** One merge, for the record of one service: the child's if it is about the service, else the base's. */
  lemma ServiceOfMerge(base: seq<Service>, child: seq<Service>, x: Service)
    requires !("!" <= x.name)
    requires forall i, j :: 0 <= i < j < |child| && NamesService(child[i], x.name) ==> !NamesService(child[j], x.name)
    ensures x in MergedServices(base, child) <==>
            if exists s :: s in child && NamesService(s, x.name) then x in child else x in base
  {
    hide Placed, NewEntries, Entries, Changes, Keys, Removals;
    var known, entries := ToSet(Keys(base, ServiceName)), Entries(child, ServiceName);
    var removed, changed := Removals(Keys(child, ServiceName)), Changes(entries, ServiceName, known);
    EntriesMembers(child, ServiceName);
    PlacedMembers(base, ServiceName, removed, changed);
    NewEntriesMembers(entries, ServiceName, known);
    ChangesMembers(entries, ServiceName, known);
    KeysHave(base, ServiceName, x.name);
    KeysHave(child, ServiceName, "!" + x.name);
    Banged(x.name, Keys(child, ServiceName));
  }

  predicate HasService(services: seq<Service>, name: string) {
    exists s :: s in services && s.name == name
  }

  /** Which names are there after a merge: a removal beats an entry, but only where there is something to remove. */
  lemma NamesOfMerge(base: seq<Service>, child: seq<Service>, name: string)
    requires !("!" <= name)
    ensures HasService(MergedServices(base, child), name) <==>
            if HasService(base, name) then !HasService(child, "!" + name) else HasService(child, name)
  {
    hide Placed, NewEntries, Entries, Changes, Keys, Removals, Additions;
    var known := ToSet(Keys(base, ServiceName));
    var changed := Changes(Entries(child, ServiceName), ServiceName, known);
    ChangesKeys(Entries(child, ServiceName), ServiceName, known);
    MergeKeys(base, child, ServiceName, changed);
    WithoutMembers(Keys(base, ServiceName), Removals(Keys(child, ServiceName)));
    WithoutMembers(Additions(Keys(child, ServiceName)), known);
    Banged(name, Keys(child, ServiceName));
    KeysHave(MergedServices(base, child), ServiceName, name);
    KeysHave(base, ServiceName, name);
    KeysHave(child, ServiceName, name);
    KeysHave(child, ServiceName, "!" + name);
  }

  /** A service of a chain stands as the last level that is about it has it, if that level has it at all. */
  lemma {:induction false} ServicesOfChain(levels: seq<Raw>, x: Service)
    requires levels != [] && !("!" <= x.name) && forall i :: 0 <= i < |levels| ==> OnceService(levels[i], x.name)
    ensures x in Fold(levels).services <==> x in levels[Last(levels, r => AboutService(r, x.name))].pf.services
  {
    hide Merged, MergedServices, MergedRepos, MergedEnv, ConcatHooks, Dedupe, WithScalars;
    var n := |levels| - 1;
    if n > 0 {
      var front, leaf := levels[..n], levels[n];
      assert forall i :: 0 <= i < n ==> front[i] == levels[i];
      ServicesOfChain(front, x);
      LastStep(levels, r => AboutService(r, x.name));
      assert OnceService(leaf, x.name);
      ServiceOfMerge(Fold(front).services, leaf.pf.services, x);
    }
  }

  // ---------------------------------------------------------------------------- repos

  predicate NamesRepo(r: Repo, url: string) {
    r.url == url || r.url == "!" + url
  }

  predicate OnceRepo(r: Raw, url: string) {
    forall i, j :: 0 <= i < j < |r.pf.repos| && NamesRepo(r.pf.repos[i], url) ==> !NamesRepo(r.pf.repos[j], url)
  }

  predicate HasRepo(repos: seq<Repo>, url: string) {
    exists r :: r in repos && r.url == url
  }

  /** What comes before the level does not count for the repo. */
  predicate RestartsRepo(r: Raw, url: string) {
    r.replace.repos || HasRepo(r.pf.repos, "!" + url)
  }

  /** The entry for the URL, if there is one. */
  function Entry(repos: seq<Repo>, url: string): (e: Option<Repo>)
    ensures e.Some? <==> HasRepo(repos, url)
    ensures e.Some? ==> e.value in repos && e.value.url == url
  {
    if repos == [] then None
    else if repos[0].url == url then Some(repos[0])
    else
      assert repos == [repos[0]] + repos[1..];
      Entry(repos[1..], url)
  }

  function PathAt(url: string): Raw -> string {
    (r: Raw) => var e := Entry(r.pf.repos, url); if e.Some? then e.value.path else ""
  }

  function BranchAt(url: string): Raw -> string {
    (r: Raw) => var e := Entry(r.pf.repos, url); if e.Some? then e.value.branch else ""
  }

  /** Of the same repo there is one record. */
  lemma OnlyEntry(r: Raw, url: string, x: Repo)
    requires OnceRepo(r, url) && x in r.pf.repos && x.url == url
    ensures Entry(r.pf.repos, url) == Some(x) && !HasRepo(r.pf.repos, "!" + url)
  {
    var i := IndexOf(r.pf.repos, x);
    var e := Entry(r.pf.repos, url).value;
    var j := IndexOf(r.pf.repos, e);
    assert NamesRepo(r.pf.repos[i], url) && NamesRepo(r.pf.repos[j], url);
    if y :| y in r.pf.repos && y.url == "!" + url {
      var l := IndexOf(r.pf.repos, y);
      assert NamesRepo(r.pf.repos[l], url) && y.url != url;
    }
  }

  /** x is the entry e laid over the record b. */
  predicate LaidOver(x: Repo, e: Repo, b: Repo) {
    x.url == b.url && x.path == (if e.path != "" then e.path else b.path) &&
    x.branch == if e.branch != "" then e.branch else b.branch
  }

  lemma OverlaidMembers(base: seq<Repo>, entries: seq<Repo>)
    ensures forall u :: u in Overlaid(base, entries) <==> HasRepo(base, u) && HasRepo(entries, u)
    ensures forall u :: u in Overlaid(base, entries) ==>
                        exists b, e :: b in base && e in entries && b.url == e.url == u &&
                                       LaidOver(Overlaid(base, entries)[u], e, b)
  {
    hide Keys, Changes;
    var urls := Keys(base, RepoUrl);
    KeysMembers(base, RepoUrl);
    ChangesKeys(entries, RepoUrl, ToSet(urls));
    ChangesMembers(entries, RepoUrl, ToSet(urls));
    forall u
      ensures u in Overlaid(base, entries) <==> HasRepo(base, u) && HasRepo(entries, u)
    {
      KeysHave(base, RepoUrl, u);
      KeysHave(entries, RepoUrl, u);
    }
    forall u | u in Overlaid(base, entries)
      ensures exists b, e :: b in base && e in entries && b.url == e.url == u && LaidOver(Overlaid(base, entries)[u], e, b)
    {
      var b, e := base[IndexOf(urls, u)], Changes(entries, RepoUrl, ToSet(urls))[u];
      assert b.url == u && LaidOver(Overlaid(base, entries)[u], e, b);
    }
  }

  /** Which URLs are there after a merge: a removal beats an entry, but only where there is something to remove. */
  lemma UrlsOfMerge(base: seq<Repo>, child: seq<Repo>, url: string)
    requires !("!" <= url)
    ensures HasRepo(MergedRepos(base, child), url) <==>
            if HasRepo(base, url) then !HasRepo(child, "!" + url) else HasRepo(child, url)
  {
    hide Placed, NewEntries, Entries, Keys, Removals, Additions, Overlaid;
    var known, changed := ToSet(Keys(base, RepoUrl)), Overlaid(base, Entries(child, RepoUrl));
    OverlaidMembers(base, Entries(child, RepoUrl));
    MergeKeys(base, child, RepoUrl, changed);
    WithoutMembers(Keys(base, RepoUrl), Removals(Keys(child, RepoUrl)));
    WithoutMembers(Additions(Keys(child, RepoUrl)), known);
    Banged(url, Keys(child, RepoUrl));
    KeysHave(MergedRepos(base, child), RepoUrl, url);
    KeysHave(base, RepoUrl, url);
    KeysHave(child, RepoUrl, url);
    KeysHave(child, RepoUrl, "!" + url);
  }

  /** One merge, for one repo: an entry of the child is laid over the base's. */
  lemma RepoOfMerge(base: seq<Repo>, child: Raw, x: Repo)
    requires !("!" <= x.url) && OnceRepo(child, x.url) && x in MergedRepos(base, child.pf.repos)
    ensures var e := Entry(child.pf.repos, x.url);
            if e.None? then x in base
            else if !HasRepo(base, x.url) then x == e.value
            else exists b :: b in base && b.url == x.url && LaidOver(x, e.value, b)
  {
    hide Placed, NewEntries, Entries, Keys, Removals, Overlaid, LaidOver, OnceRepo;
    var repos := child.pf.repos;
    var known, entries := ToSet(Keys(base, RepoUrl)), Entries(repos, RepoUrl);
    var removed, changed := Removals(Keys(repos, RepoUrl)), Overlaid(base, entries);
    EntriesMembers(repos, RepoUrl);
    OverlaidMembers(base, entries);
    if x in Placed(base, RepoUrl, removed, changed) {
      PlacedMembers(base, RepoUrl, removed, changed);
      var b :| b in base && x == if b.url in changed then changed[b.url] else b;
      if b.url in changed {
        var b', e :| b' in base && e in entries && b'.url == e.url == b.url && LaidOver(x, e, b');
        SameUrl(x, e, b');
        OnlyEntry(child, x.url, e);
      }
    } else {
      NewEntriesMembers(entries, RepoUrl, known);
      KeysHave(base, RepoUrl, x.url);
      OnlyEntry(child, x.url, x);
    }
  }

  lemma SameUrl(x: Repo, e: Repo, b: Repo)
    requires LaidOver(x, e, b)
    ensures x.url == b.url
  {
  }

  lemma OnceRemoved(child: Raw, url: string)
    requires OnceRepo(child, url) && HasRepo(child.pf.repos, "!" + url)
    ensures !HasRepo(child.pf.repos, url)
  {
    if x :| x in child.pf.repos && x.url == url {
      OnlyEntry(child, url, x);
    }
  }

  ghost predicate SomeLevelHas(levels: seq<Raw>, url: string) {
    exists i :: 0 <= i < |levels| && HasRepo(levels[i].pf.repos, url)
  }

  lemma SomeLevelStep(front: seq<Raw>, leaf: Raw, url: string)
    ensures SomeLevelHas(front + [leaf], url) <==> SomeLevelHas(front, url) || HasRepo(leaf.pf.repos, url)
  {
    var levels := front + [leaf];
    if i :| 0 <= i < |front| && HasRepo(front[i].pf.repos, url) {
      assert levels[i] == front[i];
    }
    if HasRepo(leaf.pf.repos, url) {
      assert levels[|front|] == leaf;
    }
  }

  lemma SaidStep(front: seq<Raw>, leaf: Raw, said: Raw -> string)
    requires front != []
    ensures LastSaid(front + [leaf], said) == if said(leaf) != "" then said(leaf) else LastSaid(front, said)
  {
    assert (front + [leaf])[..|front|] == front;
  }

  /** The repo of a chain of levels of which only the first may restart. */
  ghost predicate RepoFrom(repos: seq<Repo>, since: seq<Raw>, url: string)
    requires since != []
  {
    (HasRepo(repos, url) <==> SomeLevelHas(since, url)) &&
    forall x :: x in repos && x.url == url ==>
      x.path == LastSaid(since, PathAt(url)) && x.branch == LastSaid(since, BranchAt(url))
  }

  lemma RepoOfOne(leaf: Raw, url: string)
    requires OnceRepo(leaf, url)
    ensures RepoFrom(leaf.pf.repos, [leaf], url)
  {
    hide OnceRepo;
    forall x | x in leaf.pf.repos && x.url == url
      ensures x.path == LastSaid([leaf], PathAt(url)) && x.branch == LastSaid([leaf], BranchAt(url))
    {
      OnlyEntry(leaf, url, x);
    }
    assert HasRepo([leaf][0].pf.repos, url) <==> SomeLevelHas([leaf], url);
  }

  lemma RepoOfMore(base: seq<Repo>, front: seq<Raw>, leaf: Raw, url: string)
    requires front != [] && RepoFrom(base, front, url) && !("!" <= url) && OnceRepo(leaf, url)
    requires !HasRepo(leaf.pf.repos, "!" + url)
    ensures RepoFrom(MergedRepos(base, leaf.pf.repos), front + [leaf], url)
  {
    hide MergedRepos, OnceRepo, LastSaid;
    UrlsOfMerge(base, leaf.pf.repos, url);
    SomeLevelStep(front, leaf, url);
    SaidStep(front, leaf, PathAt(url));
    SaidStep(front, leaf, BranchAt(url));
    forall x | x in MergedRepos(base, leaf.pf.repos) && x.url == url
      ensures x.path == LastSaid(front + [leaf], PathAt(url)) && x.branch == LastSaid(front + [leaf], BranchAt(url))
    {
      RepoOfMerge(base, leaf, x);
      if !HasRepo(base, url) {
        NothingSaid(front, url);
      }
    }
  }

  lemma NothingSaid(levels: seq<Raw>, url: string)
    requires levels != [] && !SomeLevelHas(levels, url)
    ensures LastSaid(levels, PathAt(url)) == "" && LastSaid(levels, BranchAt(url)) == ""
  {
    forall i | 0 <= i < |levels|
      ensures PathAt(url)(levels[i]) == "" && BranchAt(url)(levels[i]) == ""
    {
      assert !HasRepo(levels[i].pf.repos, url);
    }
    LastSaidDecides(levels, PathAt(url), 0);
    LastSaidDecides(levels, BranchAt(url), 0);
  }

  /**
   A repo of a chain is there exactly if a level since the last that removed it or replaced the list has it, and its
   path and its branch are, each by itself, what the last of these levels says that says anything.
   */
  lemma {:induction false} ReposOfChain(levels: seq<Raw>, url: string)
    requires levels != [] && !("!" <= url) && forall i :: 0 <= i < |levels| ==> OnceRepo(levels[i], url)
    ensures RepoFrom(Fold(levels).repos, Since(levels, r => RestartsRepo(r, url)), url)
  {
    hide Merged, MergedServices, MergedRepos, MergedEnv, ConcatHooks, Dedupe, WithScalars, RepoFrom, OnceRepo;
    var n := |levels| - 1;
    var leaf := levels[n];
    assert OnceRepo(leaf, url);
    RepoOfOne(leaf, url);
    if n == 0 {
      assert Since(levels, r => RestartsRepo(r, url)) == [leaf];
    } else {
      var front := levels[..n];
      assert forall i :: 0 <= i < n ==> front[i] == levels[i];
      ReposOfChain(front, url);
      SinceStep(levels, r => RestartsRepo(r, url));
      if leaf.replace.repos {
      } else if HasRepo(leaf.pf.repos, "!" + url) {
        GoneFrom(Fold(front).repos, leaf, url);
      } else {
        RepoOfMore(Fold(front).repos, Since(front, r => RestartsRepo(r, url)), leaf, url);
      }
    }
  }

  lemma GoneFrom(base: seq<Repo>, leaf: Raw, url: string)
    requires !("!" <= url) && OnceRepo(leaf, url) && HasRepo(leaf.pf.repos, "!" + url)
    ensures RepoFrom(MergedRepos(base, leaf.pf.repos), [leaf], url)
  {
    hide MergedRepos, OnceRepo;
    OnceRemoved(leaf, url);
    UrlsOfMerge(base, leaf.pf.repos, url);
  }
}
