/**
 Merging of services and repos, which are lists of records with a key: a child entry with the key
 of a base entry changes that entry in place, `!key` removes it, any other entry is appended.
 */
module KeyedMerge {
  import opened Lists

  datatype Service = Service(name: string, image: string, ports: seq<int>, env: map<string, string>, volumes: seq<string>)
  datatype Repo = Repo(url: string, path: string, branch: string)

  function ServiceName(s: Service): string { s.name }

  function RepoUrl(r: Repo): string { r.url }

  // -------------------------------------------------------------- simple forms

  function Keys<T>(s: seq<T>, key: T -> string): seq<string> {
    if s == [] then [] else Keys(s[..|s| - 1], key) + [key(s[|s| - 1])]
  }

  /** The entries that are not removals. */
  function Entries<T>(child: seq<T>, key: T -> string): seq<T> {
    if child == [] then []
    else
      var n := |child| - 1;
      if Bang(key(child[n])) then Entries(child[..n], key) else Entries(child[..n], key) + [child[n]]
  }

  /** The base with removals dropped and changed entries exchanged where they stand. */
  function Placed<T>(base: seq<T>, key: T -> string, removed: set<string>, changed: map<string, T>): seq<T> {
    if base == [] then []
    else
      var n := |base| - 1;
      var front := Placed(base[..n], key, removed, changed);
      var k := key(base[n]);
      if k in removed then front
      else if k in changed then front + [changed[k]]
      else front + [base[n]]
  }

  function NewEntries<T>(entries: seq<T>, key: T -> string, known: set<string>): seq<T> {
    if entries == [] then []
    else
      var n := |entries| - 1;
      if key(entries[n]) in known then NewEntries(entries[..n], key, known)
      else NewEntries(entries[..n], key, known) + [entries[n]]
  }

  /** The last entry for each key of the base. */
  function Changes<T>(entries: seq<T>, key: T -> string, known: set<string>): map<string, T> {
    if entries == [] then map[]
    else
      var n := |entries| - 1;
      var front := Changes(entries[..n], key, known);
      if key(entries[n]) in known then front[key(entries[n]) := entries[n]] else front
  }

  function Overlay(base: Repo, child: Repo): Repo {
    Repo(base.url,
         if child.path != "" then child.path else base.path,
         if child.branch != "" then child.branch else base.branch)
  }

  function Overlaid(base: seq<Repo>, entries: seq<Repo>): map<string, Repo> {
    var known := Keys(base, RepoUrl);
    var last := Changes(entries, RepoUrl, ToSet(known));
    KeysMembers(base, RepoUrl);
    ChangesKeys(entries, RepoUrl, ToSet(known));
    map url | url in last :: Overlay(base[IndexOf(known, url)], last[url])
  }

  function MergedServices(base: seq<Service>, child: seq<Service>): seq<Service> {
    var known := ToSet(Keys(base, ServiceName));
    var entries := Entries(child, ServiceName);
    Placed(base, ServiceName, Removals(Keys(child, ServiceName)), Changes(entries, ServiceName, known))
    + NewEntries(entries, ServiceName, known)
  }

  function MergedRepos(base: seq<Repo>, child: seq<Repo>): seq<Repo> {
    var known := ToSet(Keys(base, RepoUrl));
    var entries := Entries(child, RepoUrl);
    Placed(base, RepoUrl, Removals(Keys(child, RepoUrl)), Overlaid(base, entries))
    + NewEntries(entries, RepoUrl, known)
  }

  // ------------------------------------------------------------------ one more item

  lemma {:induction false} KeysMembers<T>(s: seq<T>, key: T -> string)
    ensures |Keys(s, key)| == |s|
    ensures forall i :: 0 <= i < |s| ==> Keys(s, key)[i] == key(s[i])
  {
    if s != [] {
      KeysMembers(s[..|s| - 1], key);
    }
  }

  lemma KeysSnoc<T>(s: seq<T>, x: T, key: T -> string)
    ensures Keys(s + [x], key) == Keys(s, key) + [key(x)]
  {
    assert (s + [x])[..|s|] == s;
  }

  lemma EntriesSnoc<T>(s: seq<T>, x: T, key: T -> string)
    ensures Entries(s + [x], key) == if Bang(key(x)) then Entries(s, key) else Entries(s, key) + [x]
  {
    assert (s + [x])[..|s|] == s;
  }

  lemma PlacedSnoc<T>(s: seq<T>, x: T, key: T -> string, removed: set<string>, changed: map<string, T>)
    ensures Placed(s + [x], key, removed, changed) ==
            Placed(s, key, removed, changed) +
            if key(x) in removed then [] else [if key(x) in changed then changed[key(x)] else x]
  {
    assert (s + [x])[..|s|] == s;
  }

  lemma NewEntriesSnoc<T>(s: seq<T>, x: T, key: T -> string, known: set<string>)
    ensures NewEntries(s + [x], key, known) ==
            if key(x) in known then NewEntries(s, key, known) else NewEntries(s, key, known) + [x]
  {
    assert (s + [x])[..|s|] == s;
  }

  lemma ChangesSnoc<T>(s: seq<T>, x: T, key: T -> string, known: set<string>)
    ensures Changes(s + [x], key, known) ==
            if key(x) in known then Changes(s, key, known)[key(x) := x] else Changes(s, key, known)
  {
    assert (s + [x])[..|s|] == s;
  }

  lemma {:induction false} ChangesKeys<T>(entries: seq<T>, key: T -> string, known: set<string>)
    ensures forall k :: k in Changes(entries, key, known) <==> k in known && k in Keys(entries, key)
    ensures forall k :: k in Changes(entries, key, known) ==> key(Changes(entries, key, known)[k]) == k
  {
    if entries != [] {
      ChangesKeys(entries[..|entries| - 1], key, known);
    }
  }

  // ------------------------------------------------------------------ programs

  /** Index of the first base entry with the key, or -1. */
  method Find<T>(base: seq<T>, key: T -> string, k: string) returns (at: int)
    ensures at == if k in Keys(base, key) then IndexOf(Keys(base, key), k) else -1
  {
    KeysMembers(base, key);
    for i := 0 to |base|
      invariant forall j :: 0 <= j < i ==> key(base[j]) != k
    {
      if key(base[i]) == k {
        return i;
      }
    }
    return -1;
  }

  method MergeServices(base: seq<Service>, child: seq<Service>) returns (result: seq<Service>)
    ensures result == MergedServices(base, child)
  {
    hide Keys, Entries, Placed, NewEntries, Changes, Removals;
    ghost var known := ToSet(Keys(base, ServiceName));
    var removals: set<string> := {};
    var replacements: map<string, Service> := map[];
    var additions: seq<Service> := [];
    NothingYet(ServiceName, known, removals, replacements);
    for i := 0 to |child|
      invariant removals == Removals(Keys(child[..i], ServiceName))
      invariant replacements == Changes(Entries(child[..i], ServiceName), ServiceName, known)
      invariant additions == NewEntries(Entries(child[..i], ServiceName), ServiceName, known)
    {
      var svc := child[i];
      assert child[..i + 1] == child[..i] + [svc];
      KeysSnoc(child[..i], svc, ServiceName);
      EntriesSnoc(child[..i], svc, ServiceName);
      ChildSnoc(Keys(child[..i], ServiceName), svc.name);
      ChangesSnoc(Entries(child[..i], ServiceName), svc, ServiceName, known);
      NewEntriesSnoc(Entries(child[..i], ServiceName), svc, ServiceName, known);
      if Bang(svc.name) {
        removals := removals + {svc.name[1..]};
      } else {
        var at := Find(base, ServiceName, svc.name);
        if at >= 0 {
          replacements := replacements[svc.name := svc];
        } else {
          additions := additions + [svc];
        }
      }
    }
    assert child[..|child|] == child;

    result := [];
    NothingYet(ServiceName, known, removals, replacements);
    for i := 0 to |base|
      invariant result == Placed(base[..i], ServiceName, removals, replacements)
    {
      var svc := base[i];
      assert base[..i + 1] == base[..i] + [svc];
      PlacedSnoc(base[..i], svc, ServiceName, removals, replacements);
      if svc.name in removals {
        continue;
      }
      if svc.name in replacements {
        result := result + [replacements[svc.name]];
      } else {
        result := result + [svc];
      }
    }
    assert base[..|base|] == base;
    result := result + additions;
  }

  method MergeRepos(base: seq<Repo>, child: seq<Repo>) returns (result: seq<Repo>)
    ensures result == MergedRepos(base, child)
  {
    hide Keys, Entries, Placed, NewEntries, Changes, Removals, Overlaid;
    ghost var urls := Keys(base, RepoUrl);
    ghost var known := ToSet(urls);
    KeysMembers(base, RepoUrl);
    var removals: set<string> := {};
    var updates: map<string, Repo> := map[];
    var additions: seq<Repo> := [];
    NothingYet(RepoUrl, known, removals, updates);
    OverlaidEmpty(base);
    for i := 0 to |child|
      invariant removals == Removals(Keys(child[..i], RepoUrl))
      invariant updates == Overlaid(base, Entries(child[..i], RepoUrl))
      invariant additions == NewEntries(Entries(child[..i], RepoUrl), RepoUrl, known)
    {
      var repo := child[i];
      assert child[..i + 1] == child[..i] + [repo];
      KeysSnoc(child[..i], repo, RepoUrl);
      EntriesSnoc(child[..i], repo, RepoUrl);
      ChildSnoc(Keys(child[..i], RepoUrl), repo.url);
      OverlaidSnoc(base, Entries(child[..i], RepoUrl), repo);
      NewEntriesSnoc(Entries(child[..i], RepoUrl), repo, RepoUrl, known);
      if Bang(repo.url) {
        removals := removals + {repo.url[1..]};
      } else {
        var at := Find(base, RepoUrl, repo.url);
        if at >= 0 {
          var merged := base[at];
          if repo.path != "" {
            merged := merged.(path := repo.path);
          }
          if repo.branch != "" {
            merged := merged.(branch := repo.branch);
          }
          updates := updates[repo.url := merged];
        } else {
          additions := additions + [repo];
        }
      }
    }
    assert child[..|child|] == child;

    result := [];
    NothingYet(RepoUrl, known, removals, updates);
    for i := 0 to |base|
      invariant result == Placed(base[..i], RepoUrl, removals, updates)
    {
      var repo := base[i];
      assert base[..i + 1] == base[..i] + [repo];
      PlacedSnoc(base[..i], repo, RepoUrl, removals, updates);
      if repo.url in removals {
        continue;
      }
      if repo.url in updates {
        result := result + [updates[repo.url]];
      } else {
        result := result + [repo];
      }
    }
    assert base[..|base|] == base;
    result := result + additions;
  }

  lemma NothingYet<T>(key: T -> string, known: set<string>, removed: set<string>, changed: map<string, T>)
    ensures Keys([], key) == [] && Entries([], key) == [] && NewEntries([], key, known) == []
    ensures Changes([], key, known) == map[] && Placed([], key, removed, changed) == []
    ensures Removals([]) == {}
  {
  }

  lemma OverlaidEmpty(base: seq<Repo>)
    ensures Overlaid(base, []) == map[]
  {
  }

  lemma OverlaidSnoc(base: seq<Repo>, entries: seq<Repo>, repo: Repo)
    ensures |Keys(base, RepoUrl)| == |base|
    ensures Overlaid(base, entries + [repo]) ==
            var urls := Keys(base, RepoUrl);
            if repo.url in urls
            then Overlaid(base, entries)[repo.url := Overlay(base[IndexOf(urls, repo.url)], repo)]
            else Overlaid(base, entries)
  {
    hide Keys, Changes;
    KeysMembers(base, RepoUrl);
    ChangesSnoc(entries, repo, RepoUrl, ToSet(Keys(base, RepoUrl)));
    ChangesKeys(entries, RepoUrl, ToSet(Keys(base, RepoUrl)));
  }

  // -------------------------------------------------------------- what is promised

  lemma {:induction false} EntriesKeys<T>(child: seq<T>, key: T -> string)
    ensures Keys(Entries(child, key), key) == Additions(Keys(child, key))
  {
    if child != [] {
      var front, x := child[..|child| - 1], child[|child| - 1];
      EntriesKeys(front, key);
      assert child == front + [x];
      hide Keys, Entries, Additions;
      KeysSnoc(front, x, key);
      EntriesSnoc(front, x, key);
      KeysSnoc(Entries(front, key), x, key);
      ChildSnoc(Keys(front, key), key(x));
    } else {
      EmptyForms({});
    }
  }

  lemma {:induction false} PlacedKeys<T>(base: seq<T>, key: T -> string, removed: set<string>, changed: map<string, T>)
    requires forall k :: k in changed ==> key(changed[k]) == k
    ensures Keys(Placed(base, key, removed, changed), key) == Without(Keys(base, key), removed)
  {
    if base != [] {
      var front, x := base[..|base| - 1], base[|base| - 1];
      PlacedKeys(front, key, removed, changed);
      assert base == front + [x];
      hide Keys, Placed, Without;
      KeysSnoc(front, x, key);
      PlacedSnoc(front, x, key, removed, changed);
      WithoutSnoc(Keys(front, key), key(x), removed);
      var there := Placed(front, key, removed, changed);
      if key(x) in removed {
        assert there + [] == there;
      } else {
        KeysSnoc(there, if key(x) in changed then changed[key(x)] else x, key);
      }
    }
  }

  lemma {:induction false} NewEntriesKeys<T>(entries: seq<T>, key: T -> string, known: set<string>)
    ensures Keys(NewEntries(entries, key, known), key) == Without(Keys(entries, key), known)
  {
    if entries != [] {
      var front, x := entries[..|entries| - 1], entries[|entries| - 1];
      NewEntriesKeys(front, key, known);
      assert entries == front + [x];
      hide Keys, NewEntries, Without;
      KeysSnoc(front, x, key);
      NewEntriesSnoc(front, x, key, known);
      WithoutSnoc(Keys(front, key), key(x), known);
      KeysSnoc(NewEntries(front, key, known), x, key);
    }
  }

  lemma {:induction false} KeysConcat<T>(a: seq<T>, b: seq<T>, key: T -> string)
    ensures Keys(a + b, key) == Keys(a, key) + Keys(b, key)
  {
    KeysMembers(a, key);
    KeysMembers(b, key);
    KeysMembers(a + b, key);
  }

  /** The keys of the result: surviving base keys in base order, then the new ones in child order. */
  lemma MergeKeys<T>(base: seq<T>, child: seq<T>, key: T -> string, changed: map<string, T>)
    requires forall k :: k in changed ==> key(changed[k]) == k
    ensures var removed, known := Removals(Keys(child, key)), ToSet(Keys(base, key));
            var result := Placed(base, key, removed, changed) + NewEntries(Entries(child, key), key, known);
            Keys(result, key) == Without(Keys(base, key), removed) + Without(Additions(Keys(child, key)), known)
  {
    hide Keys, Entries, Placed, NewEntries, Without, Removals, Additions;
    var removed, known := Removals(Keys(child, key)), ToSet(Keys(base, key));
    PlacedKeys(base, key, removed, changed);
    NewEntriesKeys(Entries(child, key), key, known);
    EntriesKeys(child, key);
    KeysConcat(Placed(base, key, removed, changed), NewEntries(Entries(child, key), key, known), key);
  }

  lemma ConcatDistinct<T>(a: seq<T>, b: seq<T>)
    requires forall x :: x in a ==> x !in b
    ensures NoDuplicates(a + b) <==> NoDuplicates(a) && NoDuplicates(b)
  {
    if NoDuplicates(a + b) {
      assert forall i :: 0 <= i < |a| ==> (a + b)[i] == a[i];
      assert forall i :: 0 <= i < |b| ==> (a + b)[|a| + i] == b[i];
    }
    if NoDuplicates(a) && NoDuplicates(b) {
      forall i, j | 0 <= i < j < |a + b|
        ensures (a + b)[i] != (a + b)[j]
      {
        if i < |a| <= j {
          assert a[i] in a && b[j - |a|] in b;
        }
      }
    }
  }

  /** Result keys are unique exactly if the surviving base keys are and the new child keys are. */
  lemma UniqueKeys(base: seq<string>, child: seq<string>)
    ensures var r, known := Removals(child), ToSet(base);
            NoDuplicates(Without(base, r) + Without(Additions(child), known))
            <==> NoDuplicates(Without(base, r)) && NoDuplicates(Without(Additions(child), known))
    ensures NoDuplicates(base) && NoDuplicates(Additions(child)) ==>
              NoDuplicates(Without(base, Removals(child)) + Without(Additions(child), ToSet(base)))
  {
    hide Without, Additions, Removals;
    WithoutMembers(base, Removals(child));
    WithoutMembers(Additions(child), ToSet(base));
    ConcatDistinct(Without(base, Removals(child)), Without(Additions(child), ToSet(base)));
  }

  lemma {:induction false} PlacedEntry<T>(base: seq<T>, key: T -> string, removed: set<string>, changed: map<string, T>, i: nat)
    requires forall k :: k in changed ==> key(changed[k]) == k
    requires i < |Placed(base, key, removed, changed)|
    ensures var x := Placed(base, key, removed, changed)[i];
            key(x) !in removed &&
            exists j :: 0 <= j < |base| && key(base[j]) == key(x)
                        && x == if key(x) in changed then changed[key(x)] else base[j]
  {
    var front, b := base[..|base| - 1], base[|base| - 1];
    assert base == front + [b];
    PlacedSnoc(front, b, key, removed, changed);
    var there := Placed(front, key, removed, changed);
    if i < |there| {
      PlacedEntry(front, key, removed, changed, i);
      var j :| 0 <= j < |front| && key(front[j]) == key(there[i])
               && there[i] == if key(there[i]) in changed then changed[key(there[i])] else front[j];
      assert base[j] == front[j];
    } else {
      assert key(base[|base| - 1]) == key(Placed(base, key, removed, changed)[i]);
    }
  }

  lemma {:induction false} ChangesEntry<T>(entries: seq<T>, key: T -> string, known: set<string>, k: string)
    requires NoDuplicates(Keys(entries, key)) && k in known && k in Keys(entries, key)
    ensures k in Changes(entries, key, known) && |Keys(entries, key)| == |entries|
    ensures Changes(entries, key, known)[k] == entries[IndexOf(Keys(entries, key), k)]
  {
    KeysMembers(entries, key);
    ChangesKeys(entries, key, known);
    var front, x := entries[..|entries| - 1], entries[|entries| - 1];
    assert entries == front + [x];
    KeysSnoc(front, x, key);
    ChangesSnoc(front, x, key, known);
    assert Keys(entries, key)[..|front|] == Keys(front, key) by { KeysMembers(front, key); }
    KeysMembers(front, key);
    if k == key(x) {
      assert Keys(entries, key)[|front|] == k;
    } else {
      assert k in Keys(front, key);
      ChangesEntry(front, key, known, k);
      IndexOfPrefix(Keys(entries, key), |front|, k);
    }
  }

  lemma {:induction false} NewEntry<T>(entries: seq<T>, key: T -> string, known: set<string>, i: nat)
    requires i < |NewEntries(entries, key, known)|
    ensures var x := NewEntries(entries, key, known)[i];
            key(x) !in known && exists j :: 0 <= j < |entries| && entries[j] == x
  {
    var front, e := entries[..|entries| - 1], entries[|entries| - 1];
    assert entries == front + [e];
    NewEntriesSnoc(front, e, key, known);
    if i < |NewEntries(front, key, known)| {
      NewEntry(front, key, known, i);
      var j :| 0 <= j < |front| && front[j] == NewEntries(front, key, known)[i];
      assert entries[j] == front[j];
    } else {
      assert entries[|entries| - 1] == e;
    }
  }

  /** The record the merge promises for a key: the child's if it has one, else the base's. */
  ghost predicate IsServiceFor(base: seq<Service>, entries: seq<Service>, x: Service)
  {
    if x.name in Keys(entries, ServiceName) then x in entries else x in base
  }

  /** For a repo the child's record is laid over the base's. */
  ghost predicate IsRepoFor(base: seq<Repo>, entries: seq<Repo>, x: Repo)
  {
    if x.url !in Keys(base, RepoUrl) then x in entries
    else if x.url !in Keys(entries, RepoUrl) then x in base
    else
      exists b, e ::
        b in base && e in entries && b.url == e.url == x.url &&
        x.path == (if e.path != "" then e.path else b.path) && x.branch == if e.branch != "" then e.branch else b.branch
  }

  lemma KeyOf<T>(s: seq<T>, key: T -> string, x: T)
    requires x in s
    ensures key(x) in Keys(s, key)
  {
    KeysMembers(s, key);
    var i := IndexOf(s, x);
    assert Keys(s, key)[i] == key(x);
  }

  /** Services: order, uniqueness, and which record stands for each name. */
  lemma MergedServicesLaw(base: seq<Service>, child: seq<Service>)
    requires NoDuplicates(Keys(base, ServiceName)) && NoDuplicates(Additions(Keys(child, ServiceName)))
    ensures var names, result := Keys(child, ServiceName), MergedServices(base, child);
            Keys(result, ServiceName) ==
            Without(Keys(base, ServiceName), Removals(names)) + Without(Additions(names), ToSet(Keys(base, ServiceName)))
    ensures NoDuplicates(Keys(MergedServices(base, child), ServiceName))
    ensures forall x :: x in MergedServices(base, child) ==> IsServiceFor(base, Entries(child, ServiceName), x)
  {
    hide Keys, Entries, Placed, NewEntries, Changes, Removals, Additions, Without;
    var known, entries := ToSet(Keys(base, ServiceName)), Entries(child, ServiceName);
    var removed, changed := Removals(Keys(child, ServiceName)), Changes(entries, ServiceName, known);
    ChangesKeys(entries, ServiceName, known);
    MergeKeys(base, child, ServiceName, changed);
    UniqueKeys(Keys(base, ServiceName), Keys(child, ServiceName));
    EntriesKeys(child, ServiceName);
    KeysMembers(entries, ServiceName);
    var placed, novel := Placed(base, ServiceName, removed, changed), NewEntries(entries, ServiceName, known);
    forall x | x in MergedServices(base, child)
      ensures IsServiceFor(base, entries, x)
    {
      if x in placed {
        var i := IndexOf(placed, x);
        PlacedEntry(base, ServiceName, removed, changed, i);
        var j :| 0 <= j < |base| && base[j].name == x.name && x == if x.name in changed then changed[x.name] else base[j];
        KeyOf(base, ServiceName, base[j]);
        if x.name in changed {
          ChangesEntry(entries, ServiceName, known, x.name);
        }
      } else {
        var i := IndexOf(novel, x);
        NewEntry(entries, ServiceName, known, i);
        KeyOf(entries, ServiceName, x);
      }
    }
  }

  /** Repos: order, uniqueness, and which record stands for each URL. */
  lemma MergedReposLaw(base: seq<Repo>, child: seq<Repo>)
    requires NoDuplicates(Keys(base, RepoUrl)) && NoDuplicates(Additions(Keys(child, RepoUrl)))
    ensures var urls, result := Keys(child, RepoUrl), MergedRepos(base, child);
            Keys(result, RepoUrl) ==
            Without(Keys(base, RepoUrl), Removals(urls)) + Without(Additions(urls), ToSet(Keys(base, RepoUrl)))
    ensures NoDuplicates(Keys(MergedRepos(base, child), RepoUrl))
    ensures forall x :: x in MergedRepos(base, child) ==> IsRepoFor(base, Entries(child, RepoUrl), x)
  {
    hide Keys, Entries, Placed, NewEntries, Changes, Removals, Additions, Without;
    var urls, entries := Keys(base, RepoUrl), Entries(child, RepoUrl);
    var known := ToSet(urls);
    var removed, changed := Removals(Keys(child, RepoUrl)), Overlaid(base, entries);
    ChangesKeys(entries, RepoUrl, known);
    KeysMembers(base, RepoUrl);
    MergeKeys(base, child, RepoUrl, changed);
    UniqueKeys(Keys(base, RepoUrl), Keys(child, RepoUrl));
    EntriesKeys(child, RepoUrl);
    KeysMembers(entries, RepoUrl);
    var placed, novel := Placed(base, RepoUrl, removed, changed), NewEntries(entries, RepoUrl, known);
    forall x | x in MergedRepos(base, child)
      ensures IsRepoFor(base, entries, x)
    {
      if x in placed {
        var i := IndexOf(placed, x);
        PlacedEntry(base, RepoUrl, removed, changed, i);
        var j :| 0 <= j < |base| && base[j].url == x.url && x == if x.url in changed then changed[x.url] else base[j];
        KeyOf(base, RepoUrl, base[j]);
        if x.url in changed {
          ChangesEntry(entries, RepoUrl, known, x.url);
          var b := base[IndexOf(urls, x.url)];
          var e := entries[IndexOf(Keys(entries, RepoUrl), x.url)];
          assert b in base && e in entries && b.url == x.url && e.url == x.url;
        }
      } else {
        var i := IndexOf(novel, x);
        NewEntry(entries, RepoUrl, known, i);
        KeyOf(entries, RepoUrl, x);
      }
    }
  }
}
