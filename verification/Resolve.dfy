/**
 Resolving a Podfile's `extends` chain: a bounded recursion with a shared set of visited keys.
 What a file, a registry entry or a repository holds is an arbitrary function of its name.
 */
module Resolve {
  import opened Lists
  import opened Compose

  const MAX_EXTENDS_DEPTH: nat := 10

  datatype Source = Unreadable | Malformed | Parsed(raw: Raw, dir: string)

  /** Reading and parsing by path, by shorthand and by URL; `join` puts a relative path under a directory. */
  datatype Sources = Sources(
    file: string -> Source, registry: string -> Source, github: string -> Source, join: (string, string) -> string)

  datatype Error = TooDeep | Circular(ref: string) | Unresolved(ref: string) | Unparsed(ref: string)
  datatype Result = Success(pf: Podfile) | Failure(error: Error)

  predicate HasSuffix(s: string, suffix: string) {
    |suffix| <= |s| && s[|s| - |suffix|..] == suffix
  }

  predicate IsLocalRef(ref: string) {
    "." <= ref || "/" <= ref || HasSuffix(ref, ".yaml") || HasSuffix(ref, ".yml")
  }

  function NormalizeRef(src: Sources, ref: string, dir: string): string {
    if IsLocalRef(ref) && !("/" <= ref) then src.join(dir, ref) else ref
  }

  function LocalPath(src: Sources, ref: string, dir: string): string {
    if "/" <= ref then ref else src.join(dir, ref)
  }

  /** Where a reference is looked up. */
  function Load(src: Sources, ref: string, dir: string): Source {
    if IsLocalRef(ref) then src.file(LocalPath(src, ref, dir))
    else if '/' !in ref then src.registry(ref)
    else if "github.com/" <= ref then src.github(ref)
    else Unreadable
  }

  /** Resolution as a function; visited holds the keys of the references followed so far. */
  function Outcome(src: Sources, raw: Raw, dir: string, visited: set<string>): Result
    decreases if |visited| < MAX_EXTENDS_DEPTH then MAX_EXTENDS_DEPTH - |visited| else 0
  {
    var ref := raw.pf.parent;
    if ref == "" then Success(raw.pf)
    else if |visited| >= MAX_EXTENDS_DEPTH then Failure(TooDeep)
    else
      var key := NormalizeRef(src, ref, dir);
      if key in visited then Failure(Circular(ref))
      else match Load(src, ref, dir)
        case Unreadable => Failure(Unresolved(ref))
        case Malformed => Failure(Unparsed(ref))
        case Parsed(base, baseDir) => Over(Outcome(src, base, baseDir, visited + {key}), raw)
  }

  function Over(base: Result, raw: Raw): Result {
    if base.Failure? then base else Success(Combined(base.pf, raw))
  }

  class Resolver {
    const src: Sources
    var visited: set<string>
    ghost var loads: nat  // sources loaded so far

    constructor (src: Sources)
      ensures this.src == src && visited == {} && loads == 0
    {
      this.src := src;
      visited := {};
      loads := 0;
    }

    method ResolveChain(raw: Raw, dir: string) returns (result: Result)
      modifies this
      ensures result == Outcome(src, raw, dir, old(visited))
      ensures old(visited) <= visited
      ensures loads - old(loads) == |visited| - |old(visited)|
      ensures |visited| <= if |old(visited)| < MAX_EXTENDS_DEPTH then MAX_EXTENDS_DEPTH else |old(visited)|
      decreases if |visited| < MAX_EXTENDS_DEPTH then MAX_EXTENDS_DEPTH - |visited| else 0
    {
      var ref := raw.pf.parent;
      if ref == "" {
        return Success(raw.pf);
      }
      if |visited| >= MAX_EXTENDS_DEPTH {
        return Failure(TooDeep);
      }
      var key := NormalizeRef(src, ref, dir);
      if key in visited {
        return Failure(Circular(ref));
      }
      visited := visited + {key};
      loads := loads + 1;
      match Load(src, ref, dir)
      case Unreadable => return Failure(Unresolved(ref));
      case Malformed => return Failure(Unparsed(ref));
      case Parsed(base, baseDir) =>
        var inner := ResolveChain(base, baseDir);
        if inner.Failure? {
          return inner;
        }
        var merged := Merge(inner.pf, raw);
        return Success(merged);
    }
  }

  /** A fresh resolver starts with nothing visited and never loads more than ten sources. */
  method ResolveExtends(src: Sources, raw: Raw, dir: string) returns (result: Result, ghost loaded: nat)
    ensures result == Outcome(src, raw, dir, {})
    ensures loaded <= 10
  {
    var resolver := new Resolver(src);
    result := resolver.ResolveChain(raw, dir);
    loaded := resolver.loads;
  }

  // ------------------------------------------------------------- extends chains

  datatype Level = Level(raw: Raw, dir: string)

  /** Each level's reference loads as the next level, starting at the leaf. */
  ghost predicate IsPath(src: Sources, path: seq<Level>) {
    path != [] &&
    forall i :: 0 <= i < |path| - 1 ==>
      path[i].raw.pf.parent != "" &&
      Load(src, path[i].raw.pf.parent, path[i].dir) == Parsed(path[i + 1].raw, path[i + 1].dir)
  }

  /** A whole chain ends in a level that extends nothing. */
  ghost predicate IsChain(src: Sources, path: seq<Level>) {
    IsPath(src, path) && path[|path| - 1].raw.pf.parent == ""
  }

  function KeyOf(src: Sources, l: Level): string {
    NormalizeRef(src, l.raw.pf.parent, l.dir)
  }

  /** Keys of the references between the levels. */
  function PathKeys(src: Sources, path: seq<Level>): (keys: seq<string>)
    requires path != []
    ensures |keys| == |path| - 1
    ensures forall i :: 0 <= i < |keys| ==> keys[i] == KeyOf(src, path[i])
  {
    if |path| == 1 then [] else [KeyOf(src, path[0])] + PathKeys(src, path[1..])
  }

  function RootFirst(path: seq<Level>): seq<Raw> {
    if path == [] then [] else RootFirst(path[1..]) + [path[0].raw]
  }

  /** At most ten references, no key twice. */
  ghost predicate Resolvable(src: Sources, path: seq<Level>) {
    IsChain(src, path) && |path| - 1 <= MAX_EXTENDS_DEPTH && NoDuplicates(PathKeys(src, path))
  }

  /** The same, with some keys visited before. */
  ghost predicate ResolvableFrom(src: Sources, path: seq<Level>, visited: set<string>) {
    Resolvable(src, path) && |visited| + |path| - 1 <= MAX_EXTENDS_DEPTH &&
    forall k :: k in PathKeys(src, path) ==> k !in visited
  }

  /** One reference that can be followed. */
  lemma OutcomeStep(src: Sources, raw: Raw, dir: string, visited: set<string>)
    requires raw.pf.parent != "" && |visited| < MAX_EXTENDS_DEPTH
    requires NormalizeRef(src, raw.pf.parent, dir) !in visited && Load(src, raw.pf.parent, dir).Parsed?
    ensures var next := Load(src, raw.pf.parent, dir);
            Outcome(src, raw, dir, visited) ==
            Over(Outcome(src, next.raw, next.dir, visited + {NormalizeRef(src, raw.pf.parent, dir)}), raw)
  {
  }

  /** The keys of a path with two or more levels: the first is fresh, the others are those of the rest. */
  lemma PathKeysStep(src: Sources, path: seq<Level>, visited: set<string>)
    requires |path| > 1 && NoDuplicates(PathKeys(src, path))
    requires forall k :: k in PathKeys(src, path) ==> k !in visited
    ensures var key, rest := KeyOf(src, path[0]), PathKeys(src, path[1..]);
            key !in visited && NoDuplicates(rest) && PathKeys(src, path) == [key] + rest &&
            forall k :: k in rest ==> k !in visited + {key}
  {
    var key, rest, keys := KeyOf(src, path[0]), PathKeys(src, path[1..]), PathKeys(src, path);
    assert keys == [key] + rest;
    assert key in keys;
    assert forall i :: 0 <= i < |rest| ==> rest[i] == keys[i + 1];
    forall k | k in rest
      ensures k !in visited + {key}
    {
      assert k in keys;
      var i := IndexOf(rest, k);
      assert keys[i + 1] == k && keys[0] != keys[i + 1];
    }
  }

  lemma PathTail(src: Sources, path: seq<Level>)
    requires |path| > 1 && IsPath(src, path)
    ensures IsPath(src, path[1..]) && path[1..][|path| - 2] == path[|path| - 1]
    ensures path[0].raw.pf.parent != ""
    ensures Load(src, path[0].raw.pf.parent, path[0].dir) == Parsed(path[1].raw, path[1].dir)
  {
    var rest := path[1..];
    assert forall i :: 0 <= i < |rest| ==> rest[i] == path[i + 1];
  }

  lemma {:induction false} ChainResolves(src: Sources, path: seq<Level>, visited: set<string>)
    requires path != [] && ResolvableFrom(src, path, visited)
    ensures RootFirst(path) != []
    ensures Outcome(src, path[0].raw, path[0].dir, visited) == Success(Fold(RootFirst(path)))
    decreases |path|
  {
    if |path| == 1 {
      assert RootFirst(path) == [path[0].raw];
    } else {
      hide Outcome, Combined;
      var key, rest := KeyOf(src, path[0]), path[1..];
      PathTail(src, path);
      PathKeysStep(src, path, visited);
      OutcomeStep(src, path[0].raw, path[0].dir, visited);
      ChainResolves(src, rest, visited + {key});
      assert RootFirst(path)[..|RootFirst(path)| - 1] == RootFirst(rest);
    }
  }

  lemma {:induction false} ResolvedHasChain(src: Sources, raw: Raw, dir: string, visited: set<string>)
    returns (path: seq<Level>)
    requires Outcome(src, raw, dir, visited).Success? && |visited| <= MAX_EXTENDS_DEPTH
    ensures path != [] && path[0] == Level(raw, dir) && ResolvableFrom(src, path, visited)
    decreases if |visited| < MAX_EXTENDS_DEPTH then MAX_EXTENDS_DEPTH - |visited| else 0
  {
    if raw.pf.parent == "" {
      path := [Level(raw, dir)];
      return;
    }
    var key := NormalizeRef(src, raw.pf.parent, dir);
    var next := Load(src, raw.pf.parent, dir);
    var rest := ResolvedHasChain(src, next.raw, next.dir, visited + {key});
    path := [Level(raw, dir)] + rest;
    PrependLevel(src, Level(raw, dir), rest, visited);
  }

  lemma PrependLevel(src: Sources, first: Level, rest: seq<Level>, visited: set<string>)
    requires rest != [] && first.raw.pf.parent != "" && |visited| < MAX_EXTENDS_DEPTH
    requires Load(src, first.raw.pf.parent, first.dir) == Parsed(rest[0].raw, rest[0].dir)
    requires KeyOf(src, first) !in visited && ResolvableFrom(src, rest, visited + {KeyOf(src, first)})
    ensures ResolvableFrom(src, [first] + rest, visited)
  {
    var path, key := [first] + rest, KeyOf(src, first);
    assert path[1..] == rest;
    var keys, later := PathKeys(src, path), PathKeys(src, rest);
    assert keys == [key] + later;
    assert forall i :: 0 <= i < |later| ==> later[i] in later;
    assert path[|path| - 1] == rest[|rest| - 1];
    assert forall i :: 0 < i < |path| ==> path[i] == rest[i - 1];
  }

  /** Resolution succeeds exactly on chains of at most ten references with distinct keys that all load. */
  lemma ResolvesExactly(src: Sources, raw: Raw, dir: string)
    ensures Outcome(src, raw, dir, {}).Success? <==>
            exists path :: path != [] && path[0] == Level(raw, dir) && Resolvable(src, path)
  {
    if Outcome(src, raw, dir, {}).Success? {
      var path := ResolvedHasChain(src, raw, dir, {});
      assert path != [] && path[0] == Level(raw, dir) && Resolvable(src, path);
    }
    if path :| path != [] && path[0] == Level(raw, dir) && Resolvable(src, path) {
      ChainResolves(src, path, {});
    }
  }

  /** And then the result is the left fold of the merge from the root of the chain to the leaf. */
  lemma ResolvesToFold(src: Sources, path: seq<Level>)
    requires path != [] && Resolvable(src, path)
    ensures RootFirst(path) != []
    ensures Outcome(src, path[0].raw, path[0].dir, {}) == Success(Fold(RootFirst(path)))
  {
    ChainResolves(src, path, {});
  }

  // ------------------------------------------------------------------ failures

  /** Following a path of distinct keys: what happens at its end decides success and the error. */
  lemma {:induction false} Walk(src: Sources, path: seq<Level>, visited: set<string>)
    requires IsPath(src, path) && |visited| + |path| - 1 <= MAX_EXTENDS_DEPTH
    requires NoDuplicates(PathKeys(src, path)) && forall k :: k in PathKeys(src, path) ==> k !in visited
    ensures var last := path[|path| - 1];
            var end := Outcome(src, last.raw, last.dir, visited + ToSet(PathKeys(src, path)));
            end.Failure? ==> Outcome(src, path[0].raw, path[0].dir, visited) == end
    decreases |path|
  {
    if |path| == 1 {
      assert visited + ToSet(PathKeys(src, path)) == visited;
    } else {
      hide Outcome, Combined;
      var key, rest := KeyOf(src, path[0]), path[1..];
      PathTail(src, path);
      PathKeysStep(src, path, visited);
      OutcomeStep(src, path[0].raw, path[0].dir, visited);
      Walk(src, rest, visited + {key});
      assert visited + {key} + ToSet(PathKeys(src, rest)) == visited + ToSet(PathKeys(src, path));
    }
  }

  lemma SizeOfKeys(keys: seq<string>)
    requires NoDuplicates(keys)
    ensures |ToSet(keys)| == |keys|
  {
    if keys != [] {
      var front, k := keys[..|keys| - 1], keys[|keys| - 1];
      SizeOfKeys(front);
      assert keys == front + [k];
      assert ToSet(keys) == ToSet(front) + {k};
    }
  }

  lemma WalkFromStart(src: Sources, path: seq<Level>)
    requires IsPath(src, path) && |path| - 1 <= MAX_EXTENDS_DEPTH && NoDuplicates(PathKeys(src, path))
    ensures var last, keys := path[|path| - 1], ToSet(PathKeys(src, path));
            var end := Outcome(src, last.raw, last.dir, keys);
            |keys| == |path| - 1 && (end.Failure? ==> Outcome(src, path[0].raw, path[0].dir, {}) == end)
  {
    hide Outcome;
    Walk(src, path, {});
    SizeOfKeys(PathKeys(src, path));
    assert {} + ToSet(PathKeys(src, path)) == ToSet(PathKeys(src, path));
  }

  /** A reference back into the chain is reported as circular, unless ten references came before it. */
  lemma CycleIsReported(src: Sources, path: seq<Level>)
    requires IsPath(src, path) && NoDuplicates(PathKeys(src, path)) && |path| - 1 <= MAX_EXTENDS_DEPTH
    requires var last := path[|path| - 1];
             last.raw.pf.parent != "" && KeyOf(src, last) in PathKeys(src, path)
    ensures Outcome(src, path[0].raw, path[0].dir, {}) ==
            Failure(if |path| - 1 == MAX_EXTENDS_DEPTH then TooDeep else Circular(path[|path| - 1].raw.pf.parent))
  {
    WalkFromStart(src, path);
  }

  /** An eleventh reference is refused, whatever it names. */
  lemma EleventhReference(src: Sources, path: seq<Level>)
    requires IsPath(src, path) && NoDuplicates(PathKeys(src, path)) && |path| - 1 == MAX_EXTENDS_DEPTH
    requires path[|path| - 1].raw.pf.parent != ""
    ensures Outcome(src, path[0].raw, path[0].dir, {}) == Failure(TooDeep)
  {
    WalkFromStart(src, path);
  }
}
