/**
 Resolution of `extends` in terms of what is read: files by their paths, and everything else by its reference.
 */
module Extends {
  import opened Lists
  import opened Compose
  import opened Resolve

  datatype Place = File(path: string) | Remote(ref: string)

  predicate EndsIn(s: string, end: string) {
    exists n :: 0 <= n <= |s| && s[n..] == end
  }

  /** The place a reference in a Podfile of the given directory means. */
  function Where(src: Sources, ref: string, dir: string): Place {
    if ref != "" && ref[0] == '/' then File(ref)
    else if (ref != "" && ref[0] == '.') || EndsIn(ref, ".yaml") || EndsIn(ref, ".yml") then File(src.join(dir, ref))
    else Remote(ref)
  }

  /** What is there. A name is looked up in the registry; of the rest only GitHub is known. */
  function Read(src: Sources, p: Place): Source {
    match p
    case File(path) => src.file(path)
    case Remote(ref) =>
      if forall i :: 0 <= i < |ref| ==> ref[i] != '/' then src.registry(ref)
      else if |ref| >= 11 && ref[..11] == "github.com/" then src.github(ref)
      else Unreadable
  }

  function Parent(src: Sources, l: Level): Place {
    Where(src, l.raw.pf.parent, l.dir)
  }

  /** Each Podfile extends the next one, starting at the leaf. */
  ghost predicate Descends(src: Sources, path: seq<Level>) {
    path != [] &&
    forall i :: 0 <= i < |path| - 1 ==>
      path[i].raw.pf.parent != "" && Read(src, Parent(src, path[i])) == Parsed(path[i + 1].raw, path[i + 1].dir)
  }

  ghost predicate Ends(src: Sources, path: seq<Level>) {
    Descends(src, path) && path[|path| - 1].raw.pf.parent == ""
  }

  /** Different places that are spelled the same. */
  predicate Clash(p: Place, q: Place) {
    p.File? && q.Remote? && p.path == q.ref
  }

  /** No path of a file in the chain reads like a reference in it that is no file. */
  ghost predicate NoClash(src: Sources, path: seq<Level>) {
    forall i, j :: 0 <= i < |path| && 0 <= j < |path| && path[i].raw.pf.parent != "" && path[j].raw.pf.parent != "" ==>
      !Clash(Parent(src, path[i]), Parent(src, path[j]))
  }

  // ------------------------------------------------------------ as the program sees it

  function Text(p: Place): string {
    if p.File? then p.path else p.ref
  }

  lemma Suffix(s: string, end: string)
    ensures EndsIn(s, end) <==> HasSuffix(s, end)
  {
    if HasSuffix(s, end) {
      assert s[|s| - |end|..] == end;
    }
  }

  lemma PlaceOf(src: Sources, ref: string, dir: string)
    ensures NormalizeRef(src, ref, dir) == Text(Where(src, ref, dir))
    ensures Load(src, ref, dir) == Read(src, Where(src, ref, dir))
  {
    Suffix(ref, ".yaml");
    Suffix(ref, ".yml");
  }

  lemma PathsAgree(src: Sources, path: seq<Level>)
    ensures IsPath(src, path) <==> Descends(src, path)
    ensures IsChain(src, path) <==> Ends(src, path)
    ensures path != [] ==> forall i :: 0 <= i < |path| - 1 ==> PathKeys(src, path)[i] == Text(Parent(src, path[i]))
  {
    hide Load, NormalizeRef, Where, Read;
    forall i | 0 <= i < |path|
      ensures Load(src, path[i].raw.pf.parent, path[i].dir) == Read(src, Parent(src, path[i]))
      ensures KeyOf(src, path[i]) == Text(Parent(src, path[i]))
    {
      PlaceOf(src, path[i].raw.pf.parent, path[i].dir);
    }
  }

  // ----------------------------------------------------------------------- theorems

  /** A chain that ends reads no place twice: it would go on the same way for ever. */
  lemma {:induction false} NoReturn(src: Sources, path: seq<Level>, i: nat, j: nat)
    requires Ends(src, path) && i < j < |path| - 1
    ensures Parent(src, path[i]) != Parent(src, path[j])
    decreases |path| - j
  {
    hide Where, Read;
    if Parent(src, path[i]) == Parent(src, path[j]) {
      assert path[i + 1] == path[j + 1];
      if j + 1 < |path| - 1 {
        NoReturn(src, path, i + 1, j + 1);
      }
    }
  }

  lemma DistinctKeys(src: Sources, path: seq<Level>)
    requires Descends(src, path) && NoClash(src, path)
    requires forall i, j :: 0 <= i < j < |path| - 1 ==> Parent(src, path[i]) != Parent(src, path[j])
    ensures NoDuplicates(PathKeys(src, path))
  {
    hide Where, Read, PathKeys;
    PathsAgree(src, path);
  }

  lemma ClashIsRepeat(src: Sources, path: seq<Level>)
    requires Ends(src, path) && NoDuplicates(PathKeys(src, path))
    ensures NoClash(src, path)
  {
    hide Where, Read, PathKeys;
    PathsAgree(src, path);
    var keys := PathKeys(src, path);
    forall i, j | 0 <= i < |path| && 0 <= j < |path| && path[i].raw.pf.parent != "" && path[j].raw.pf.parent != ""
      ensures !Clash(Parent(src, path[i]), Parent(src, path[j]))
    {
      assert i < |path| - 1 && j < |path| - 1;
      assert i != j ==> keys[i] != keys[j];
    }
  }

  /**
   Resolution succeeds exactly on the chains that end after at most ten references and in which no file is spelled
   like a reference that is none; so it never takes a chain that ends for a circular one, however often a relative
   path is repeated in it.
   */
  lemma ResolvesByPlace(src: Sources, raw: Raw, dir: string)
    ensures Outcome(src, raw, dir, {}).Success? <==>
            exists path :: path != [] && path[0] == Level(raw, dir) && Ends(src, path) && |path| <= 11 && NoClash(src, path)
  {
    hide Outcome, Where, Read, PathKeys, NoClash, Ends;
    ResolvesExactly(src, raw, dir);
    if Outcome(src, raw, dir, {}).Success? {
      var path :| path != [] && path[0] == Level(raw, dir) && Resolvable(src, path);
      PathsAgree(src, path);
      ClashIsRepeat(src, path);
    }
    if path :| path != [] && path[0] == Level(raw, dir) && Ends(src, path) && |path| <= 11 && NoClash(src, path) {
      EndsResolves(src, path);
    }
  }

  lemma EndsResolves(src: Sources, path: seq<Level>)
    requires Ends(src, path) && |path| <= 11 && NoClash(src, path)
    ensures path != [] && Resolvable(src, path)
  {
    hide Where, Read, PathKeys, NoClash;
    forall i, j | 0 <= i < j < |path| - 1
      ensures Parent(src, path[i]) != Parent(src, path[j])
    {
      NoReturn(src, path, i, j);
    }
    DistinctKeys(src, path);
    PathsAgree(src, path);
  }

  /** And the result is the fold of the Podfiles that were read, from the root of the chain to the leaf. */
  lemma FoldsWhatIsRead(src: Sources, path: seq<Level>)
    requires Ends(src, path) && |path| <= 11 && NoClash(src, path)
    ensures RootFirst(path) != []
    ensures Outcome(src, path[0].raw, path[0].dir, {}) == Success(Fold(RootFirst(path)))
  {
    hide Where, Read, PathKeys, NoClash, Outcome, Ends;
    EndsResolves(src, path);
    ResolvesToFold(src, path);
  }

  /**
   A chain that comes back to a place it has been at, however that is spelled this time, is reported as circular, or
   as too deep if that takes an eleventh reference.
   */
  lemma ComingBack(src: Sources, path: seq<Level>, i: nat)
    requires Descends(src, path) && |path| <= 11 && NoClash(src, path) && i < |path| - 1
    requires forall i, j :: 0 <= i < j < |path| - 1 ==> Parent(src, path[i]) != Parent(src, path[j])
    requires var last := path[|path| - 1]; last.raw.pf.parent != "" && Parent(src, last) == Parent(src, path[i])
    ensures Outcome(src, path[0].raw, path[0].dir, {}) ==
            Failure(if |path| == 11 then TooDeep else Circular(path[|path| - 1].raw.pf.parent))
  {
    hide Where, Read, PathKeys, NoClash, Outcome;
    PathsAgree(src, path);
    DistinctKeys(src, path);
    var last := path[|path| - 1];
    hide NormalizeRef;
    PlaceOf(src, last.raw.pf.parent, last.dir);
    assert KeyOf(src, last) == PathKeys(src, path)[i];
    CycleIsReported(src, path);
  }

  /** GitHub is asked only for references that do not end like a YAML file, which are looked for on disk. */
  lemma YamlIsOnDisk(src: Sources, ref: string, dir: string)
    requires ref != "" && ref[0] != '/' && (EndsIn(ref, ".yaml") || EndsIn(ref, ".yml"))
    ensures Load(src, ref, dir) == src.file(src.join(dir, ref))
  {
    PlaceOf(src, ref, dir);
  }

  /**
   The clash: below a base that was not read from disk, whose directory is empty, `./go` joins to `go`. If that file
   extends the registry's `go`, a chain of three Podfiles that ends is taken for a circle.
   */
  lemma ClashExample(leaf: Raw, file: Raw, entry: Raw)
    requires leaf.pf.parent == "./go" && file.pf.parent == "go" && entry.pf.parent == ""
    ensures var src := Sources(_ => Parsed(file, ""), _ => Parsed(entry, ""), _ => Unreadable, (_, _) => "go");
            Ends(src, [Level(leaf, ""), Level(file, ""), Level(entry, "")]) &&
            Outcome(src, leaf, "", {}) == Failure(Circular("go"))
  {
    var src := Sources(_ => Parsed(file, ""), _ => Parsed(entry, ""), _ => Unreadable, (_, _) => "go");
    var path := [Level(leaf, ""), Level(file, ""), Level(entry, "")];
    assert !EndsIn("go", ".yaml") && !EndsIn("go", ".yml");
    assert Where(src, "go", "") == Remote("go") && Where(src, "./go", "") == File("go");
    PlaceOf(src, "go", "");
    PlaceOf(src, "./go", "");
    assert Outcome(src, file, "", {"go"}) == Failure(Circular("go")) by {
      assert {"go"} == {} + {"go"};
    }
    assert {} + {"go"} == {"go"};
  }
}
