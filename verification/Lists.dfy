/**
 List merging for Podfiles: first-occurrence deduplication and package-style lists in which
 an item `!x` of the child removes `x` from the base.
 */
module Lists {

  // -------------------------------------------------------------- simple forms

  function ToSet<T(==)>(s: seq<T>): set<T> {
    set x | x in s
  }

  predicate NoDuplicates<T(==)>(s: seq<T>) {
    forall i, j :: 0 <= i < j < |s| ==> s[i] != s[j]
  }

  /** Every item once, at its first place. */
  function Dedupe<T(==)>(s: seq<T>): seq<T> {
    if s == [] then []
    else
      var n := |s| - 1;
      if s[n] in s[..n] then Dedupe(s[..n]) else Dedupe(s[..n]) + [s[n]]
  }

  function Without<T(==)>(s: seq<T>, drop: set<T>): seq<T> {
    if s == [] then []
    else
      var n := |s| - 1;
      if s[n] in drop then Without(s[..n], drop) else Without(s[..n], drop) + [s[n]]
  }

  function Within<T(==)>(s: seq<T>, keep: set<T>): seq<T> {
    if s == [] then []
    else
      var n := |s| - 1;
      if s[n] in keep then Within(s[..n], keep) + [s[n]] else Within(s[..n], keep)
  }

  predicate Bang(item: string) {
    |item| > 0 && item[0] == '!'
  }

  function Removals(child: seq<string>): set<string> {
    set item | item in child && Bang(item) :: item[1..]
  }

  function Additions(child: seq<string>): seq<string> {
    if child == [] then []
    else
      var n := |child| - 1;
      if Bang(child[n]) then Additions(child[..n]) else Additions(child[..n]) + [child[n]]
  }

  function Merged(base: seq<string>, child: seq<string>): seq<string> {
    Dedupe(Without(base, Removals(child)) + Additions(child))
  }

  function IndexOf<T(==)>(s: seq<T>, x: T): (i: nat)
    requires x in s
    ensures i < |s| && s[i] == x
    ensures forall k :: 0 <= k < i ==> s[k] != x
  {
    if s[0] == x then 0 else
      var i := IndexOf(s[1..], x) + 1;
      assert forall k :: 1 <= k < i ==> s[k] == s[1..][k - 1];
      i
  }

  // ------------------------------------------------------------------ programs

  method DedupeInts(s: seq<int>) returns (out: seq<int>)
    ensures out == Dedupe(s)
  {
    out := [];
    var seen: set<int> := {};
    for i := 0 to |s|
      invariant seen == ToSet(s[..i])
      invariant out == Dedupe(s[..i])
    {
      assert s[..i + 1][..i] == s[..i];
      if s[i] !in seen {
        seen := seen + {s[i]};
        out := out + [s[i]];
      }
    }
    assert s[..|s|] == s;
  }

  method MergeStringList(base: seq<string>, child: seq<string>) returns (result: seq<string>)
    ensures result == Merged(base, child)
  {
    hide Dedupe, Without, Additions;
    var removals: set<string> := {};
    var additions: seq<string> := [];
    EmptyForms(removals);
    for i := 0 to |child|
      invariant removals == Removals(child[..i])
      invariant additions == Additions(child[..i])
    {
      assert child[..i + 1] == child[..i] + [child[i]];
      ChildSnoc(child[..i], child[i]);
      if Bang(child[i]) {
        removals := removals + {child[i][1..]};
      } else {
        additions := additions + [child[i]];
      }
    }
    assert child[..|child|] == child;

    var seen: set<string> := {};
    result := [];
    EmptyForms(removals);
    for i := 0 to |base|
      invariant seen == ToSet(Without(base[..i], removals))
      invariant result == Dedupe(Without(base[..i], removals))
    {
      assert base[..i + 1] == base[..i] + [base[i]];
      WithoutSnoc(base[..i], base[i], removals);
      DedupeSnoc(Without(base[..i], removals), base[i]);
      if base[i] in removals || base[i] in seen {
        continue;
      }
      seen := seen + {base[i]};
      result := result + [base[i]];
    }
    assert base[..|base|] == base;

    ghost var kept := Without(base, removals);
    assert kept + additions[..0] == kept;
    for i := 0 to |additions|
      invariant seen == ToSet(kept + additions[..i])
      invariant result == Dedupe(kept + additions[..i])
    {
      assert kept + additions[..i + 1] == kept + additions[..i] + [additions[i]];
      DedupeSnoc(kept + additions[..i], additions[i]);
      if additions[i] in seen {
        continue;
      }
      seen := seen + {additions[i]};
      result := result + [additions[i]];
    }
    assert additions[..|additions|] == additions;
  }

  lemma EmptyForms(drop: set<string>)
    ensures Without([], drop) == [] && Additions([]) == [] && Removals([]) == {}
    ensures Dedupe(Without([], drop)) == []
  {
  }

  lemma ChildSnoc(child: seq<string>, item: string)
    ensures Additions(child + [item]) == if Bang(item) then Additions(child) else Additions(child) + [item]
    ensures Removals(child + [item]) == if Bang(item) then Removals(child) + {item[1..]} else Removals(child)
  {
    var longer := child + [item];
    assert longer[..|child|] == child;
    assert longer[|child|] == item;
  }

  // -------------------------------------------------------------- deduplication

  lemma DedupeSnoc<T>(s: seq<T>, x: T)
    ensures Dedupe(s + [x]) == if x in s then Dedupe(s) else Dedupe(s) + [x]
  {
    assert (s + [x])[..|s|] == s;
  }

  lemma {:induction false} DedupeMembers<T>(s: seq<T>)
    ensures forall x :: x in Dedupe(s) <==> x in s
    ensures NoDuplicates(Dedupe(s))
  {
    if s != [] {
      var n := |s| - 1;
      DedupeMembers(s[..n]);
      assert s == s[..n] + [s[n]];
    }
  }

  lemma {:induction false} DedupeNothing<T>(s: seq<T>)
    requires NoDuplicates(s)
    ensures Dedupe(s) == s
  {
    if s != [] {
      DedupeNothing(s[..|s| - 1]);
      assert s == s[..|s| - 1] + [s[|s| - 1]];
    }
  }

  lemma {:induction false} IndexOfPrefix<T>(s: seq<T>, n: nat, x: T)
    requires n <= |s| && x in s[..n]
    ensures x in s && IndexOf(s, x) == IndexOf(s[..n], x)
  {
    var i := IndexOf(s[..n], x);
    var j := IndexOf(s, x);
    assert forall k :: 0 <= k < n ==> s[..n][k] == s[k];
  }

  lemma DedupeMember<T>(s: seq<T>, i: nat)
    requires i < |Dedupe(s)|
    ensures Dedupe(s)[i] in s
  {
    DedupeMembers(s);
  }

  /** Deduplication lists the items in the order of their first occurrences. */
  lemma {:induction false} DedupeOrder<T>(s: seq<T>, i: nat, j: nat)
    requires i < j < |Dedupe(s)|
    ensures Dedupe(s)[i] in s && Dedupe(s)[j] in s
    ensures IndexOf(s, Dedupe(s)[i]) < IndexOf(s, Dedupe(s)[j])
  {
    DedupeMembers(s);
    var n := |s| - 1;
    var front := s[..n];
    DedupeMembers(front);
    var a, b := Dedupe(s)[i], Dedupe(s)[j];
    assert a == Dedupe(front)[i];
    DedupeMember(front, i);
    IndexOfPrefix(s, n, a);
    if j < |Dedupe(front)| {
      DedupeMember(front, j);
      DedupeOrder(front, i, j);
      IndexOfPrefix(s, n, b);
    } else {
      assert b == s[n] && b !in front;
      assert forall k :: 0 <= k < n ==> front[k] == s[k];
    }
  }

  lemma {:induction false} DedupeConcat<T>(a: seq<T>, b: seq<T>)
    ensures Dedupe(a + b) == Dedupe(a) + Without(Dedupe(b), ToSet(a))
    decreases |b|, 0
  {
    if b == [] {
      assert a + b == a;
      assert Dedupe(b) == b && Without(b, ToSet(a)) == b;
    } else {
      DedupeConcatStep(a, b[..|b| - 1], b[|b| - 1]);
      assert b == b[..|b| - 1] + [b[|b| - 1]];
    }
  }

  lemma {:induction false} DedupeConcatStep<T>(a: seq<T>, front: seq<T>, x: T)
    ensures Dedupe(a + (front + [x])) == Dedupe(a) + Without(Dedupe(front + [x]), ToSet(a))
    decreases |front|, 1
  {
    hide Dedupe, Without;
    DedupeConcat(a, front);
    assert a + (front + [x]) == a + front + [x];
    DedupeSnoc(a + front, x);
    DedupeSnoc(front, x);
    WithoutSnoc(Dedupe(front), x, ToSet(a));
  }

  // ------------------------------------------------------------------ filtering

  lemma WithoutSnoc<T>(s: seq<T>, x: T, drop: set<T>)
    ensures Without(s + [x], drop) == if x in drop then Without(s, drop) else Without(s, drop) + [x]
  {
    assert (s + [x])[..|s|] == s;
  }

  lemma WithinSnoc<T>(s: seq<T>, x: T, keep: set<T>)
    ensures Within(s + [x], keep) == if x in keep then Within(s, keep) + [x] else Within(s, keep)
  {
    assert (s + [x])[..|s|] == s;
  }

  lemma {:induction false} WithoutMembers<T>(s: seq<T>, drop: set<T>)
    ensures forall x :: x in Without(s, drop) <==> x in s && x !in drop
    ensures NoDuplicates(s) ==> NoDuplicates(Without(s, drop))
  {
    if s != [] {
      var n := |s| - 1;
      WithoutMembers(s[..n], drop);
      assert s == s[..n] + [s[n]];
    }
  }

  lemma {:induction false} WithoutConcat<T>(a: seq<T>, b: seq<T>, drop: set<T>)
    ensures Without(a + b, drop) == Without(a, drop) + Without(b, drop)
  {
    if b == [] {
      assert a + b == a;
    } else {
      var n := |b| - 1;
      WithoutConcat(a, b[..n], drop);
      assert b == b[..n] + [b[n]];
      assert a + b == a + b[..n] + [b[n]];
      WithoutSnoc(a + b[..n], b[n], drop);
    }
  }

  lemma {:induction false} WithoutNothing<T>(s: seq<T>, drop: set<T>)
    requires forall x :: x in s ==> x !in drop
    ensures Without(s, drop) == s
  {
    if s != [] {
      var n := |s| - 1;
      WithoutNothing(s[..n], drop);
      assert s == s[..n] + [s[n]];
    }
  }

  // ------------------------------------------------------- the merge, as promised

  /** Nothing twice; an item is there exactly if it is added, or in the base and not removed. */
  lemma MergedMembers(base: seq<string>, child: seq<string>)
    ensures NoDuplicates(Merged(base, child))
    ensures forall x :: x in Merged(base, child) <==>
                        x in Additions(child) || (x in base && x !in Removals(child))
  {
    var kept := Without(base, Removals(child));
    DedupeMembers(kept + Additions(child));
    WithoutMembers(base, Removals(child));
  }

  /** Surviving base items first, in base order; then the new additions in child order. */
  lemma MergedOrder(base: seq<string>, child: seq<string>)
    ensures Merged(base, child) ==
            Without(Dedupe(base), Removals(child))
            + Without(Dedupe(Additions(child)), ToSet(Without(base, Removals(child))))
  {
    DedupeConcat(Without(base, Removals(child)), Additions(child));
    DedupeWithout(base, Removals(child));
  }

  lemma {:induction false} DedupeWithout<T>(s: seq<T>, drop: set<T>)
    ensures Dedupe(Without(s, drop)) == Without(Dedupe(s), drop)
  {
    if s != [] {
      var n := |s| - 1;
      var front := s[..n];
      DedupeWithout(front, drop);
      assert s == front + [s[n]];
      WithoutSnoc(front, s[n], drop);
      WithoutMembers(front, drop);
      DedupeSnoc(Without(front, drop), s[n]);
      WithoutSnoc(Dedupe(front), s[n], drop);
    }
  }

  // -------------------------------------------------- applying the child a second time

  /** Once an item of s is in r, all later ones are. */
  predicate SettledLast<T(==)>(s: seq<T>, r: set<T>) {
    forall i, j :: 0 <= i < j < |s| && s[i] in r ==> s[j] in r
  }

  /** Every addition that the same list also removes comes after all the plain additions. */
  predicate RemovedAdditionsLast(child: seq<string>) {
    SettledLast(Dedupe(Additions(child)), Removals(child))
  }

  lemma SnocEqual<T>(p: seq<T>, q: seq<T>, x: T)
    ensures p + [x] == q + [x] <==> p == q
  {
    if p + [x] == q + [x] {
      assert p == (p + [x])[..|p|];
      assert q == (q + [x])[..|q|];
    }
  }

  /** Moving the items of r behind the others changes nothing exactly if they are there already. */
  lemma {:induction false} Partition<T>(s: seq<T>, r: set<T>)
    ensures Without(s, r) + Within(s, r) == s <==> SettledLast(s, r)
  {
    if s != [] {
      var front, x := s[..|s| - 1], s[|s| - 1];
      assert s == front + [x];
      Partition(front, r);
      PartitionStep(front, x, r);
    }
  }

  lemma PartitionStep<T>(front: seq<T>, x: T, r: set<T>)
    requires Without(front, r) + Within(front, r) == front <==> SettledLast(front, r)
    ensures var s := front + [x]; Without(s, r) + Within(s, r) == s <==> SettledLast(s, r)
  {
    hide Without, Within;
    var s, n := front + [x], |front|;
    var w, v := Without(front, r), Within(front, r);
    WithoutSnoc(front, x, r);
    WithinSnoc(front, x, r);
    WithinMembers(front, r);
    assert forall i :: 0 <= i < n ==> s[i] == front[i];
    if x in r || v == [] {
      assert Without(s, r) + Within(s, r) == w + v + [x];
      SnocEqual(w + v, front, x);
      assert SettledLast(s, r) <==> SettledLast(front, r) by {
        assert v == [] ==> forall i :: 0 <= i < n ==> front[i] in front && front[i] !in v;
      }
    } else {
      var last := v[|v| - 1];
      assert last in v;
      var i := IndexOf(front, last);
      assert s[i] in r && s[n] == x;
      assert (w + [x] + v)[|w| + |v|] == last;
      Lengths(front, r);
    }
  }

  lemma {:induction false} Lengths<T>(s: seq<T>, r: set<T>)
    ensures |Without(s, r)| + |Within(s, r)| == |s|
  {
    if s != [] {
      Lengths(s[..|s| - 1], r);
    }
  }

  lemma {:induction false} WithinMembers<T>(s: seq<T>, keep: set<T>)
    ensures forall x :: x in Within(s, keep) <==> x in s && x in keep
  {
    if s != [] {
      var n := |s| - 1;
      WithinMembers(s[..n], keep);
      assert s == s[..n] + [s[n]];
    }
  }

  lemma {:induction false} SettledFilter<T>(s: seq<T>, r: set<T>, drop: set<T>)
    requires SettledLast(s, r)
    ensures SettledLast(Without(s, drop), r)
  {
    if s != [] {
      var n := |s| - 1;
      assert forall i :: 0 <= i < n ==> s[..n][i] == s[i];
      SettledFilter(s[..n], r, drop);
      if s[n] !in drop && s[n] !in r {
        forall i | 0 <= i < |Without(s[..n], drop)|
          ensures Without(s[..n], drop)[i] !in r
        {
          WithoutMembers(s[..n], drop);
          var x := Without(s[..n], drop)[i];
          assert x in Without(s[..n], drop);
          var k := IndexOf(s[..n], x);
          assert s[k] == x;
        }
      }
    }
  }

  /** Dropping first k, then everything already kept, leaves exactly the removed ones. */
  lemma {:induction false} SecondRound<T>(s: seq<T>, k: set<T>, r: set<T>, again: set<T>)
    requires k !! r
    requires forall x :: x in again <==> x in k || (x in s && x !in r)
    ensures Without(s, again) == Within(Without(s, k), r)
  {
    SecondRoundPrefix(s, |s|, k, r, again);
    assert s[..|s|] == s;
  }

  lemma {:induction false} SecondRoundPrefix<T>(s: seq<T>, n: nat, k: set<T>, r: set<T>, again: set<T>)
    requires n <= |s| && k !! r
    requires forall x :: x in again <==> x in k || (x in s && x !in r)
    ensures Without(s[..n], again) == Within(Without(s[..n], k), r)
  {
    if n > 0 {
      SecondRoundPrefix(s, n - 1, k, r, again);
      assert s[..n] == s[..n - 1] + [s[n - 1]];
      WithoutSnoc(s[..n - 1], s[n - 1], again);
      WithoutSnoc(s[..n - 1], s[n - 1], k);
      WithinSnoc(Without(s[..n - 1], k), s[n - 1], r);
    }
  }

  /** What a second application does: the additions that are also removed move to the end. */
  lemma MergedAgain(base: seq<string>, child: seq<string>)
    ensures var r := Removals(child);
            var kept := Without(Dedupe(base), r);
            var novel := Without(Dedupe(Additions(child)), ToSet(Without(base, r)));
            Merged(base, child) == kept + novel &&
            Merged(Merged(base, child), child) == kept + (Without(novel, r) + Within(novel, r))
  {
    hide Dedupe, Without, Within, Additions, Removals;
    var r, added := Removals(child), Dedupe(Additions(child));
    var survivors := ToSet(Without(base, r));
    var kept := Without(Dedupe(base), r);
    var novel := Without(added, survivors);
    var once := Merged(base, child);
    MergedOrder(base, child);
    MergedMembers(base, child);
    DedupeNothing(once);
    MergedOrder(once, child);
    WithoutConcat(kept, novel, r);
    WithoutMembers(Dedupe(base), r);
    WithoutMembers(base, r);
    DedupeMembers(base);
    DedupeMembers(Additions(child));
    WithoutNothing(kept, r);
    WithoutMembers(once, r);
    WithoutMembers(added, survivors);
    SecondRound(added, survivors, r, ToSet(Without(once, r)));
    assert kept + Without(novel, r) + Within(novel, r) == kept + (Without(novel, r) + Within(novel, r));
  }

  /** A second application never changes which items are there. */
  lemma MergedAgainMembers(base: seq<string>, child: seq<string>)
    ensures forall x :: x in Merged(Merged(base, child), child) <==> x in Merged(base, child)
  {
    MergedMembers(base, child);
    MergedMembers(Merged(base, child), child);
  }

  /** Applying the child again is the identity on every base exactly for these children. */
  lemma MergedIdempotent(child: seq<string>)
    ensures (forall base :: Merged(Merged(base, child), child) == Merged(base, child))
            <==> RemovedAdditionsLast(child)
  {
    var r, added := Removals(child), Dedupe(Additions(child));
    if RemovedAdditionsLast(child) {
      forall base
        ensures Merged(Merged(base, child), child) == Merged(base, child)
      {
        MergedAgain(base, child);
        SettledFilter(added, r, ToSet(Without(base, r)));
        Partition(Without(added, ToSet(Without(base, r))), r);
      }
    } else {
      var none: seq<string> := [];
      MergedAgain(none, child);
      var novel := Without(added, ToSet(Without(none, r)));
      WithoutNothing(added, ToSet(Without(none, r)));
      assert Without(Dedupe(none), r) == none;
      Partition(added, r);
      assert none + (Without(added, r) + Within(added, r)) == Without(added, r) + Within(added, r);
      assert none + added == added;
      assert Merged(Merged(none, child), child) != Merged(none, child);
    }
  }

  /** No item both added and removed is the usual case, and is enough. */
  lemma MergedIdempotentDisjoint(child: seq<string>)
    requires forall x :: x in Additions(child) ==> x !in Removals(child)
    ensures RemovedAdditionsLast(child)
  {
    DedupeMembers(Additions(child));
    var added := Dedupe(Additions(child));
    assert forall i :: 0 <= i < |added| ==> added[i] in added && added[i] !in Removals(child);
  }

  lemma Literals(a: string, b: string)
    requires a != b && !Bang(a) && !Bang(b) && a != []
    ensures Additions([a, "!" + a, b]) == [a, b] && Removals([a, "!" + a, b]) == {a}
  {
    hide Additions, Removals;
    EmptyForms({});
    ChildSnoc([], a);
    ChildSnoc([a], "!" + a);
    ChildSnoc([a, "!" + a], b);
    assert [] + [a] == [a] && [a] + ["!" + a] == [a, "!" + a] && [a, "!" + a] + [b] == [a, "!" + a, b];
    assert ("!" + a)[1..] == a;
  }

  /** A family of children for which the second application does reorder. */
  lemma ReapplyReorders(a: string, b: string)
    requires a != b && !Bang(a) && !Bang(b) && a != []
    ensures Merged([], [a, "!" + a, b]) == [a, b]
    ensures Merged([a, b], [a, "!" + a, b]) == [b, a]
  {
    hide Merged, Dedupe, Without, Within, Additions, Removals;
    var none: seq<string> := [];
    Literals(a, b);
    Halves(a, b);
    MergedAgain(none, [a, "!" + a, b]);
    assert ToSet(none) == {};
    assert none + [a, b] == [a, b] && none + ([b] + [a]) == [b, a];
  }

  lemma Halves(a: string, b: string)
    requires a != b
    ensures var none: seq<string> := [];
            Dedupe(none) == none && Dedupe([a, b]) == [a, b] &&
            Without(none, {a}) == none && Without([a, b], {}) == [a, b] &&
            Without([a, b], {a}) == [b] && Within([a, b], {a}) == [a]
  {
    DedupeNothing([a, b]);
    WithoutNothing([a, b], {});
    assert [a, b] == [a] + [b] && [a] == [] + [a];
    WithoutSnoc([a], b, {a});
    WithoutSnoc([], a, {a});
    WithinSnoc([a], b, {a});
    WithinSnoc([], a, {a});
  }
}
