/**
 A session row records the ids of its service containers in one comma-separated column.
 Writing joins them; tearing down and orphan detection split, trim and (the former) skip blanks.
 */
module ServiceIds {
  import opened Lists

  /** White space in the sense of Unicode. */
  predicate IsSpace(c: char) {
    var n := c as int;
    0x09 <= n <= 0x0D || n in {0x20, 0x85, 0xA0, 0x1680, 0x2028, 0x2029, 0x202F, 0x205F, 0x3000} || 0x2000 <= n <= 0x200A
  }

  function TrimLeft(s: string): string {
    if s != "" && IsSpace(s[0]) then TrimLeft(s[1..]) else s
  }

  function TrimRight(s: string): string {
    if s != "" && IsSpace(s[|s| - 1]) then TrimRight(s[..|s| - 1]) else s
  }

  function TrimSpace(s: string): string {
    TrimRight(TrimLeft(s))
  }

  function Split(s: string): (parts: seq<string>)
    ensures parts != []
  {
    if s == "" then [""]
    else
      var rest := Split(s[1..]);
      if s[0] == ',' then [""] + rest else [[s[0]] + rest[0]] + rest[1..]
  }

  function Join(ids: seq<string>): string {
    if ids == [] then ""
    else if |ids| == 1 then ids[0]
    else ids[0] + "," + Join(ids[1..])
  }

  function TrimAll(parts: seq<string>): seq<string> {
    if parts == [] then []
    else
      var id := TrimSpace(parts[0]);
      (if id == "" then [] else [id]) + TrimAll(parts[1..])
  }

  /** The containers that teardown removes. */
  function Decode(column: string): seq<string> {
    if column == "" then [] else TrimAll(Split(column))
  }

  /** The containers that orphan detection spares; blanks are not skipped here. */
  function Tracked(column: string): set<string> {
    if column == "" then {} else set part | part in Split(column) :: TrimSpace(part)
  }

  predicate WellFormed(id: string) {
    id != "" && ',' !in id && !IsSpace(id[0]) && !IsSpace(id[|id| - 1])
  }

  predicate AllWellFormed(ids: seq<string>) {
    forall id :: id in ids ==> WellFormed(id)
  }

  // ---------------------------------------------------------------------- trimming

  lemma {:induction false} TrimLeftShape(s: string)
    ensures TrimLeft(s) != "" ==> !IsSpace(TrimLeft(s)[0])
    ensures |TrimLeft(s)| <= |s| && TrimLeft(s) == s[|s| - |TrimLeft(s)|..]
  {
    if s != "" && IsSpace(s[0]) {
      TrimLeftShape(s[1..]);
      assert s[1..][|s| - 1 - |TrimLeft(s)|..] == s[|s| - |TrimLeft(s)|..];
    }
  }

  lemma {:induction false} TrimRightShape(s: string)
    ensures TrimRight(s) != "" ==> !IsSpace(TrimRight(s)[|TrimRight(s)| - 1]) && TrimRight(s)[0] == s[0]
    ensures |TrimRight(s)| <= |s| && TrimRight(s) == s[..|TrimRight(s)|]
  {
    if s != "" && IsSpace(s[|s| - 1]) {
      TrimRightShape(s[..|s| - 1]);
      assert s[..|s| - 1][..|TrimRight(s)|] == s[..|TrimRight(s)|];
    }
  }

  lemma TrimSpaceShape(s: string)
    requires ',' !in s
    ensures TrimSpace(s) != "" ==> WellFormed(TrimSpace(s))
    ensures WellFormed(s) ==> TrimSpace(s) == s
  {
    TrimLeftShape(s);
    TrimRightShape(TrimLeft(s));
  }

  // ---------------------------------------------------------------------- splitting

  lemma {:induction false} SplitParts(s: string)
    ensures forall part :: part in Split(s) ==> ',' !in part
  {
    if s != "" {
      SplitParts(s[1..]);
      var rest := Split(s[1..]);
      assert rest[0] in rest;
      assert forall part :: part in rest[1..] ==> part in rest;
    }
  }

  lemma {:induction false} SplitFirst(a: string, rest: string)
    requires ',' !in a
    ensures Split(a) == [a]
    ensures Split(a + "," + rest) == [a] + Split(rest)
  {
    if a == "" {
      assert (a + "," + rest)[1..] == rest;
    } else {
      SplitFirst(a[1..], rest);
      assert (a + "," + rest)[1..] == a[1..] + "," + rest;
      assert a == [a[0]] + a[1..];
    }
  }

  lemma {:induction false} SplitJoin(ids: seq<string>)
    requires ids != [] && forall id :: id in ids ==> ',' !in id
    ensures Split(Join(ids)) == ids
  {
    assert ids[0] in ids;
    if |ids| == 1 {
      SplitFirst(ids[0], "");
    } else {
      assert forall id :: id in ids[1..] ==> id in ids;
      SplitJoin(ids[1..]);
      SplitFirst(ids[0], Join(ids[1..]));
    }
  }

  lemma {:induction false} TrimAllWellFormed(parts: seq<string>)
    requires forall part :: part in parts ==> ',' !in part
    ensures AllWellFormed(TrimAll(parts))
    ensures AllWellFormed(parts) ==> TrimAll(parts) == parts
  {
    if parts != [] {
      hide TrimSpace, IsSpace;
      assert parts[0] in parts;
      assert forall part :: part in parts[1..] ==> part in parts;
      TrimAllWellFormed(parts[1..]);
      TrimSpaceShape(parts[0]);
    }
  }

  lemma {:induction false} TrimAllSnoc(parts: seq<string>, i: nat)
    requires i < |parts|
    ensures TrimAll(parts[..i + 1]) ==
            TrimAll(parts[..i]) + if TrimSpace(parts[i]) == "" then [] else [TrimSpace(parts[i])]
  {
    hide TrimSpace;
    assert parts[..i + 1][1..] == parts[1..i + 1];
    if i > 0 {
      TrimAllSnoc(parts[1..], i - 1);
      assert parts[1..][..i] == parts[1..i + 1];
      assert parts[1..][..i - 1] == parts[1..i] == parts[..i][1..];
    }
  }

  lemma {:induction false} TrimAllMembers(parts: seq<string>)
    ensures forall part :: part in parts ==> TrimSpace(part) == "" || TrimSpace(part) in TrimAll(parts)
    ensures forall id :: id in TrimAll(parts) ==> id != "" && exists part :: part in parts && TrimSpace(part) == id
  {
    if parts != [] {
      hide TrimSpace;
      TrimAllMembers(parts[1..]);
      assert parts == [parts[0]] + parts[1..];
      forall id | id in TrimAll(parts)
        ensures id != "" && exists part :: part in parts && TrimSpace(part) == id
      {
        if id in TrimAll(parts[1..]) {
          var part :| part in parts[1..] && TrimSpace(part) == id;
          assert part in parts;
        } else {
          assert TrimSpace(parts[0]) == id;
        }
      }
    }
  }

  // ---------------------------------------------------------------- what is promised

  /** Teardown removes exactly the recorded ids, in order, exactly if they are encodable. */
  lemma DecodeJoin(ids: seq<string>)
    ensures Decode(Join(ids)) == ids <==> AllWellFormed(ids)
  {
    if AllWellFormed(ids) {
      if ids != [] {
        SplitJoin(ids);
        TrimAllWellFormed(ids);
        assert Join(ids) != "" by {
          assert ids[0] in ids;
        }
      }
    }
    if Decode(Join(ids)) == ids {
      DecodeWellFormed(Join(ids));
    }
  }

  lemma DecodeWellFormed(column: string)
    ensures AllWellFormed(Decode(column))
  {
    SplitParts(column);
    TrimAllWellFormed(Split(column));
  }

  /** Orphan detection spares exactly the ids that teardown would remove, and perhaps the blank. */
  lemma TrackedIsDecoded(column: string)
    ensures Tracked(column) - {""} == ToSet(Decode(column))
  {
    hide TrimSpace, Split, TrimAll;
    TrimAllMembers(Split(column));
  }

  /** Both uses of the column get back what creation recorded. */
  lemma EncodingUndone(ids: seq<string>)
    requires AllWellFormed(ids)
    ensures Decode(Join(ids)) == ids && Tracked(Join(ids)) == ToSet(ids)
  {
    DecodeJoin(ids);
    TrackedIsDecoded(Join(ids));
    if ids != [] {
      SplitJoin(ids);
      forall id | id in ids
        ensures TrimSpace(id) == id
      {
        TrimSpaceShape(id);
      }
    }
  }

  // ------------------------------------------------------------------- in plain characters

  predicate Blank(s: string) {
    forall i :: 0 <= i < |s| ==> s[i] in " \t\n\r"
  }

  /** Starts and ends with a visible ASCII character and has no comma. */
  predicate Solid(id: string) {
    id != "" && '!' <= id[0] <= '~' && '!' <= id[|id| - 1] <= '~' && ',' !in id
  }

  lemma {:induction false} TrimLeftPad(pad: string, s: string)
    requires Blank(pad) && s != "" && !IsSpace(s[0])
    ensures TrimLeft(pad + s) == s
  {
    if pad == "" {
      assert pad + s == s;
    } else {
      assert (pad + s)[1..] == pad[1..] + s;
      TrimLeftPad(pad[1..], s);
    }
  }

  lemma {:induction false} TrimRightPad(s: string, pad: string)
    requires Blank(pad) && s != "" && !IsSpace(s[|s| - 1])
    ensures TrimRight(s + pad) == s
  {
    if pad == "" {
      assert s + pad == s;
    } else {
      assert (s + pad)[..|s + pad| - 1] == s + pad[..|pad| - 1];
      TrimRightPad(s, pad[..|pad| - 1]);
    }
  }

  lemma NoCommaIn(before: string, id: string, after: string)
    requires Blank(before) && Blank(after) && ',' !in id
    ensures ',' !in before + id + after
  {
  }

  /** White space around an id in the column does not count. */
  lemma PaddingIgnored(before: string, id: string, after: string)
    requires Blank(before) && Blank(after) && Solid(id)
    ensures Decode(before + id + after) == [id] && Tracked(before + id + after) == {id}
  {
    var padded := before + id + after;
    NoCommaIn(before, id, after);
    SplitFirst(padded, "");
    assert padded == before + (id + after);
    TrimLeftPad(before, id + after);
    TrimRightPad(id, after);
    assert TrimSpace(padded) == id;
    assert TrimAll([padded][1..]) == [];
    assert TrimAll([padded]) == [id];
    assert [padded][0] == padded;
  }
}
