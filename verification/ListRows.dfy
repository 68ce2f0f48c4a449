/**
 The list of a user's machines: workspaces and live sessions merged into one row per name, in name order.
 */
module ListRows {
  import opened Options
  import opened Store

  /** How long ago, in the four forms in which it is written. */
  datatype Age = Seconds(s: int) | Minutes(m: int) | Hours(h: int) | HoursMinutes(h: int, m: int)

  datatype MachineRow = MachineRow(name: string, status: string, branch: string, image: string, age: Age)

  // Times and durations are in nanoseconds.
  const SECOND := 1_000_000_000
  const MINUTE := 60 * SECOND
  const HOUR := 60 * MINUTE

  /** Division that truncates towards zero. */
  function Truncated(d: int, unit: int): int
    requires unit > 0
  {
    if d >= 0 then d / unit else -(-d / unit)
  }

  function FormatDuration(d: int): Age {
    if d < MINUTE then Seconds(Truncated(d, SECOND))
    else if d < HOUR then Minutes(d / MINUTE)
    else if d / MINUTE % 60 == 0 then Hours(d / HOUR)
    else HoursMinutes(d / HOUR, d / MINUTE % 60)
  }

  const DEFAULT := "(default)"

  /** The name a session is listed under. */
  function DisplayName(r: Row): string {
    if r.project == "" then DEFAULT else r.project
  }

  function WorkspaceRow(ws: Workspace, now: int): MachineRow {
    var status := if ws.state == Preserved then "preserved" else if !ws.initialized then "uninitialized" else "stopped";
    MachineRow(ws.name, status, ws.branch, "", FormatDuration(now - ws.createdAt))
  }

  function SessionRow(r: Row, branch: string, now: int): MachineRow {
    MachineRow(DisplayName(r), if r.status == GracePeriod then "grace" else "running", branch, r.image,
               FormatDuration(now - r.createdAt))
  }

  function LastWorkspace(workspaces: seq<Workspace>, name: string): Option<Workspace> {
    if workspaces == [] then None
    else
      var ws := workspaces[|workspaces| - 1];
      if ws.name == name then Some(ws) else LastWorkspace(workspaces[..|workspaces| - 1], name)
  }

  function LastSession(sessions: seq<Row>, name: string): Option<Row> {
    if sessions == [] then None
    else
      var r := sessions[|sessions| - 1];
      if DisplayName(r) == name then Some(r) else LastSession(sessions[..|sessions| - 1], name)
  }

  /** What is listed under a name: a preserved workspace before its session, its session before a workspace. */
  function Listed(ws: Option<Workspace>, r: Option<Row>, now: int): Option<MachineRow> {
    if ws.Some? && (ws.value.state == Preserved || r.None?) then Some(WorkspaceRow(ws.value, now))
    else if r.Some? then Some(SessionRow(r.value, if ws.Some? then ws.value.branch else "", now))
    else None
  }

  /** With only registered machines wanted, a name without a workspace is not listed. */
  function RowFor(workspaces: seq<Workspace>, sessions: seq<Row>, registeredOnly: bool, now: int, name: string): Option<MachineRow> {
    var ws := LastWorkspace(workspaces, name);
    if registeredOnly && ws.None? then None else Listed(ws, LastSession(sessions, name), now)
  }

  // ------------------------------------------------------------------- name order

  /** Lexicographic order. */
  predicate Before(a: string, b: string) {
    b != "" && (a == "" || a[0] < b[0] || (a[0] == b[0] && Before(a[1..], b[1..])))
  }

  lemma {:induction false} BeforeTransitive(a: string, b: string, c: string)
    requires Before(a, b) && Before(b, c)
    ensures Before(a, c)
  {
    if a != "" && a[0] == b[0] && b[0] == c[0] {
      BeforeTransitive(a[1..], b[1..], c[1..]);
    }
  }

  lemma {:induction false} BeforeTotal(a: string, b: string)
    ensures Before(a, b) || Before(b, a) <==> a != b
    ensures !(Before(a, b) && Before(b, a))
  {
    if a != "" && b != "" {
      BeforeTotal(a[1..], b[1..]);
      assert a == [a[0]] + a[1..] && b == [b[0]] + b[1..];
    }
  }

  ghost predicate Increasing(names: seq<string>) {
    forall i, j :: 0 <= i < j < |names| ==> Before(names[i], names[j])
  }

  /** An increasing sequence is determined by its members. */
  lemma {:induction false} IncreasingUnique(s: seq<string>, t: seq<string>)
    requires Increasing(s) && Increasing(t) && forall x :: x in s <==> x in t
    ensures s == t
  {
    assert s != [] ==> s[0] in t;
    assert t != [] ==> t[0] in s;
    if s != [] && t != [] {
      FirstMatches(s, t);
      RestMatches(s, t);
      IncreasingUnique(s[1..], t[1..]);
      assert s == [s[0]] + s[1..] && t == [t[0]] + t[1..];
    }
  }

  lemma FirstMatches(s: seq<string>, t: seq<string>)
    requires s != [] && t != [] && Increasing(s) && Increasing(t) && forall x :: x in s <==> x in t
    ensures s[0] == t[0]
  {
    hide Before;
    var i :| 0 <= i < |t| && t[i] == s[0] by {
      assert s[0] in t;
    }
    var j :| 0 <= j < |s| && s[j] == t[0] by {
      assert t[0] in s;
    }
    BeforeTotal(s[0], t[0]);
  }

  lemma RestMatches(s: seq<string>, t: seq<string>)
    requires s != [] && t != [] && Increasing(s) && Increasing(t) && s[0] == t[0] && forall x :: x in s <==> x in t
    ensures Increasing(s[1..]) && Increasing(t[1..]) && forall x :: x in s[1..] <==> x in t[1..]
  {
    hide Before;
    forall x
      ensures x in s[1..] <==> x in t[1..]
    {
      RestExcludesFirst(s);
      RestExcludesFirst(t);
      assert x in s <==> x == s[0] || x in s[1..];
      assert x in t <==> x == t[0] || x in t[1..];
    }
  }

  lemma RestExcludesFirst(s: seq<string>)
    requires s != [] && Increasing(s)
    ensures s[0] !in s[1..]
  {
    hide Before;
    forall i | 0 <= i < |s| - 1
      ensures s[1..][i] != s[0]
    {
      assert Before(s[0], s[i + 1]);
      BeforeTotal(s[0], s[i + 1]);
    }
  }

  /** Puts one more name in its place. */
  method Insert(sorted: seq<string>, name: string) returns (r: seq<string>)
    requires Increasing(sorted) && name !in sorted
    ensures Increasing(r) && forall x :: x in r <==> x in sorted || x == name
  {
    hide Before;
    var i := 0;
    while i < |sorted| && Before(sorted[i], name)
      invariant i <= |sorted| && forall j :: 0 <= j < i ==> Before(sorted[j], name)
    {
      i := i + 1;
    }
    r := sorted[..i] + [name] + sorted[i..];
    forall j | i <= j < |sorted|
      ensures Before(name, sorted[j])
    {
      assert sorted[i] in sorted;
      BeforeTotal(sorted[i], name);
      if i < j {
        BeforeTransitive(name, sorted[i], sorted[j]);
      }
    }
    assert sorted == sorted[..i] + sorted[i..];
  }

  // ----------------------------------------------------------------------- the merge

  function Names(out: seq<MachineRow>): seq<string> {
    seq(|out|, i requires 0 <= i < |out| => out[i].name)
  }

  /** One row per listed name, in name order. */
  ghost predicate IsListing(workspaces: seq<Workspace>, sessions: seq<Row>, registeredOnly: bool, now: int, out: seq<MachineRow>) {
    Increasing(Names(out)) &&
    forall row :: row in out <==> RowFor(workspaces, sessions, registeredOnly, now, row.name) == Some(row)
  }

  /** The rows so far: exactly the listed ones. */
  ghost predicate Holds(rowsByName: map<string, MachineRow>, workspaces: seq<Workspace>, sessions: seq<Row>, registeredOnly: bool, now: int) {
    forall name ::
      RowFor(workspaces, sessions, registeredOnly, now, name) == if name in rowsByName then Some(rowsByName[name]) else None
  }

  lemma WorkspaceStep(rowsByName: map<string, MachineRow>, workspaces: seq<Workspace>, i: nat, registeredOnly: bool, now: int)
    requires i < |workspaces| && Holds(rowsByName, workspaces[..i], [], registeredOnly, now)
    ensures Holds(rowsByName[workspaces[i].name := WorkspaceRow(workspaces[i], now)], workspaces[..i + 1], [], registeredOnly, now)
  {
    assert workspaces[..i + 1][..i] == workspaces[..i];
    forall name
      ensures LastWorkspace(workspaces[..i + 1], name) ==
              if workspaces[i].name == name then Some(workspaces[i]) else LastWorkspace(workspaces[..i], name)
    {
    }
    hide LastWorkspace, WorkspaceRow;
    var after := rowsByName[workspaces[i].name := WorkspaceRow(workspaces[i], now)];
    forall name
      ensures RowFor(workspaces[..i + 1], [], registeredOnly, now, name) == if name in after then Some(after[name]) else None
    {
      assert RowFor(workspaces[..i], [], registeredOnly, now, name) == if name in rowsByName then Some(rowsByName[name]) else None;
    }
  }

  /** What a session makes of the row that is there. */
  function Merged(existing: Option<MachineRow>, r: Row, registeredOnly: bool, now: int): Option<MachineRow> {
    if registeredOnly && existing.None? then None
    else if existing.Some? && existing.value.status == "preserved" then existing
    else Some(SessionRow(r, if existing.Some? then existing.value.branch else "", now))
  }

  lemma {:induction false} LastSessionNamed(sessions: seq<Row>, name: string)
    ensures LastSession(sessions, name).Some? ==> DisplayName(LastSession(sessions, name).value) == name
  {
    if sessions != [] {
      LastSessionNamed(sessions[..|sessions| - 1], name);
    }
  }

  lemma SessionStep(workspaces: seq<Workspace>, sessions: seq<Row>, i: nat, registeredOnly: bool, now: int, name: string)
    requires i < |sessions|
    ensures var before := RowFor(workspaces, sessions[..i], registeredOnly, now, name);
            RowFor(workspaces, sessions[..i + 1], registeredOnly, now, name) ==
            if DisplayName(sessions[i]) == name then Merged(before, sessions[i], registeredOnly, now) else before
  {
    assert sessions[..i + 1][..i] == sessions[..i];
    assert LastSession(sessions[..i + 1], name) ==
           if DisplayName(sessions[i]) == name then Some(sessions[i]) else LastSession(sessions[..i], name);
    hide LastSession, LastWorkspace;
  }

  lemma SessionsStep(rowsByName: map<string, MachineRow>, workspaces: seq<Workspace>, sessions: seq<Row>, i: nat, registeredOnly: bool, now: int)
    requires i < |sessions| && Holds(rowsByName, workspaces, sessions[..i], registeredOnly, now)
    ensures var name := DisplayName(sessions[i]);
            var row := Merged(if name in rowsByName then Some(rowsByName[name]) else None, sessions[i], registeredOnly, now);
            Holds(if row.Some? then rowsByName[name := row.value] else rowsByName, workspaces, sessions[..i + 1], registeredOnly, now)
  {
    hide RowFor, Merged;
    var name := DisplayName(sessions[i]);
    var row := Merged(if name in rowsByName then Some(rowsByName[name]) else None, sessions[i], registeredOnly, now);
    NeverUnlisted(if name in rowsByName then Some(rowsByName[name]) else None, sessions[i], registeredOnly, now);
    var after := if row.Some? then rowsByName[name := row.value] else rowsByName;
    forall other
      ensures RowFor(workspaces, sessions[..i + 1], registeredOnly, now, other) == if other in after then Some(after[other]) else None
    {
      SessionStep(workspaces, sessions, i, registeredOnly, now, other);
      assert RowFor(workspaces, sessions[..i], registeredOnly, now, other) == if other in rowsByName then Some(rowsByName[other]) else None;
    }
  }

  lemma NeverUnlisted(existing: Option<MachineRow>, r: Row, registeredOnly: bool, now: int)
    ensures existing.Some? ==> Merged(existing, r, registeredOnly, now).Some?
  {
  }

  lemma NothingHeld(workspaces: seq<Workspace>, sessions: seq<Row>, registeredOnly: bool, now: int)
    ensures Holds(map[], workspaces[..0], [], registeredOnly, now)
    ensures sessions[..0] == [] && workspaces[..|workspaces|] == workspaces && sessions[..|sessions|] == sessions
  {
  }

  method MergeRows(workspaces: seq<Workspace>, sessions: seq<Row>, registeredOnly: bool, now: int) returns (out: seq<MachineRow>)
    ensures IsListing(workspaces, sessions, registeredOnly, now, out)
  {
    hide RowFor, WorkspaceRow, SessionRow, Increasing, Holds;
    var rowsByName: map<string, MachineRow> := map[];
    NothingHeld(workspaces, sessions, registeredOnly, now);
    for i := 0 to |workspaces|
      invariant Holds(rowsByName, workspaces[..i], [], registeredOnly, now)
    {
      WorkspaceStep(rowsByName, workspaces, i, registeredOnly, now);
      rowsByName := rowsByName[workspaces[i].name := WorkspaceRow(workspaces[i], now)];
    }
    for i := 0 to |sessions|
      invariant Holds(rowsByName, workspaces, sessions[..i], registeredOnly, now)
    {
      var name := DisplayName(sessions[i]);
      SessionsStep(rowsByName, workspaces, sessions, i, registeredOnly, now);
      if registeredOnly && name !in rowsByName {
        continue;
      }
      if name in rowsByName && rowsByName[name].status == "preserved" {
        assert rowsByName[name := rowsByName[name]] == rowsByName;
        continue;
      }
      rowsByName := rowsByName[name := SessionRow(sessions[i], if name in rowsByName then rowsByName[name].branch else "", now)];
    }
    var names := SortedKeys(rowsByName);
    out := RowsInOrder(rowsByName, names);
    HeldIsListed(rowsByName, names, workspaces, sessions, registeredOnly, now, out);
  }

  /** The names, in whatever order the map yields them, sorted. */
  method SortedKeys(rowsByName: map<string, MachineRow>) returns (names: seq<string>)
    ensures Increasing(names) && forall x :: x in names <==> x in rowsByName
  {
    hide Increasing;
    names := [];
    assert Increasing(names) by {
      NoNames();
    }
    var todo := rowsByName.Keys;
    while todo != {}
      invariant todo <= rowsByName.Keys && Increasing(names)
      invariant forall x :: x in names <==> x in rowsByName.Keys - todo
      decreases todo
    {
      var name :| name in todo;
      names := Insert(names, name);
      todo := todo - {name};
    }
  }

  lemma NoNames()
    ensures Increasing([])
  {
  }

  method RowsInOrder(rowsByName: map<string, MachineRow>, names: seq<string>) returns (out: seq<MachineRow>)
    requires forall x :: x in names <==> x in rowsByName
    ensures |out| == |names| && forall i :: 0 <= i < |out| ==> out[i] == rowsByName[names[i]]
  {
    out := [];
    for i := 0 to |names|
      invariant |out| == i && forall j :: 0 <= j < i ==> out[j] == rowsByName[names[j]]
    {
      assert names[i] in names;
      out := out + [rowsByName[names[i]]];
    }
  }

  lemma {:induction false} LastWorkspaceNamed(workspaces: seq<Workspace>, name: string)
    ensures LastWorkspace(workspaces, name).Some? ==> LastWorkspace(workspaces, name).value.name == name
  {
    if workspaces != [] {
      LastWorkspaceNamed(workspaces[..|workspaces| - 1], name);
    }
  }

  lemma RowNamed(workspaces: seq<Workspace>, sessions: seq<Row>, registeredOnly: bool, now: int, name: string)
    ensures var row := RowFor(workspaces, sessions, registeredOnly, now, name); row.Some? ==> row.value.name == name
  {
    LastWorkspaceNamed(workspaces, name);
    LastSessionNamed(sessions, name);
  }

  lemma HeldIsListed(rowsByName: map<string, MachineRow>, names: seq<string>,
                     workspaces: seq<Workspace>, sessions: seq<Row>, registeredOnly: bool, now: int, out: seq<MachineRow>)
    requires Holds(rowsByName, workspaces, sessions, registeredOnly, now)
    requires Increasing(names) && forall x :: x in names <==> x in rowsByName
    requires |out| == |names| && forall i :: 0 <= i < |out| ==> out[i] == rowsByName[names[i]]
    ensures IsListing(workspaces, sessions, registeredOnly, now, out)
  {
    hide RowFor, Increasing;
    forall name
      ensures name in rowsByName ==> rowsByName[name].name == name
      ensures RowFor(workspaces, sessions, registeredOnly, now, name) == if name in rowsByName then Some(rowsByName[name]) else None
    {
      RowNamed(workspaces, sessions, registeredOnly, now, name);
    }
    assert forall i :: 0 <= i < |names| ==> names[i] in names;
    assert Names(out) == names;
    forall row: MachineRow | RowFor(workspaces, sessions, registeredOnly, now, row.name) == Some(row)
      ensures row in out
    {
      assert row.name in names;
      var i :| 0 <= i < |names| && names[i] == row.name;
      assert out[i] == row;
    }
  }

  // --------------------------------------------------------------- what is promised

  /** There is one listing, whatever order the map is walked in. */
  lemma ListingUnique(workspaces: seq<Workspace>, sessions: seq<Row>, registeredOnly: bool, now: int, a: seq<MachineRow>, b: seq<MachineRow>)
    requires IsListing(workspaces, sessions, registeredOnly, now, a) && IsListing(workspaces, sessions, registeredOnly, now, b)
    ensures a == b
  {
    hide RowFor, Increasing;
    SameNames(workspaces, sessions, registeredOnly, now, a, b);
    SameNames(workspaces, sessions, registeredOnly, now, b, a);
    IncreasingUnique(Names(a), Names(b));
    forall i | 0 <= i < |a|
      ensures a[i] == b[i]
    {
      assert a[i] in a && b[i] in b && Names(a)[i] == Names(b)[i];
    }
  }

  lemma SameNames(workspaces: seq<Workspace>, sessions: seq<Row>, registeredOnly: bool, now: int, a: seq<MachineRow>, b: seq<MachineRow>)
    requires IsListing(workspaces, sessions, registeredOnly, now, a) && IsListing(workspaces, sessions, registeredOnly, now, b)
    ensures |Names(a)| == |a| && forall x :: x in Names(a) ==> x in Names(b)
  {
    hide RowFor, Increasing;
    forall x | x in Names(a)
      ensures x in Names(b)
    {
      var i :| 0 <= i < |a| && a[i].name == x;
      assert a[i] in a;
      var j :| 0 <= j < |b| && b[j] == a[i];
      assert Names(b)[j] == x;
    }
  }

  lemma {:induction false} SomeWorkspace(workspaces: seq<Workspace>, name: string)
    ensures LastWorkspace(workspaces, name).Some? <==> exists ws :: ws in workspaces && ws.name == name
    ensures LastWorkspace(workspaces, name).Some? ==> LastWorkspace(workspaces, name).value in workspaces
  {
    if workspaces != [] {
      var n := |workspaces| - 1;
      SomeWorkspace(workspaces[..n], name);
      assert workspaces == workspaces[..n] + [workspaces[n]];
    }
  }

  lemma {:induction false} SomeSession(sessions: seq<Row>, name: string)
    ensures LastSession(sessions, name).Some? <==> exists r :: r in sessions && DisplayName(r) == name
    ensures LastSession(sessions, name).Some? ==> LastSession(sessions, name).value in sessions
  {
    if sessions != [] {
      hide DisplayName;
      var n := |sessions| - 1;
      SomeSession(sessions[..n], name);
      assert sessions == sessions[..n] + [sessions[n]];
    }
  }

  /** Listed are the names of the workspaces and, unless only registered machines are wanted, of the sessions. */
  lemma ListedNames(workspaces: seq<Workspace>, sessions: seq<Row>, registeredOnly: bool, now: int, out: seq<MachineRow>, name: string)
    requires IsListing(workspaces, sessions, registeredOnly, now, out)
    ensures name in Names(out) <==>
            (exists ws :: ws in workspaces && ws.name == name) ||
            (!registeredOnly && exists r :: r in sessions && DisplayName(r) == name)
  {
    hide LastWorkspace, LastSession, DisplayName, WorkspaceRow, SessionRow, Increasing;
    SomeWorkspace(workspaces, name);
    SomeSession(sessions, name);
    RowNamed(workspaces, sessions, registeredOnly, now, name);
    var row := RowFor(workspaces, sessions, registeredOnly, now, name);
    if row.Some? {
      var i :| 0 <= i < |out| && out[i] == row.value by {
        assert row.value in out;
      }
      assert Names(out)[i] == name;
    }
    if name in Names(out) {
      var i :| 0 <= i < |out| && Names(out)[i] == name;
      assert out[i] in out;
    }
  }

  /** A preserved workspace is listed as preserved even while a session of that name is left. */
  lemma PreservedWins(workspaces: seq<Workspace>, sessions: seq<Row>, registeredOnly: bool, now: int, out: seq<MachineRow>, ws: Workspace)
    requires IsListing(workspaces, sessions, registeredOnly, now, out) && NoDuplicateNames(workspaces)
    requires ws in workspaces && ws.state == Preserved
    ensures MachineRow(ws.name, "preserved", ws.branch, "", FormatDuration(now - ws.createdAt)) in out
  {
    hide LastWorkspace, LastSession, SessionRow, Increasing;
    OnlyWorkspace(workspaces, ws);
    assert RowFor(workspaces, sessions, registeredOnly, now, ws.name) == Some(WorkspaceRow(ws, now));
  }

  predicate NoDuplicateNames(workspaces: seq<Workspace>) {
    forall i, j :: 0 <= i < j < |workspaces| ==> workspaces[i].name != workspaces[j].name
  }

  lemma OnlyWorkspace(workspaces: seq<Workspace>, ws: Workspace)
    requires NoDuplicateNames(workspaces) && ws in workspaces
    ensures LastWorkspace(workspaces, ws.name) == Some(ws)
  {
    hide LastWorkspace;
    SomeWorkspace(workspaces, ws.name);
    LastWorkspaceNamed(workspaces, ws.name);
    var last := LastWorkspace(workspaces, ws.name).value;
    var i :| 0 <= i < |workspaces| && workspaces[i] == ws;
    var j :| 0 <= j < |workspaces| && workspaces[j] == last;
  }

  // --------------------------------------------------------------- the order of the input

  /** No two sessions of the same project: the store's key for one user's rows. */
  predicate NoDuplicateProjects(sessions: seq<Row>) {
    forall i, j :: 0 <= i < j < |sessions| ==> sessions[i].project != sessions[j].project
  }

  /**
   The session without a project and one whose project is really called "(default)" are listed under one
   name, and would be shown differently.
   */
  predicate Ambiguous(workspaces: seq<Workspace>, sessions: seq<Row>, registeredOnly: bool, now: int) {
    var ws := LastWorkspace(workspaces, DEFAULT);
    (ws.None? ==> !registeredOnly) && (ws.Some? ==> ws.value.state != Preserved) &&
    exists r, t :: r in sessions && t in sessions && r.project == "" && t.project == DEFAULT &&
                   SessionRow(r, "", now) != SessionRow(t, "", now)
  }

  lemma SameProjectSameRow(sessions: seq<Row>, r: Row, t: Row)
    requires NoDuplicateProjects(sessions) && r in sessions && t in sessions && r.project == t.project
    ensures r == t
  {
    var i :| 0 <= i < |sessions| && sessions[i] == r;
    var j :| 0 <= j < |sessions| && sessions[j] == t;
  }

  /** Unless a listing is ambiguous, the rows depend on which sessions there are and not on their order. */
  lemma SameRow(workspaces: seq<Workspace>, sessions: seq<Row>, others: seq<Row>, registeredOnly: bool, now: int, name: string)
    requires NoDuplicateProjects(sessions) && (forall r :: r in sessions <==> r in others) && !Ambiguous(workspaces, sessions, registeredOnly, now)
    ensures RowFor(workspaces, sessions, registeredOnly, now, name) == RowFor(workspaces, others, registeredOnly, now, name)
  {
    hide LastWorkspace, LastSession;
    SomeSession(sessions, name);
    SomeSession(others, name);
    LastSessionNamed(sessions, name);
    LastSessionNamed(others, name);
    var s, o := LastSession(sessions, name), LastSession(others, name);
    if s.Some? && o.Some? {
      if s.value.project == o.value.project {
        SameProjectSameRow(sessions, s.value, o.value);
      } else {
        assert name == DEFAULT;
        LastWorkspaceNamed(workspaces, name);
      }
    }
  }

  /** The store's order matters for a listing exactly if it is ambiguous. */
  lemma OrderMattersExactly(workspaces: seq<Workspace>, sessions: seq<Row>, registeredOnly: bool, now: int)
    requires NoDuplicateProjects(sessions)
    ensures (forall others: seq<Row>, name: string ::
               multiset(others) == multiset(sessions) ==>
               RowFor(workspaces, sessions, registeredOnly, now, name) == RowFor(workspaces, others, registeredOnly, now, name))
            <==> !Ambiguous(workspaces, sessions, registeredOnly, now)
  {
    hide RowFor, LastSession, LastWorkspace;
    if Ambiguous(workspaces, sessions, registeredOnly, now) {
      var r, t :| r in sessions && t in sessions && r.project == "" && t.project == DEFAULT &&
                  SessionRow(r, "", now) != SessionRow(t, "", now);
      var a := MovedLast(sessions, r);
      var b := MovedLast(sessions, t);
      ShownLast(workspaces, a, r, registeredOnly, now);
      ShownLast(workspaces, b, t, registeredOnly, now);
      assert RowFor(workspaces, a, registeredOnly, now, DEFAULT) != RowFor(workspaces, b, registeredOnly, now, DEFAULT);
    } else {
      forall others: seq<Row>, name: string | multiset(others) == multiset(sessions)
        ensures RowFor(workspaces, sessions, registeredOnly, now, name) == RowFor(workspaces, others, registeredOnly, now, name)
      {
        assert forall x :: x in sessions <==> x in multiset(sessions);
        assert forall x :: x in others <==> x in multiset(others);
        SameRow(workspaces, sessions, others, registeredOnly, now, name);
      }
    }
  }

  /** The same sessions with r at the end. */
  lemma MovedLast(sessions: seq<Row>, r: Row) returns (others: seq<Row>)
    requires r in sessions
    ensures multiset(others) == multiset(sessions) && others != [] && others[|others| - 1] == r
  {
    var i :| 0 <= i < |sessions| && sessions[i] == r;
    others := sessions[..i] + sessions[i + 1..] + [r];
    assert sessions == sessions[..i] + [r] + sessions[i + 1..];
  }

  lemma ShownLast(workspaces: seq<Workspace>, sessions: seq<Row>, r: Row, registeredOnly: bool, now: int)
    requires sessions != [] && sessions[|sessions| - 1] == r && DisplayName(r) == DEFAULT
    requires var ws := LastWorkspace(workspaces, DEFAULT);
             (ws.None? ==> !registeredOnly) && (ws.Some? ==> ws.value.state != Preserved)
    ensures RowFor(workspaces, sessions, registeredOnly, now, DEFAULT) ==
            Some(SessionRow(r, if LastWorkspace(workspaces, DEFAULT).Some? then LastWorkspace(workspaces, DEFAULT).value.branch else "", now))
  {
  }

  /** Two sessions that differ in nothing else but their age. */
  lemma ClashExample(r: Row, now: int)
    requires r.project == "" && r.createdAt == now
    ensures var t := r.(project := DEFAULT, createdAt := now - SECOND);
            RowFor([], [r, t], false, now, DEFAULT) != RowFor([], [t, r], false, now, DEFAULT)
  {
    var t := r.(project := DEFAULT, createdAt := now - SECOND);
    ShownLast([], [r, t], t, false, now);
    ShownLast([], [t, r], r, false, now);
  }

  /** The store lists a user's sessions by project. */
  ghost predicate ByProject(sessions: seq<Row>) {
    forall i, j :: 0 <= i < j < |sessions| ==> Before(sessions[i].project, sessions[j].project)
  }

  /** In that order the project called "(default)" always hides the session without a project. */
  lemma DefaultHidden(sessions: seq<Row>, t: Row)
    requires ByProject(sessions) && t in sessions && t.project == DEFAULT
    ensures LastSession(sessions, DEFAULT) == Some(t)
  {
    hide LastSession;
    var last := LastIndex(sessions, DEFAULT, t);
    var j :| 0 <= j < |sessions| && sessions[j] == t;
    BeforeTotal(DEFAULT, DEFAULT);
    assert !Before(sessions[j].project, sessions[last].project);
  }

  lemma {:induction false} LastIndex(sessions: seq<Row>, name: string, r: Row) returns (i: nat)
    requires r in sessions && DisplayName(r) == name
    ensures i < |sessions| && DisplayName(sessions[i]) == name && LastSession(sessions, name) == Some(sessions[i])
    ensures forall j :: i < j < |sessions| ==> DisplayName(sessions[j]) != name
  {
    i := |sessions| - 1;
    if DisplayName(sessions[i]) != name {
      var front := sessions[..i];
      assert sessions == front + [sessions[i]];
      var k := LastIndex(front, name, r);
      i := k;
    }
  }

  // ------------------------------------------------------------------ what a row tells

  /** What an age says about the nanoseconds that have passed. */
  predicate Spans(age: Age, d: int) {
    match age
    case Seconds(s) =>
      d < 60_000_000_000 &&
      if d >= 0 then s * 1_000_000_000 <= d < (s + 1) * 1_000_000_000 else (s - 1) * 1_000_000_000 < d <= s * 1_000_000_000
    case Minutes(m) => 1 <= m < 60 && m * 60_000_000_000 <= d < (m + 1) * 60_000_000_000
    case Hours(h) => 1 <= h && h * 3_600_000_000_000 <= d < h * 3_600_000_000_000 + 60_000_000_000
    case HoursMinutes(h, m) =>
      1 <= h && 1 <= m < 60 && h * 3_600_000_000_000 + m * 60_000_000_000 <= d < h * 3_600_000_000_000 + (m + 1) * 60_000_000_000
  }

  /** Whole seconds below a minute, towards zero; whole minutes below an hour; then hours and, if there are any, minutes. */
  lemma AgeSpans(d: int)
    ensures Spans(FormatDuration(d), d)
  {
    var h, m := d / HOUR, d / MINUTE;
    assert d >= 0 ==> m == 60 * h + m % 60;
  }

  /** The rows are in the order of a dictionary: by the first character that differs, a name before its extensions. */
  lemma {:induction false} BeforeExactly(a: string, b: string)
    ensures Before(a, b) <==>
            exists n :: 0 <= n <= |a| && n < |b| && a[..n] == b[..n] && (n == |a| || a[n] < b[n])
  {
    if a != "" && b != "" && a[0] == b[0] {
      BeforeExactly(a[1..], b[1..]);
      if n :| 0 <= n <= |a[1..]| && n < |b[1..]| && a[1..][..n] == b[1..][..n] && (n == |a[1..]| || a[1..][n] < b[1..][n]) {
        assert a[..n + 1] == [a[0]] + a[1..][..n] && b[..n + 1] == [b[0]] + b[1..][..n];
      }
      if n :| 0 <= n <= |a| && n < |b| && a[..n] == b[..n] && (n == |a| || a[n] < b[n]) {
        assert n > 0;
        assert a[1..][..n - 1] == a[..n][1..] && b[1..][..n - 1] == b[..n][1..];
      }
    } else if b != "" {
      assert a[..0] == b[..0];
      assert forall n :: 0 < n <= |a| && n < |b| ==> a[..n][0] == a[0] && b[..n][0] == b[0];
    }
  }

  /** The session is listed under the name. */
  predicate ShownAs(r: Row, name: string) {
    name == if r.project == "" then "(default)" else r.project
  }

  predicate TellsWorkspace(row: MachineRow, ws: Workspace, now: int) {
    row.branch == ws.branch && row.image == "" && Spans(row.age, now - ws.createdAt) &&
    row.status == if ws.state == Preserved then "preserved" else if ws.initialized then "stopped" else "uninitialized"
  }

  predicate TellsSession(row: MachineRow, r: Row, branch: string, now: int) {
    row.branch == branch && row.image == r.image && Spans(row.age, now - r.createdAt) &&
    row.status == if r.status == GracePeriod then "grace" else "running"
  }

  /**
   A row tells about the workspace of its name if that is preserved or has no session, else about the session, and
   then gives the branch of the workspace, if there is one.
   */
  lemma RowTells(workspaces: seq<Workspace>, sessions: seq<Row>, registeredOnly: bool, now: int, out: seq<MachineRow>, row: MachineRow)
    requires IsListing(workspaces, sessions, registeredOnly, now, out) && NoDuplicateNames(workspaces) && row in out
    ensures forall ws :: ws in workspaces && ws.name == row.name ==>
              if ws.state == Preserved || forall r :: r in sessions ==> !ShownAs(r, row.name) then TellsWorkspace(row, ws, now)
              else exists r :: r in sessions && ShownAs(r, row.name) && TellsSession(row, r, ws.branch, now)
    ensures (forall ws :: ws in workspaces ==> ws.name != row.name) ==>
              exists r :: r in sessions && ShownAs(r, row.name) && TellsSession(row, r, "", now)
  {
    hide LastWorkspace, LastSession, Increasing, FormatDuration, Spans, TellsSession, TellsWorkspace;
    var name := row.name;
    SomeWorkspace(workspaces, name);
    SomeSession(sessions, name);
    LastSessionNamed(sessions, name);
    LastWorkspaceNamed(workspaces, name);
    var last, lastSession := LastWorkspace(workspaces, name), LastSession(sessions, name);
    assert RowFor(workspaces, sessions, registeredOnly, now, name) == Some(row);
    forall ws | ws in workspaces && ws.name == name
      ensures last == Some(ws)
    {
      OnlyWorkspace(workspaces, ws);
    }
    if last.Some? {
      WorkspaceTold(last.value, now);
    }
    if lastSession.Some? {
      SessionTold(lastSession.value, if last.Some? then last.value.branch else "", now);
    }
  }

  lemma WorkspaceTold(ws: Workspace, now: int)
    ensures TellsWorkspace(WorkspaceRow(ws, now), ws, now)
  {
    hide FormatDuration, Spans;
    AgeSpans(now - ws.createdAt);
  }

  lemma SessionTold(r: Row, branch: string, now: int)
    ensures TellsSession(SessionRow(r, branch, now), r, branch, now)
  {
    hide FormatDuration, Spans;
    AgeSpans(now - r.createdAt);
  }
}
