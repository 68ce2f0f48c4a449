# podspawn: models and proofs

podspawn gives each user containers that are created on attach and reclaimed after detach. Many short-lived
processes share one SQLite store of sessions and workspaces and one container runtime. This project models, in
Dafny, the parts of podspawn where a mistake costs data, leaves containers behind, or throws somebody out, and
proves what those parts promise.

## The three parts

**The session lifecycle.** `Store` and `Runtime` are the two in-memory fakes as classes, with a script that says
which runtime call and which insert fails; where a fake is laxer than SQLite or Docker (updates of missing rows,
ids of containers, names that are taken) they follow the latter. `Services`, `Cleanup`, `Spawn` and `Sessions` are
the commands, statement by statement, with every rollback. Each method's contract gives the new shared state as a
relation on values of `World`. `Books` and `World` keep the accounts: what a session row records (main container,
service containers, network) is its footprint; the books are balanced when footprints are intact and disjoint and
make up everything that exists. `Runs` puts the relations together to runs of any commands by any number of
processes, each command atomic. Over such runs, `Lifetimes` says in plain terms of a row when a session is joined,
replaced, kept or reclaimed, `Machines` what a named machine stays bound to and which commands it accepts, and
`Ledger` follows the connection counter. `Interleaving` takes attach and detach apart into single store statements under the per-user lock, with deleters that take no lock and
processes that die anywhere, and shows that undisturbed statements add up to the commands.

Failing removals are part of the model. The runtime keeps four ghost tallies: the containers and the networks the
program has given up, how many removals failed, and how many containers it returned without removing. The relations
tie them together: nothing is given up unless a removal failed or a start of services left something behind, and how
much is left behind is read off the outcome. No removal counts as failed for which no call of the runtime failed. So
conservation is stated twice: for all runs, apart from what was given up; and outright, for runs in which removals
succeed and no project's services can leak.

**The schema migrator.** `Migration` is a class of tables with column flags. Its methods issue the same statements
in the same order and transactions, and before every writing statement the process may die. `Upgrade` runs it under
an arbitrary schedule of deaths; `DieOnceFromFour` says what one death does to a database of version 4.

**Podfiles.** `Lists`, `KeyedMerge` and `Compose` are the merge of two Podfile levels, and `Chains` says for every field
which level of a whole chain decides. `Resolve` is the bounded recursion over `extends`, and `Extends` restates what it
accepts in terms of the files and names that are read. `JsonComments` is the comment stripper for devcontainer files, whose strings are those of
section 7 of RFC 8259. The loops are methods proved against small functions, and the laws are lemmas about these.

`ServiceIds` is the comma-separated column of service containers, `ListRows` the list command.

## What does not hold, and exactly when it does

* A run of the migrator that starts at version 4 completes exactly if the `machines` table is there, and then every
  workspace has the mode it had or, if there were no modes, that of the session with its key
  (`Migration.UpgradeFromFour`). If an earlier run died after n statements, the next one completes exactly if the
  earlier one did not get to the rename or got as far as giving up the version row; and the modes are right exactly if
  it did not die between the ALTER and the UPDATE, or all modes are the default (`Migration.DieOnceFromFour`; with
  inputs `Migration.StuckExample` and `Migration.DieBeforeBackfill`). Once the table is gone, no later run gets further
  (`Migration.NeverRecovers`). The comments in the source promise resumption only for the steps from version 5 on, and
  those have it.
* A failed start of services leaves nothing behind exactly if no malformed volume comes after well-formed services
  with distinct names (`Services.NoLeakExactly`, `Services.LeakExample`).
* Merging the same child list twice is the identity on every base exactly if, among its additions in order of first
  mention, those it also removes come last (`Lists.MergedIdempotent`, `Lists.ReapplyReorders`).
* The merge behind the list of machines depends on the order of the session rows exactly if the user has both a
  session without a project and one of a project called `(default)` that would be shown differently, be it only in
  age, and the name is shown from a session at all (`ListRows.OrderMattersExactly`, `ListRows.ClashExample`). The list
  command itself always gets the rows ordered by project, so there the project `(default)` always hides the session
  without a project (`ListRows.DefaultHidden`).
* The branch recorded for a new workspace is the one that is checked out exactly unless no branch was asked for, the
  clone's Podfile names another branch than was cloned, and the Podfile on that branch names yet another
  (`Machines.RecordedIsCheckedOut`).
* Container names of one user are distinct, and of users without a dash in their names altogether
  (`Spawn.NamesDistinct`); with a dash they can clash (`Spawn.NamesClash`), and then creating the second container fails.
* A chain of Podfiles that ends within ten references resolves exactly if no file in it is spelled like a reference in
  it that is no file (`Extends.ResolvesByPlace`, `Extends.ClashExample`). References that end in `.yaml` or `.yml` are
  always looked for on disk, although a comment in the source shows a GitHub reference of that form
  (`Extends.YamlIsOnDisk`).
* In a list of services or repos, an entry and its removal in the same child cancel out only where the base has the
  entry; where it does not, the entry is added (`Chains.NamesOfMerge`, `Chains.UrlsOfMerge`).
* A machine that was created holds a connection that no detach returns: while nobody stops or removes it and its
  lifetime lasts, its session stays, however many clients come and go (`Ledger.CreatedStays`).
* A client detaches even if it did not get in. That changes no counter exactly unless it was refused for a preserved
  workspace while somebody holds a connection under the same name (`Ledger.ExtraDetach`); and if another client creates
  the session in between, the extra detach takes that client's connection (`Ledger.ExtraDetachTakesAnother`).

## Assumptions

Container ids and network ids are fresh and never clash with names; creating a container fails if its name is taken,
so no proof rests on names being distinct. Unlinking a lock file takes no part in runs. Cleanup passes see one time.
In `Runs`, a client carries no workspace or the workspace row as it is when the command starts, as `shell`,
`create` and a direct attach arrange. `Ledger` needs no assumption that clients agree on a mode.

## Model

| member | source | states |
|---|---|---|
| Runs.Conservation | internal/spawn/spawn.go:246-388 | at every point of every run from a new machine, whatever fails, a container or network that has not been given up exists exactly if a session row records it, and no two rows record the same one |
| Runs.ExactConservation | internal/cleanup/cleanup.go:14-37 | as long as no removal has failed and no start of services has left some behind, containers and networks are exactly the union of what the rows record |
| Runs.StepReason | internal/podfile/services.go:27-31 | no command gives anything up unless a removal failed or services were left behind, and how many is read off its outcome |
| Runs.StepKeeps | internal/session/create.go:29-105 | every command and cleanup pass keeps the books balanced and the workspace table in order |
| Runs.Perform | internal/session/create.go:29-105 | each command method, with any client and any answers from outside, takes a step of the run model, and leaves services behind only for a project whose services can leak |
| Runs.Replay | internal/cleanup/cleanup.go:118-125 | any script of commands and passes, whatever fails, makes such a run, and both invariants hold after every command; on a new machine, if no removal fails and no project's services can leak, containers and networks are after every command exactly those of the rows |
| Runs.LinksHold | internal/spawn/spawn.go:673-683 | over all runs a session row with a workspace id points to the existing workspace of the same user and name, and that workspace is not preserved |
| Runs.PreservedUntilCreated | internal/session/workspaces.go:192-211 | a preserved workspace stays preserved over any run without a create of that name or its removal |
| Runs.OnCreateAtMostOnce | internal/spawn/spawn.go:656-697 | between two resets (creation, branch switch) on_create succeeds at most once, never on an initialized workspace, and it alone makes the workspace initialized |
| Runs.HeadImpliesInitialized | internal/spawn/spawn.go:703-719 | at command boundaries a non-empty head commit implies an initialized workspace, and a preserved workspace is uninitialized |
| Runs.Fate | cmd/switch_branch.go:56-117 | what one command can do to the initialized flag and to being preserved, for every command |
| Runs.EnsuredKeeps | internal/spawn/spawn.go:207-224 | attaching, with any outcome, keeps both invariants; after a refusal at the cap, a failed provisioning or a fatal hook there is no row at its key; a refusal for a preserved workspace changes nothing |
| Ledger.LedgerBalances | internal/spawn/spawn.go:923-982 | in calm runs a row's counter equals attached clients plus provisioning creates at every point, and that number is zero where there is no row |
| Ledger.GoesOnlyWhenIdle | internal/spawn/spawn.go:611-630 | in calm runs a row is removed or replaced only when nobody counts on it |
| Ledger.AttachCounts | internal/spawn/spawn.go:276-292 | attaching adds one connection at its key and none elsewhere; a replaced row has a new id and its predecessor had no connections |
| Ledger.CreatedStays | internal/spawn/spawn.go:942-952 | in calm runs the session of a created machine stays |
| Ledger.ExtraDetach | internal/spawn/spawn.go:984-995 | exactly when the detach of a client that did not get in leaves all counters alone |
| Ledger.ExtraDetachTakesAnother | internal/spawn/spawn.go:984-995 | the order of commands in which it takes another client's connection |
| Lifetimes.AttachDecides | internal/spawn/spawn.go:246-292 | an existing session is joined exactly if it is persistent, has clients or is in its grace period, that period is not over, and its container is not known to be gone; then nothing but its row changes, else what is at its key has a new id |
| Lifetimes.CapDecides | internal/spawn/spawn.go:294-303 | where there is no session to join, the attach is refused exactly if a positive limit is reached by the other sessions of the user |
| Lifetimes.NewSession | internal/spawn/spawn.go:350-372 | what is recorded of a session that was created: its owner, name, container name, times and workspace |
| Lifetimes.DetachDecides | internal/spawn/spawn.go:942-981 | only the last client of a mode that is not persistent ends a session or starts its grace period, and which of the two |
| Lifetimes.PassDecides | internal/state/state.go:763-775 | a pass keeps a row exactly if it is persistent or neither its lifetime nor a running grace period has ended before the pass |
| Lifetimes.Elsewhere | internal/spawn/spawn.go:246-388 | no command touches the session of another key; only passes do |
| Lifetimes.PersistentStays | internal/state/state.go:777-780 | over every run a running persistent session keeps its id, container, network and services, through detaches of its own mode, attaches, creates, switches and passes, until it is stopped, removed by force or left by a client of another mode |
| Lifetimes.PassesDecide | internal/cleanup/cleanup.go:39-73 | while no command is about a session it is there exactly if every pass so far has spared it |
| Lifetimes.GraceRunsOut | internal/spawn/spawn.go:973-981 | after the last client leaves at t with grace period g, the session is there exactly as long as no pass has come after t + g or its lifetime |
| Lifetimes.LifetimeRunsOut | internal/cleanup/cleanup.go:57-73 | a session created at t is, left alone, there exactly as long as no pass has come after t plus its lifetime, or for ever if it is persistent |
| Machines.NewMachine | internal/session/workspaces.go:134-178 | a new machine is recorded with its owner and name, the project and, if given, the branch that were asked for |
| Machines.RecordedIsCheckedOut | internal/session/workspaces.go:54-104 | exactly when the recorded branch is the one in the working directory |
| Machines.StaysBound | internal/session/workspaces.go:192-211 | over every run a machine keeps its id, owner, project, branch and mode until it is created anew, switched or removed |
| Machines.AcceptedExactly | internal/session/workspaces.go:192-211 | a create of an existing machine is accepted exactly if it asks for no other project and no other branch, and makes it active |
| Machines.CreateAgain | internal/session/workspaces.go:192-211 | however long after a machine was created, the same request is accepted again, and another project or branch is refused |
| Machines.CreateAfterSwitch | cmd/switch_branch.go:56-117 | after a switch it is the new branch that counts |
| Machines.SwitchedExactly | cmd/switch_branch.go:56-117 | exactly when a switch succeeds, and that the machine then is to be initialized again |
| Machines.RemovedExactly | cmd/rm.go:60-129 | exactly when a removal succeeds, and that the session goes even if the directory does not |
| Machines.RefusedUntilCreated | internal/spawn/spawn.go:94-99 | once on_create has failed fatally, every client with that workspace is refused and changes nothing until the machine is created again or removed |
| Machines.CreateOutcome | internal/session/create.go:78-105 | a create that sets up a new machine and fails leaves no session and no workspace, except after a fatal on_create, when the workspace stays and is preserved |
| Interleaving.CapNeverExceeded | internal/spawn/spawn.go:294-303 | with a positive limit no user ever has more rows than allowed, after every statement of every interleaving with lockless deleters and dying processes |
| Interleaving.GraceAlwaysOk | internal/state/state.go:728-756 | after every statement a row has an expiry exactly if it is in its grace period, and then it has no connections |
| Interleaving.Exclusion | internal/lock/lock.go:21-53 | at most one process of a user is between its lock and its unlock |
| Interleaving.AttachRefined | internal/spawn/spawn.go:246-303 | the atomic attach command changes the rows as its single statements do when nobody interferes |
| Interleaving.DetachRefined | internal/spawn/spawn.go:942-981 | likewise for detaching |
| Interleaving.NextKeeps | internal/spawn/spawn.go:277-292 | the invariant of the rows and what each process may rely on survive every single step |
| Spawn.Session.Provision | internal/spawn/spawn.go:305-388 | creating is all or nothing: if no step fails, a fresh network, services, container and row; else the state before, apart from what could not be removed, and the failure names the first step that failed, by the index of its call |
| Spawn.Session.ResolveProject | internal/spawn/spawn.go:793-886 | network and services, or neither; if both, the overrides have been applied |
| Spawn.StartMain | internal/spawn/spawn.go:309-342 | the main container is created, started and prepared, or everything is given back; the failure names the first of the three calls that failed |
| Spawn.Session.CreateMain | internal/spawn/spawn.go:350-381 | the row records exactly what was created; a refused insert gives everything back |
| Spawn.Session.EnsureContainerWithState | internal/spawn/spawn.go:246-388 | reaps at most the overdue row of this key, deletes a row whose container is known to be gone, then joins, refuses at the cap, or creates; only creating applies the overrides, and the resulting mode is recorded; a failure names the first step that failed, counting calls from the start of this command |
| Spawn.Session.ReconcileUser | internal/spawn/spawn.go:611-630 | tears down the row of this key exactly if it is overdue |
| Spawn.Session.RunHooks | internal/spawn/spawn.go:656-697 | when on_create runs, and what its success, ignored failure and fatal failure record; on_start runs on every attach that gets that far |
| Spawn.Session.CaptureWorkspaceHead | internal/spawn/spawn.go:703-719 | records the head commit only of a workspace with a path and only if git answers |
| Spawn.Session.ApplyUserOverrides | internal/spawn/spawn.go:721-784 | a valid project mode wins over the user's, that over the workspace's; an invalid one counts only for a project whose user has no overrides |
| Spawn.Session.Ensure | internal/spawn/spawn.go:207-224 | a preserved workspace is refused untouched; a fatal hook marks it preserved and tears the session down; the mode is layered exactly when a session is created |
| Spawn.Session.Run | internal/spawn/spawn.go:226-244 | the same for a client that opens a shell |
| Spawn.Session.RunAndCleanup | internal/spawn/spawn.go:984-995 | attaches and detaches, the latter whatever came of the former |
| Spawn.Session.CleanupFailedSession | internal/spawn/spawn.go:888-901 | tears down the row of this key if there is one |
| Spawn.CleanupServicesAndNetwork | internal/spawn/spawn.go:912-919 | gives back all services and the network |
| Spawn.Session.Disconnect | internal/spawn/spawn.go:923-982 | keeps the session while clients remain or it is persistent, else destroys it or starts its grace period |
| Spawn.Session.CompleteAttach | internal/spawn/spawn.go:207-224 | runs the hooks on a session that was created or joined; only a fatal one undoes the attach |
| Spawn.NamesDistinct | internal/spawn/spawn.go:166-171 | two sessions of one user, or of users without a dash, have different container names |
| Spawn.NamesClash | internal/spawn/spawn.go:166-171 | a user's session can have the name of another user's, if that other name has a dash |
| World.UndoneExactly | internal/spawn/spawn.go:329-381 | after a rollback in which no removal failed and nothing was left behind, rows, containers and networks are as before |
| World.ProvisionKeeps | internal/spawn/spawn.go:350-381 | recording a new session keeps the books balanced |
| World.DestroyKeeps | internal/cleanup/cleanup.go:14-37 | tearing a session down keeps the books balanced even if removals fail |
| Books.BalancedExactly | internal/cleanup/cleanup.go:14-37 | balance in one line: what exists is what is recorded, apart from what was given up |
| Books.TearDown | internal/cleanup/cleanup.go:14-37 | removing one footprint by name and ids touches no other and leaves the rest balanced |
| Books.SetUp | internal/spawn/spawn.go:305-381 | adding a fresh footprint to balanced books |
| Services.StartServices | internal/podfile/services.go:14-66 | on success all services run, in order, each under the session's name, a dash and its own; on failure what was started is removed, unless a malformed volume comes later, and then exactly the earlier services are left |
| Services.StopServices | internal/podfile/services.go:68-74 | removes the given containers and nothing else, failures ignored |
| Services.NoLeakExactly | internal/podfile/services.go:27-31 | exactly which lists of services can leave containers behind |
| Services.LeakExample | internal/podfile/services.go:27-31 | two services, the second malformed: the first is left |
| ServiceIds.DecodeJoin | internal/spawn/spawn.go:374 | teardown gets back exactly the recorded ids, in order, exactly if they are non-empty, trimmed and free of commas |
| ServiceIds.EncodingUndone | internal/cleanup/cleanup.go:88-96 | teardown and orphan detection both get back what creation recorded |
| ServiceIds.TrackedIsDecoded | internal/cleanup/cleanup.go:19-29 | for any column, orphan detection spares exactly what teardown would remove, and perhaps the blank |
| ServiceIds.PaddingIgnored | internal/cleanup/cleanup.go:20-25 | blanks, tabs and newlines around an id in the column do not count |
| Cleanup.DestroySession | internal/cleanup/cleanup.go:14-37 | deletes the row whatever fails, removes or gives up exactly what the row refers to, with one call for each |
| Cleanup.ExpireGracePeriods | internal/cleanup/cleanup.go:39-55 | removes exactly the non-persistent rows past their grace expiry and counts each once |
| Cleanup.EnforceMaxLifetimes | internal/cleanup/cleanup.go:57-73 | removes exactly the non-persistent rows past their lifetime and counts each once |
| Cleanup.ReconcileOrphans | internal/cleanup/cleanup.go:75-115 | removes untracked containers only, counts what it removed, and leaves none if nothing fails |
| Cleanup.RunOnce | internal/cleanup/cleanup.go:118-125 | exactly the expired rows are gone; graced counts the rows past their grace period, and graced plus expired is the number of rows removed; if no call after those of the teardowns fails, every remaining container is tracked and, if footprints were intact, the containers are exactly those of the surviving rows, even if removals in the teardowns failed |
| Cleanup.SurvivorsKeepTheirs | internal/cleanup/cleanup.go:118-125 | whatever fails in a pass, surviving rows keep their containers and network |
| Cleanup.NothingUntracked | internal/cleanup/cleanup.go:88-101 | no stray container is left exactly if the containers are exactly those the rows record |
| Cleanup.PassLeavesExactly | internal/cleanup/cleanup.go:118-125 | after a pass that left no stray, even if removals in the teardowns failed, the containers are exactly those of the rows that had not expired |
| Cleanup.PassConserves | internal/cleanup/cleanup.go:118-125 | a pass keeps the books balanced |
| Store.FakeStore.CreateSession | internal/state/fakestore.go:31-46 | inserts only under a free key, with a new id |
| Store.FakeStore.UpdateConnections | internal/state/fakestore.go:59-72 | never below zero; reports a missing row |
| Store.FakeStore.SetGracePeriod | internal/state/state.go:742-748 | status and expiry change together; a missing row is skipped |
| Store.FakeStore.CancelGracePeriod | internal/state/state.go:750-756 | status and expiry change together |
| Store.FakeStore.Query | internal/state/fakestore.go:105-137 | the rows satisfying a condition, each once |
| Runtime.FakeRuntime.RemoveContainer | internal/runtime/docker.go:243-249 | removes what the reference, an id or a name, finds, or gives it up |
| Runtime.FakeRuntime.CreateContainer | internal/runtime/docker.go:69-164 | fails, changing nothing, if scripted to or if the name is taken; else a fresh id |
| Sessions.SetupNamedFlow | internal/session/workspaces.go:185-256 | finds or clones the workspace; refuses a different project or branch and a name in use; a retry makes a preserved workspace active |
| Sessions.SetupEphemeralFlow | internal/session/workspaces.go:258-318 | needs the name to be free of sessions and workspaces, records nothing, and points the template at the clone |
| Sessions.SetUpFlow | internal/session/create.go:54-84 | which set-up goes with which shape of request |
| Sessions.ProvisionTemplate | internal/session/lifecycle.go:53-59 | drives a configured template |
| Sessions.ApplyWorkspaceToTemplate | internal/session/workspaces.go:110-132 | what a workspace decides about a session |
| Sessions.RollbackCreate | internal/session/workspaces.go:326-341 | takes back the workspace row |
| Sessions.Create | internal/session/create.go:29-105 | for requests of any shape: set-up, then provisioning; a new workspace is taken back on any failure but that of a hook |
| Sessions.Shell | cmd/shell.go:48-78 | attaches with the workspace row as it is, or, in server mode, with the template as it is |
| Sessions.End | internal/session/end.go:24-72 | tears the session down, leaves the workspace |
| Sessions.SwitchBranch | cmd/switch_branch.go:56-117 | only on a stopped machine; branch, initialized and head commit change together |
| Sessions.Remove | cmd/rm.go:60-129 | needs a stopped machine or force; session first, workspace row last |
| Migration.Upgrade | internal/state/state.go:157-233 | from any well-shaped database not at version 4, after dying at any statements any number of times, a run completes with one version row, the columns of version 8, non-empty unique ids, and all rows kept; if sessions had no workspace column, each whose key is a workspace's is linked to that workspace's id, no two to the same, the others to none |
| Migration.LinksRight | internal/state/state.go:370-378 | where the links were filled in, they are the non-empty ids of the workspaces of the same key, different for different sessions |
| Migration.Database.Migrate | internal/state/state.go:157-233 | one run, interrupted or not: well-shaped again, nothing lost, complete when done; fails only where the machines table is missing; from version 4 the modes are right when done, and what is left after n statements is known |
| Migration.Database.Advance | internal/state/state.go:166-226 | each version's step reaches the shape of the next version it names and keeps the rows |
| Migration.Database.AddMode | internal/state/state.go:188-206 | exactly what stands after none, one or both of its statements |
| Migration.Database.MigrateV5toV6 | internal/state/state.go:244-280 | rename, ids and links, resumable after every statement |
| Migration.Database.AddWorkspaceIds | internal/state/state.go:322-342 | column, ids and index land together or not at all |
| Migration.Database.AddSessionIds | internal/state/state.go:347-389 | ids and links land together or not at all, and each link is the id of the workspace of the same key |
| Migration.Database.ConsolidateSchemaVersion | internal/state/state.go:547-557 | one version row when done; none if the process dies in between |
| Migration.UpgradeFromFour | internal/state/state.go:188-206 | from version 4 a run completes exactly if the machines table is there, and then the modes are the old ones, those of the sessions, or grace-period, and the links are right |
| Migration.DieOnceFromFour | internal/state/state.go:188-206 | after one death, exactly when the next run completes and exactly when the modes are then right |
| Migration.NeverRecovers | internal/state/state.go:188-206 | once it is gone no number of runs gets past it |
| Migration.DieAfterRename | internal/state/state.go:244-253 | a run from version 4 that dies right after the rename leaves a database that is stuck |
| Migration.StuckExample | internal/state/state.go:244-253 | a concrete database that gets stuck |
| Migration.DieBeforeBackfill | internal/state/state.go:188-206 | a run from version 4 that dies after its ALTER leaves a machine of a persistent session with mode grace-period, though the next run completes |
| Migration.KeptTransitive | internal/state/state.go:157-233 | what one interrupted run keeps and the next keeps is kept |
| Compose.Merge | internal/podfile/merge.go:9-109 | one merge, field by field |
| Chains.ScalarsOfChain | internal/podfile/merge.go:12-33 | image, shell, branch, mount, mode, workspace, port strategy and memory are each what the last level says that says anything |
| Chains.RecordsOfChain | internal/podfile/merge.go:35-49 | dotfiles of the last level that has some, CPUs of the last that asks for more than zero or of the root, the leaf's name, nothing left to extend |
| Chains.PackagesOfChain | internal/podfile/merge.go:54-61 | a package is in exactly if the last level that lists it, removes it or replaces the list lists it |
| Chains.NamesOfMerge | internal/podfile/merge.go:160-196 | which service names are there after a merge: a removal beats an entry exactly where the base has the name |
| Chains.ServicesOfChain | internal/podfile/merge.go:160-196 | where no level is about a service twice, it stands as the last level that is about it has it |
| Chains.UrlsOfMerge | internal/podfile/merge.go:198-241 | which URLs are there after a merge, likewise |
| Chains.ReposOfChain | internal/podfile/merge.go:198-241 | where no level is about a repo twice, it is there exactly if a level since the last that removed it or replaced the list has it, and path and branch are each what the last of these says |
| Compose.OnCreateOfChain | internal/podfile/merge.go:84-93 | on_create of a chain is the non-empty hooks since the last replacing level, joined by newlines |
| Compose.OnStartOfChain | internal/podfile/merge.go:84-93 | the same for on_start |
| Compose.ExtraCommandsOfChain | internal/podfile/merge.go:75-82 | extra commands of a chain are those since the last replacing level, in order |
| Compose.PortsOfChain | internal/podfile/merge.go:105-106 | with at least one merge, exposed ports are the first-occurrence dedupe of all levels |
| Compose.EnvOfChain | internal/podfile/merge.go:68-73 | a variable is what the last level that mentions it says; an empty value unsets it |
| Compose.ConcatIsJoin | internal/podfile/merge.go:243-251 | concatenating a hook is joining one more non-empty line |
| Compose.MergeMaps | internal/podfile/merge.go:142-158 | base and child variables, the child's first, empty ones deleted |
| Lists.MergeStringList | internal/podfile/merge.go:112-140 | the loops compute base without the removed, then additions, each item once |
| Lists.MergedMembers | internal/podfile/merge.go:112-140 | no duplicates; an item is present exactly if it is an addition or an unremoved base item |
| Lists.MergedOrder | internal/podfile/merge.go:112-140 | surviving base items first in base order, then new additions in child order |
| Lists.MergedAgain | internal/podfile/merge.go:112-140 | what a second application of the same child gives |
| Lists.MergedAgainMembers | internal/podfile/merge.go:112-140 | a second application never changes which items are there |
| Lists.MergedIdempotent | internal/podfile/merge.go:112-140 | exactly which children are idempotent on every base |
| Lists.MergedIdempotentDisjoint | internal/podfile/merge.go:112-140 | among them all that remove nothing they add |
| Lists.ReapplyReorders | internal/podfile/merge.go:112-140 | a concrete child whose second application reorders |
| Lists.DedupeInts | internal/podfile/merge.go:300-314 | keeps the first occurrence of every number |
| Lists.DedupeOrder | internal/podfile/merge.go:300-314 | items stand in the order of their first occurrence |
| KeyedMerge.MergeServices | internal/podfile/merge.go:160-196 | the loops compute base entries, replaced or removed in place, then new entries |
| KeyedMerge.MergeRepos | internal/podfile/merge.go:198-241 | the same with field-wise updates |
| KeyedMerge.MergeKeys | internal/podfile/merge.go:160-241 | keys of the result: surviving base keys in base order, then new ones in child order; removal beats replacement |
| KeyedMerge.UniqueKeys | internal/podfile/merge.go:160-241 | exactly when the result's keys are unique |
| KeyedMerge.MergedServicesLaw | internal/podfile/merge.go:160-196 | order, uniqueness, and which record stands for each name |
| KeyedMerge.MergedReposLaw | internal/podfile/merge.go:198-241 | order, uniqueness, and which record stands for each URL |
| Extends.ResolvesByPlace | internal/podfile/resolve.go:26-98 | resolution succeeds exactly on chains that end after at most ten references and in which no file is spelled like a reference that is none; relative paths may repeat |
| Extends.FoldsWhatIsRead | internal/podfile/resolve.go:42-60 | and gives the fold of what was read, root first |
| Extends.NoReturn | internal/podfile/resolve.go:36-40 | a chain that ends never reads a place twice |
| Extends.ComingBack | internal/podfile/resolve.go:36-40 | coming back to a place, however it is spelled, is circular, or too deep as the eleventh reference |
| Extends.YamlIsOnDisk | internal/podfile/resolve.go:84-98 | a reference that ends like a YAML file is looked for on disk, even one that starts with github.com |
| Extends.ClashExample | internal/podfile/resolve.go:241-249 | a chain of three Podfiles that ends and is taken for a circle |
| Resolve.ResolvesExactly | internal/podfile/resolve.go:26-61 | resolution succeeds exactly on chains of at most ten references with distinct keys that all load and parse |
| Resolve.ResolvesToFold | internal/podfile/resolve.go:26-61 | and gives the left fold of Merge from root to leaf |
| Resolve.ResolveExtends | internal/podfile/resolve.go:22-24 | terminates after at most ten loads with the specified outcome |
| Resolve.Resolver.ResolveChain | internal/podfile/resolve.go:26-61 | the recursion with its shared visited map computes the outcome |
| Resolve.CycleIsReported | internal/podfile/resolve.go:36-40 | a reference back into the chain is reported as circular unless the depth limit comes first |
| Resolve.EleventhReference | internal/podfile/resolve.go:31-33 | an eleventh reference is refused whatever it names |
| JsonComments.Strip | internal/podfile/devcontainer.go:119-164 | the index-driven loops refine a byte-at-a-time automaton |
| JsonComments.StripDropsComments | internal/podfile/devcontainer.go:119-164 | however a text is cut into tokens, exactly the comments are dropped and string literals are copied verbatim |
| JsonComments.CommentsInText | internal/podfile/devcontainer.go:139-157 | in characters: what is dropped is from // up to the newline and from /* to */ |
| JsonComments.StringsInText | internal/podfile/devcontainer.go:123-138 | in characters: what stands between double quotes is copied, and a backslash keeps a quote from ending it |
| JsonComments.OthersInText | internal/podfile/devcontainer.go:158-162 | any other character outside strings is copied |
| JsonComments.StripIdentity | internal/podfile/devcontainer.go:119-164 | the identity exactly on texts without a comment outside strings |
| JsonComments.StripIdempotent | internal/podfile/devcontainer.go:119-164 | stripping twice is stripping once, for every byte sequence |
| JsonComments.KeptIsLexed | internal/podfile/devcontainer.go:119-164 | what is left is properly cut and free of comments |
| ListRows.MergeRows | internal/session/list.go:40-94 | one row per listed name, in strictly increasing name order |
| ListRows.ListingUnique | internal/session/list.go:84-93 | the result does not depend on the order in which the map is walked |
| ListRows.ListedNames | internal/session/list.go:58-68 | with registeredOnly the names are exactly the workspaces', otherwise also the sessions' |
| ListRows.RowTells | internal/session/list.go:42-82 | status, branch, image and age of each row, in terms of the workspace and the session of its name |
| ListRows.AgeSpans | internal/cleanup/cleanup.go:145-158 | what each form of an age says about the time that has passed |
| ListRows.BeforeExactly | internal/session/list.go:84-88 | names are in dictionary order |
| ListRows.PreservedWins | internal/session/list.go:69-74 | a preserved workspace is listed as preserved even if a session is left |
| ListRows.OrderMattersExactly | internal/session/list.go:58-83 | exactly when the order of the session rows shows, in status, image or age |
| ListRows.ClashExample | internal/session/list.go:58-82 | two sessions that differ only in age and whose order shows |
| ListRows.DefaultHidden | internal/state/state.go:796-798 | in the order of the store the project `(default)` hides the session without a project |

## Left out

- Docker, git, HTTP, copying and tar building: only whether they succeed; YAML and JSON decoding, canonical marshaling, image tags and builds: a project carries its parsed Podfile and whether its image is available.
- SQL text, WAL mode, file permissions, and errors of store statements other than the insert of a session; BEGIN and COMMIT of a migration count as part of the statements around them.
- The polling loop of the lock: acquiring is one step, and giving up on a cancelled context is a process that does not start.
- The legacy path without a store, the removal of workspace directories, audit records, actors and authorization (always allowed), agent forwarding, terminals, the user set-up script beyond its success.
- Spawn.Session.ApplyUserOverrides: image, CPU, memory, shell, environment and dotfile overrides are not modelled, because no property here depends on them.
- Spawn.Session.RunHooks: dotfiles and repository clones are left out; they are best effort and change nothing that is modelled.
- Runs.Conservation: does not cover containers removed from outside; a row found stale that way is deleted without its services and network.
- Ledger.LedgerBalances: does not cover failed attaches and the detach that follows them (`Ledger.ExtraDetach` does), nor forced stops and removals, lifetimes and vanished containers.
- Interleaving.CapNeverExceeded: the runtime calls between two statements are represented by their answers only.
- Sessions.Create: validation of the user and the actor of a request is left out.
- ListRows.MergeRows: ages are computed on whole nanoseconds, without the rounding of floating point; names are compared by character.
- Migration.Upgrade: versions above 8 are left out, and at versions 1 and 2 session rows are dropped as the source intends.
- Chains.ServicesOfChain: for a service that one level both has and removes, or has twice, only the law of a single merge is stated (`Chains.NamesOfMerge`), because what comes out depends on every level before; likewise for Chains.ReposOfChain.
- Machines.NewMachine: the mode of a clone is an answer from outside, so the layering of project and user modes at that point is not modelled.
- Extends.ResolvesByPlace: joining a directory and a relative path is an arbitrary function, so nothing is said about which spellings of an absolute path are the same file.
- Compose.Merge: nil and empty slices and maps are not told apart; aliasing of cloned slices is not modelled.
- Doctor, update, metrics, the other commands, memory parsing, name sanitizing, port scanning and template detection would only add easy members.
