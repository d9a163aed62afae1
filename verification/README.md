# Verified model of the file-system machine, its integrity refinement and the trace mediator

The repository checks a kernel against an Event-B model. `src/DAC.bm` is a machine with 32 variables
and some 30 events: files, folders and their names, ownership, permission bits and ACLs, processes and
file descriptors. `src/IMA.bm` refines it with content and metadata hashes, an immutable attribute and
two appraisal modes. A mediator written in Python (`mediator/`, `testing/spec_impl.py`) replays a
recorded trace of system calls, keeps dictionaries that shadow the machine, and turns every call into
events that the machine must accept.

This project states all three parts in Dafny and proves what each promises. `dafny verify
dfyconfig.toml` checks the whole of it.

## How the model is laid out

| part | files |
|---|---|
| carrier sets, state, declared invariants | `Context`, `DacState` |
| the access decision | `Access` |
| the events: guards and parallel assignments | `DacEvents`, `Ima` |
| every event keeps every invariant | `TreeInvariants`, `TableInvariants`, `ProcessTree`, `DacSafety` |
| walks, names, process chains, reachable states | `TreePaths`, `Reachable` |
| what one event changes | `DacSteps`, `SimFacts`, `Permissions`, `Owners` |
| safety over whole runs of the refinement | `ImaRuns`, `ImmutableMeta` |
| open against openat | `Openat` |
| the mediator's dictionaries and the translator | `PosixPath`, `Mediator`, `FakeHash`, `Translator` |
| snapshot, setup and the replay loop | `Snapshot`, `Setup`, `Replay` |
| the mediator shadows the machine | `Simulation`, `Shadowing`, `Shadows`, `TraceRuns`, `Protocol` |
| modes, owners and link counts along replays | `ModeRuns`, `OwnerRuns`, `LinkCounts` |
| descriptors along replays, and the arguments built from them | `Sharing`, `Builder` |
| concrete inputs | `Witnesses` |

The events of the machines are parallel assignments to values, so they are functions on a state value
with a guard each; the state machine is the relation `ImaRuns.IsRun` over sequences of events. The
Python objects that change in place are classes whose methods are proved against functions on the
value of their fields (`Mediator.MediatorState`, `Snapshot.SnapshotBuilder`, `Replay.Replayer`).

Functions of the machine that are total on the same set (DACPermissions, FileUser, FileGroup and
FileXattrs on Files; FDFlags, FDFile and FDNumber on FDs; the Proc functions on Procs) are one map to a
record. The total relation FileParents is a set of (file, parent, name) triples in which every file but
ROOT occurs. The limits MAX_FILES, PROC_FILE_LIMIT and FILE_LIMIT are constants without a value.

## What comes out

* The declared invariants are inductive, but they do not make the hierarchy a tree: they hold of a state
  with two folders that contain each other and are cut off from ROOT, and `any_transition` leads there from
  the initial state (`Reachable.AnyTransitionAdmitsCycle`). What is missing is that no folder is its own cached
  ancestor; every event but `any_transition` keeps that as well, and it is equivalent to every folder
  walking up to ROOT.
* `any_transition` may install any state that satisfies the declared invariants. It keeps those, and it
  is left out of the runs over which the strengthened properties are proved, except in the one form the
  mediator uses (`force_set_ima_evm_hash`).
* `fchmod`, `fchown` and `link` have no guard on immutability (`src/IMA.bm:143-151`, `:175-183`,
  `:214-215`). The immutability theorem therefore speaks of names that are kept, extended attributes and
  content, and allows new names through `link`. Mode and owner stay exactly if no `fchmod`, `fchown` or
  `set_acl` rewrites them (`ImmutableMeta`), and a run in which both change is
  `Witnesses.ImmutableIsRewritten`.
* `close` on a descriptor that another process holds too leaves ProcFDs as it is, and `exit` may close
  fewer descriptors than the process holds (`src/DAC.bm:1534`, `src/DAC.bm:1563-1567`). Nothing stronger
  is claimed of the machine.
* `TraceTranslator.chown` computes the fake hash from the previous owner when an argument is -1, but
  stores the -1 (`mediator/translator.py:329-353`): the stored fake hash stays current exactly if the
  arguments, as stored, are what the hash was computed from.
* On a fake hash, the guard of the chown family holds exactly if owner or group change or the permissions
  stay (`ModeRuns.ChownHashMeetsGuardIff`). A chown to the same owner that clears a set-id bit violates it,
  although DAC accepts it (`Witnesses.ChownToSameOwnerIsRefused`). This supposes that the stored owner is
  the file's, which along a replay is so throughout exactly if every creation carries the uid of the
  process that creates (`OwnerRuns.OwnersThroughoutIff`): the machine takes the owner from the process.
* `do_remove` forgets the hashes of an inode even if other names remain (`mediator/state.py:111-118`).
  Among the replays that the machine accepts, the mediator shadows the machine exactly where every unlink
  is of an inode with one link, nothing is created at `/`, and in FIX mode nothing is closed that has no
  path, and nothing lost in an exit that was not measured as it is (`TraceRuns.ShadowsThroughoutIff`). In
  the protocol of the replay the FIX conditions never matter (`Protocol.ProtocolShadowsIff`). Creating a
  file, linking it and unlinking its first name is an accepted replay that fails
  (`Witnesses.UnlinkingOneOfTwoNamesParts`).
* `do_remove` does not count down st_nlink either. As long as the mediator shadows the machine, st_nlink is
  the number of names of the file, and what `unlink` sends meets the guards on it
  (`LinkCounts.UnlinkFilesMeetGuard`); after such an unlink the next one is refused (the same witness).
* `close` and `exit` decide by descriptor numbers, across processes, which descriptors are closed for good
  (`mediator/translator.py:478`); the machine asks who holds the descriptor. What the mediator has open
  under a pid, the process of that pid holds, and without fork nobody else: so the close meets the guards
  exactly if no other process has the same number open (`Sharing.ReplayedCloseFdsIff`), and with the one
  login of a replay it always does (`Sharing.ReplayedCloseMeetsGuard`).
* `translate_fd` takes the pair (0, 0) for AT_FDCWD, but `openat` passes (pid, -100). That is the number of
  no open descriptor, so at every point of every accepted replay the machine refuses an `openat` relative
  to AT_FDCWD (`Builder.RelativeOpenIsRefused`).
* `translate_file_flags` gives O_DIRECTORY with O_TMPFILE, and open_exists wants O_RDONLY for O_DIRECTORY:
  the opening of a temporary file in an existing folder is always refused (`Builder.TmpfileIsRefused`).
* `add_file` and `add_dir` do not terminate on paths of the form `//...`, because `dirname` never reaches
  `/` on them.

## Model

| member | source | states |
|---|---|---|
| Access.SpellingsAgree | src/DAC.bm:214-239 | the two ways in which guards write the caller's groups (a filtered ran(UserGroups), and the image of the user) are the same set |
| Access.SixWayIsFirstMatch | src/DAC.bm:214-239 | for every non-empty request, in every state with ACL1-4, the six-way disjunction of the guards equals the ordered first-match algorithm with the empty-mask short cut, for both spellings of the groups |
| Access.BranchesExclusive | src/DAC.bm:214-239 | no two of the six branches hold together |
| Access.GrantsAreMonotone | src/DAC.bm:214-239 | a granted request stays granted when it asks for less |
| Access.SameRights | src/DAC.bm:313-338 | open_exists, which spells the groups differently in different guards, gives every process the same rights either way |
| DacSafety.InitialIsStrong | src/DAC.bm:145-180 | INITIALISATION satisfies the whole declared invariant block and the strengthened invariants |
| DacSafety.EveryEventKeepsInvariants | src/DAC.bm:38-142 | every event, any_transition included, keeps the whole declared invariant block: typing, PathToRoot1-4, FileParents1, ACL1-4, descriptor limits, ProcFDs3, ProcEXE1, ProcCwd1 |
| DacSafety.EveryEventKeepsStrength | src/DAC.bm:181-1954 | every event but any_transition also keeps: unique (parent, name) pairs, no folder above itself, one access mode per descriptor, distinct descriptor numbers per process, every process chain reaching INIT |
| DacSafety.FileEventKeeps | src/DAC.bm:181-760 | the events that create, open, name and remove files keep declared and strengthened invariants |
| DacSafety.AttrEventKeeps | src/DAC.bm:761-1011 | the chmod and chown families, setxattr and set_acl keep declared and strengthened invariants |
| DacSafety.ProcEventKeeps | src/DAC.bm:1433-1572 | the events of processes and descriptors keep declared and strengthened invariants |
| TreeInvariants.AddFolderKeeps | src/DAC.bm:677-760 | mkdir's assignment to Files, Folders, FileParents and PathToRoot keeps the cached index exact and acyclic |
| TreeInvariants.AddNameKeeps | src/DAC.bm:1233-1352 | link's new pair keeps the tree invariants and the uniqueness of names |
| TreeInvariants.RemoveNameKeeps | src/DAC.bm:1573-1653 | unlink keeps the tree invariants: a file leaves Files only with its last name |
| TreeInvariants.RemoveFolderKeeps | src/DAC.bm:1654-1731 | rmdir of an empty folder keeps the cached index exact: the folder was nobody's ancestor |
| TableInvariants.ChmodAttrsKeeps | src/DAC.bm:761-806 | the split assignment to MaskACL or GroupObjACL keeps ACL1-4 |
| TableInvariants.OpenDescKeeps | src/DAC.bm:196-208 | a fresh descriptor keeps the limits, the distinct numbers of its process and one access mode per descriptor |
| TableInvariants.ForkDescsKeeps | src/DAC.bm:1732-1751 | the child's copies keep the limits per process and in total, and distinct numbers |
| TreePaths.CachedIndexIsAncestorSet | src/DAC.bm:105-116 | from every folder there is exactly one walk along FileParents; it reaches ROOT in card(PathToRoot) steps, visits exactly PathToRoot and repeats no folder |
| TreePaths.RootedIffEveryFolderWalks | src/DAC.bm:105-116 | under the declared invariants, every folder walks up to ROOT if and only if no folder is its own cached ancestor |
| TreePaths.DeclaredInvariantsAdmitCycle | src/DAC.bm:109-116 | a concrete hierarchy with a detached cycle of two folders satisfies all declared tree invariants (part of Reachable.AnyTransitionAdmitsCycle) |
| TreePaths.ResolutionIsFunction | src/DAC.bm:60 | with unique (parent, name) pairs, one path of names leads to at most one file |
| TreePaths.UniqueNamesIffFunctional | src/DAC.bm:198 | resolution from ROOT is a function exactly if no two files share a (parent, name) pair |
| TreePaths.FolderHasOnePath | src/DAC.bm:131-132 | every folder has exactly one path of names, and resolving it returns that folder |
| ProcessTree.ChainIsOnly | src/DAC.bm:101-102 | a process chain to INIT is unique and repeats no process |
| ProcessTree.ExitKeepsForest | src/DAC.bm:1528-1552 | exit with reparenting to INIT keeps every chain ending in INIT |
| ProcessTree.ForkKeepsForest | src/DAC.bm:1732-1750 | fork keeps every chain ending in INIT |
| ProcessTree.LoginKeepsForest | src/DAC.bm:1776-1803 | login keeps every chain ending in INIT |
| Reachable.ReachableIndex | src/DAC.bm:105-116 | in every reachable state, walking up from a folder visits exactly its PathToRoot, in that many steps, without repetition |
| Reachable.ReachableNames | src/DAC.bm:60 | in every reachable state every folder walks to ROOT and has one name path, and name resolution is a function |
| Reachable.ReachableProcesses | src/DAC.bm:101-102 | in every reachable state every process has exactly one chain to INIT, without a cycle |
| Reachable.ReachableDescriptors | src/DAC.bm:203-208 | in every reachable state descriptor numbers are distinct within a process and each descriptor has exactly one access mode |
| Reachable.AnyTransitionAdmitsCycle | src/DAC.bm:1830-1954 | a whole state with two folders cut off from ROOT satisfies every declared invariant, any_transition leads to it from INITIALISATION, and the strengthened invariants fail there |
| DacSteps.EveryEventSteps | src/DAC.bm:181-1829 | what any event does to Files and FileParents; only setxattr changes extended attributes of existing files; open descriptors keep file, flags and number |
| Permissions.EveryEventPerms | src/DAC.bm:181-1829 | permissions change only by creation, the chmod and chown families and set_acl, to the value the event carries |
| Owners.EveryEventOwners | src/DAC.bm:181-1829 | owner and group change only by creation, to those of the process and the event, and by the chown family, to those of the event |
| SimFacts.EveryEventShadow | src/DAC.bm:181-1829 | new names were free, removed ones were there (a folder empty, a file with its last name); only close, exit and execve close descriptors, those they name |
| Ima.InitialImaHolds | src/IMA.bm:64-73 | the refined INITIALISATION satisfies all invariants |
| Ima.EveryImaEventKeeps | src/IMA.bm:46-60 | every event of the refinement keeps its invariants and those of the abstract machine; any_transition aside, the strengthened ones too |
| Ima.ForceSetIsAnyTransition | mediator/builder.py:525-548 | the state with two hashes changed that the mediator passes to any_transition meets its guard |
| ImaRuns.RunKeepsInvariants | src/IMA.bm:46-60 | all declared and strengthened invariants hold in every state of a run that starts with them |
| ImaRuns.ReachableStatesAreGood | src/IMA.bm:64-73 | in particular in every state of a run from INITIALISATION |
| ImaRuns.EnforceFreezesContent | src/IMA.bm:242-270 | while IMAMode stays ENFORCE, an existing file that nobody has open for writing keeps ContentHash and IMAHash and gets no writer |
| ImaRuns.AdmittedFilesMatchBaseline | src/IMA.bm:88-117 | in an ENFORCE-only segment a file that open_exists, openat_exists or execve admits had an IMA hash at the start, has existed throughout, was not created in the segment, and its content equals that hash |
| ImaRuns.ImmutableStaysSo | src/IMA.bm:362-370 | while one mode is ENFORCE, an immutable file stays immutable and existing, loses no name and no entry, keeps its extended attributes and (without a writer) its content; new entries come from link only |
| ImmutableMeta.ImmutablePermsStayIff | src/IMA.bm:132-194 | while one mode is ENFORCE, the permissions of an immutable file stay throughout exactly if no fchmod or fchown of a descriptor of it and no set_acl carries others |
| ImmutableMeta.ImmutableOwnerStaysIff | src/IMA.bm:164-194 | ... and its owner and group exactly if no fchown of a descriptor of it carries others |
| Witnesses.ImmutableIsRewritten | src/IMA.bm:143-183 | a run from INITIALISATION in which, under ENFORCE, fchmod changes the mode of an immutable file and then fchown its group |
| ImaRuns.TamperedFilesStayLocked | src/IMA.bm:132-194 | with both modes ENFORCE, after a chmod- or chown-family call that changes a file whose EVM hash matched, the file is not opened or run again until another such call touches it |
| ImaRuns.OpenDescriptorIsStable | src/DAC.bm:196-203 | between two states of a run a descriptor that is open from one to the other keeps its file, flags and number; a file that has left Files does not come back meanwhile |
| Openat.OpenIsOpenatPlusSearch | src/DAC.bm:450-489 | open is enabled exactly if openat with AT_FDCWD is and the caller may search everything above its working directory |
| Openat.AfterChdirSame | src/DAC.bm:1012-1046 | right after a successful chdir, open and openat with AT_FDCWD are enabled alike in the refinement, and lead to the same state, hashes included |
| Openat.SameEffect | src/DAC.bm:534-676 | where open is enabled, both lead to the same state, hashes included |
| PosixPath.DirnameShortens | testing/initialiser.py:73-78 | dirname of an absolute path is an absolute prefix, with two leading slashes exactly if the path has them, and the path itself exactly if that is nothing but slashes |
| PosixPath.RootIsReachedIff | testing/initialiser.py:73-78 | following dirname from an absolute path gets to / exactly if the path does not begin with two slashes, so exactly then the loop ends |
| Snapshot.SnapshotBuilder.Add | testing/initialiser.py:67-91 | add_file and add_dir raise for relative and repeated paths without a change, and otherwise add the path and its missing folders |
| Snapshot.SnapshotBuilder.AddMissingParents | testing/initialiser.py:86-91 | the dirname loop appends exactly the missing folders of the path, in order |
| Snapshot.SnapshotBuilder.SortDirs | testing/initialiser.py:107 | the folder list is sorted in place |
| Snapshot.CallKeepsWellBuilt | testing/initialiser.py:67-91 | every call keeps the lists free of duplicates and closed under dirname, and adds only the path and its folders |
| Snapshot.BuiltListsAreWell | testing/initialiser.py:67-91 | so do all sequences of calls |
| Snapshot.SortLexSorts | testing/initialiser.py:107 | sorting orders the list and keeps its elements |
| Snapshot.SortingPutsParentsFirst | testing/initialiser.py:107 | after the sort every folder stands behind its parent |
| Setup.SetupSucceeds | testing/spec_impl.py:483-494 | entering a sorted snapshot never fails a parent lookup, and leaves exactly its paths; in FIX mode every inode ends with integrity hashes equal to its real ones |
| Setup.ReplaySetupWorks | testing/spec_impl.py:471-506 | the same for the lists left by any calls of the builder, from the initial mediator |
| Replay.Replayer.SeekMatchingFput | testing/spec_impl.py:552-563 | the look-ahead finds the first later __fput with the same dev and ino, or reports that there is none, and loses no queued event |
| Replay.Replayer.Run | testing/spec_impl.py:525-544 | the loop terminates; its log and its outcome are those of the recursive specification of the replay |
| Replay.HandledInOrder | testing/spec_impl.py:525-563 | the handler gets the trace's system calls once each and in trace order, each close with the hashes of its first later __fput; all of them exactly if the replay finishes |
| Replay.FailsAtUnmatchedClose | testing/spec_impl.py:552-563 | if the replay fails, the next call would have been a close without such an __fput |
| Replay.FinishesIffAllMatched | testing/spec_impl.py:525-563 | the replay finishes exactly if every close has a later __fput of its inode |
| Mediator.MediatorState.constructor | mediator/state.py:33-41 | the initial dictionaries |
| Mediator.MediatorState.Chdir | mediator/state.py:49-52 | ValueError for a relative path, else the new working directory |
| Mediator.MediatorState.Open | mediator/state.py:54-57 | ValueError for a descriptor that is open, else the new descriptor |
| Mediator.MediatorState.Close | mediator/state.py:59-67 | the descriptor goes; so do the stats of an inode nothing names; the hashes are stored, as integrity hashes too if both modes are FIX |
| Mediator.MediatorState.Exit | mediator/state.py:69-74 | the loop of closes, in any order, equals removing all descriptors of the process at once; if a close raises, the state is that of the closes before it and of the failing one |
| Mediator.MediatorState.Creat | mediator/state.py:76-88 | do_creat and do_mkdir: path, stats with one link, hashes |
| Mediator.MediatorState.SetMeta | mediator/state.py:177-182 | do_set_meta_hash, with its ValueError |
| Mediator.MediatorState.Chown | mediator/state.py:90-93 | owner and group as given, and the new metadata hash |
| Mediator.MediatorState.Chmod | mediator/state.py:95-97 | mode as given, and the new metadata hash |
| Mediator.MediatorState.Link | mediator/state.py:99-109 | the four ValueErrors and two KeyErrors, else one more link and the new path |
| Mediator.MediatorState.Remove | mediator/state.py:111-118 | the path goes; so do the stats of an inode nothing names, and both hashes in any case; a missing real hash raises after the path is gone |
| Mediator.ExitFreesExactly | mediator/state.py:69-74 | exit removes exactly the descriptors of the process and frees exactly the inodes nothing else names |
| Mediator.CloseKeepsStats | mediator/state.py:59-67 | close keeps the keys of stats equal to the named inodes other than the root, and succeeds exactly on open descriptors |
| Mediator.NewFileKeepsStatsIff | mediator/state.py:76-88 | a new path keeps that property exactly if it neither renames the root nor takes the last name from another inode |
| Mediator.LinkKeepsStats | mediator/state.py:99-109 | link keeps that property |
| Mediator.RemoveKeepsStats | mediator/state.py:111-118 | remove keeps that property, and succeeds exactly for known paths with stored hashes |
| FakeHash.FakeIsInjective | mediator/translator.py:12-15 | two fake hashes are equal exactly if uid, gid and S_IMODE are |
| FakeHash.TranslateModeIsInjective | mediator/builder.py:100-105 | two modes have the same permission set exactly if their twelve low bits agree |
| FakeHash.FakeHashFollowsPerms | mediator/translator.py:12-15 | of one owner and group, two fake hashes are equal exactly if the permission sets of the modes are (the encoding only; the guard is ModeRuns.ChmodHashMeetsGuard) |
| FakeHash.FakeHashFollowsOwnerIff | mediator/translator.py:12-15 | when equality of two fake hashes says the same as equality of owner and group (the encoding only; the guard is ModeRuns.ChownHashMeetsGuardIff) |
| Translator.CallKeepsFakes | mediator/translator.py:281-380 | every successful call without -1 arguments and with genuine hashes keeps each stored fake hash the encoding of the stored owner, group and mode |
| Translator.ChownKeepsFakesIff | mediator/translator.py:329-353 | chown does so exactly if the arguments as stored are what the hash was computed from |
| Witnesses.ChownMinusOneBreaksFake | mediator/translator.py:353 | after creat, a concrete chown with -1 succeeds and leaves a stale fake hash |
| Translator.RunsKeepFakes | mediator/translator.py:281-380 | in every sequence of such calls the stored fake hashes are current |
| Translator.ChmodGuardFollows | mediator/translator.py:281-303 | where the stored hash is fake, the hash of the next chmod equals it exactly if the permissions do |
| Translator.CallKeepsStats | mediator/translator.py:171-528 | a call that names fresh paths for new files and never the root keeps the keys of stats equal to the named inodes other than the root, also when it raises; for whole replays see Protocol.StatsExactThroughout |
| Protocol.StatsExactThroughout | mediator/state.py:54-118 | throughout every replay that the machine accepts and whose calls are covered, the keys of stats are exactly the inodes, the root aside, that a path or a descriptor names, so that exit never fails |
| LinkCounts.LinkCountsThroughout | mediator/state.py:99-118 | throughout such a replay st_nlink of every tracked file is the number of its names in FileParents |
| LinkCounts.UnlinkFilesMeetGuard | src/DAC.bm:1586-1587 | so the files that unlink gives up meet grd6 and grd7, for every path but those of the root, at every point of such a replay |
| Shadowing.CreationFollows | mediator/builder.py:160-178 | after an accepted creation the mediator's new path, hashes and descriptor are those of the machine |
| Shadowing.CloseFollowsIff | mediator/translator.py:469-491 | after an accepted close the two sides agree exactly if, in FIX mode, the inode still has a path |
| Shadowing.ExitFollowsIff | mediator/translator.py:493-502 | after an accepted exit the two sides agree exactly if, in FIX mode, every closed inode but the root has a path and integrity hashes equal to its real ones |
| Shadows.UnlinkFollowsIff | mediator/translator.py:504-515 | after an accepted unlink the two sides agree exactly if the inode has one link |
| Shadows.OneFollowsIff | mediator/translator.py:171-528 | every call that emits one event, if the machine accepts it, keeps the mediator shadowing the machine exactly if a condition on the mediator's tables holds before the call |
| TraceRuns.FolderTurn | mediator/translator.py:43-62 | so do the four events of an initial folder |
| TraceRuns.FileTurn | mediator/translator.py:75-103 | so do the four events of an initial file, although the mediator records the metadata only at the close |
| TraceRuns.TurnKeepsSimIff | mediator/translator.py:43-528 | the same for every turn of a trace, the four events of an initial file or folder included |
| TraceRuns.MediatorShadowsMachine | mediator/state.py:59-118 | in every setup and replay that the machine accepts and whose calls are covered, paths are names, every tracked file has a path, descriptors are open on the same files, and real and integrity hashes are ContentHash/MetaHash and IMAHash/EVMHash of every tracked file but ROOT |
| TraceRuns.ShadowsThroughoutIff | mediator/state.py:59-118 | among the replays that the machine accepts, the mediator shadows the machine throughout exactly in those whose calls are all covered |
| Protocol.ProtocolShadowsIff | testing/spec_impl.py:471-544 | in a replay that is in FIX only around the setup, the mediator shadows the machine throughout exactly if nothing is created at / and every unlink is of an inode with one link |
| Witnesses.UnlinkingOneOfTwoNamesParts | mediator/state.py:111-118 | a replay of creat, link and unlink of the first name, accepted by the machine, after which the mediator no longer shadows it and the unlink of the second name, as it is sent, is refused |
| TraceRuns.CloseIsAcceptedIff | src/IMA.bm:249-260 | the close that is sent meets grd11 and grd13 always, and grd10-15 together exactly under a condition on the stored and the new hashes, on whether the inode has a path, and on whether the descriptor is read-only |
| TraceRuns.CachedCloseIsAcceptedIff | mediator/translator.py:473-491 | a close with cached hashes meets grd10-15 in all modes but FIX, and in FIX exactly if the stored integrity and real hashes agree |
| TraceRuns.AppraisalIsVisible | src/IMA.bm:90-91 | the mediator's tables tell exactly which files the appraisal guard admits |
| TraceRuns.ReplayedClosesMeetGuards | src/IMA.bm:254-260 | at any point of such a replay the next close carries the machine's old hashes, and with cached hashes meets all guards outside FIX |
| Sharing.ReplayHolderKnown | mediator/state.py:54-74 | in every replay that the machine accepts, what the mediator has open under a pid is held by the process of that pid |
| Sharing.ReplayUnshared | src/DAC.bm:1732-1751 | the translator emits no fork, so in no accepted replay do two processes hold one descriptor |
| Sharing.CloseFdsMeetGuardIff | src/DAC.bm:1554-1567 | the close of a descriptor held by its process meets all guards exactly if "no other process has this number open" and "no other process holds this descriptor" say the same |
| Sharing.ReplayedCloseFdsIff | mediator/translator.py:478 | hence in every accepted replay the close meets the guards of the machine exactly if no other process has a descriptor of the same number open |
| Sharing.ReplayedCloseMeetsGuard | testing/spec_impl.py:508-522 | with one login, and nothing opened by process 0, every close meets them and gives up exactly its descriptor |
| Sharing.ReplayedExitMeetsGuardIff | src/DAC.bm:1533-1535 | what exit gives up meets grd2 and grd3 in every accepted replay: exit is accepted exactly if the process is there and is not INIT |
| Builder.FlagsHaveOneMode | mediator/builder.py:107-127 | the flags that are translated hold exactly one access mode, O_RDWR before O_WRONLY before O_RDONLY |
| Builder.CreateFlagsIff | src/DAC.bm:450-458 | grd17 to grd21 of openat_create on the bits of the translated word |
| Builder.TmpfileIsRefused | src/DAC.bm:306-312 | a word with O_TMPFILE and a writing mode, without O_PATH, meets the guards of open_exists for no file |
| Builder.RelativeOpenIsRefused | mediator/builder.py:130-133 | at every point of every accepted replay openat relative to AT_FDCWD is refused, whatever its other arguments |
| Builder.ReplayedDirfdMeetsGuardIff | src/DAC.bm:445-447 | from an open descriptor openat meets grd11 to grd13 exactly if the directory is still there; for descriptor 0 of process 0, which stands for AT_FDCWD, if it is also the working directory |
| ModeRuns.ModesAndFakesAreCurrent | mediator/translator.py:281-380 | in every such replay without -1 arguments the stored modes are the machine's permissions and the stored fake hashes are current |
| ModeRuns.ChmodHashMeetsGuard | src/IMA.bm:132-151 | at any point of such a replay, for an existing file with a fake stored hash, the hash that chmod or fchmod sends meets grd10 of chmod and grd9 of fchmod |
| ModeRuns.ChownHashMeetsGuardIff | src/IMA.bm:164-183 | for an existing file with a fake stored hash and the stored owner and group, the hash that chown or fchown sends meets grd14 of chown and grd13 of fchown exactly if owner or group change or the permissions stay |
| OwnerRuns.OwnersThroughoutIff | mediator/translator.py:179-355 | in a replay without -1 arguments that emits owners and groups as the translator does, the stored ones are the machine's throughout, for every file but ROOT and symbolic links, exactly if every creation carries the uid of the process that creates |
| OwnerRuns.ReplayedChownGuardIff | src/IMA.bm:164-183 | at any point of such a replay, for every existing file with a fake stored hash, chown and fchown meet that guard exactly if owner or group change or the permissions stay |
| Witnesses.ChownToSameOwnerIsRefused | src/IMA.bm:170 | after creat with mode 04755 by root, a chown to root that DAC accepts sends a hash that violates the guard |

## Left out

- any_transition appears in the invariant theorem for arbitrary targets; the run theorems and the strengthened invariants exclude it, except for force_set_ima_evm_hash.
- getdents, getxattr, umask, change_capabilities, create_user and create_group are events of the run relation without properties of their own.
- Symbolic links are created and removed, but paths through them are not resolved: the machine does not do it either.
- argv, envp, capabilities and default ACLs are carried as far as the machine carries them; no property mentions them.
- ProtectedHardlinks.bm and the *_EXT machines: only `creat` is taken from them, as another name of open_create.
- TraceRuns.MediatorShadowsMachine: says nothing about the hashes of ROOT, which the mediator does not set up, nor about the symbolic links, and fixes only those event parameters that the relation depends on; it holds for all values of the others.
- OwnerRuns.ReplayedChownGuardIff: asks that creations carry the uid of the calling process; the translator does not emit an owner, so acceptance does not imply it, and OwnerRuns.OwnersThroughoutIff says that nothing less will do.
- Mediator.MediatorState.Exit: Python goes through the descriptors in the order of the dictionary; the method takes them in any order.
- Setup.ReplaySetupWorks: groups, users, extended attributes, ACLs, the immutable flags and the final switch to ENFORCE do not touch the dictionaries it is about and are left out of the sequence.
- Failing calls (retval < 0) add events that the machine must reject and leave the dictionaries alone; they are not modelled.
- get_path takes the oldest path of an inode and may raise StopIteration, which ends the replay loop as if the trace were over; the model takes any path of the inode, and the replay loop a handler that never raises.
- normalize and the join of a relative path with a working directory are done before a call of the model; the paths there are absolute.
- The files, users, groups and descriptors that the translator invents for numbers are datatype values built from those numbers, so different numbers are different by construction; descriptor 0 of process 0 is an ordinary descriptor, except as the starting directory of openat (Builder.TranslateFd).
- The bits of the open flags are those of Linux on x86; Python's os module, which defines them, is not part of this model.
- list.sort is modelled by an insertion sort with the same result; JSON, command output and the containers around the replay are not modelled.
- Kernel probes (monitoring/), test-program generation (testing/kernel_program_maker.py, testgen/) and the anis package are not part of this model.
- Witnesses.UnlinkingOneOfTwoNamesParts, Witnesses.ChownToSameOwnerIsRefused and Witnesses.ImmutableIsRewritten assume that MAX_FILES leaves room for a third file and that INIT_NAME is none of the two names used; the contexts leave both open.
