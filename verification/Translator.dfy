/** TraceTranslator of mediator/translator.py, as far as it changes the mediator's dictionaries: the
    successful calls of a trace, and the calls that replay the initial snapshot. */
module Translator {
  import opened Context
  import opened PosixPath
  import opened Mediator
  import opened FakeHash

  /** A successful call. Paths are absolute: normalize, or join with the folder of openat, is done. */
  datatype Call =
    | Open(path: string, pid: int, fd: int, file: Ino, uid: int, gid: int, perms: int)     // open, openat
    | Creat(path: string, pid: int, fd: int, file: Ino, uid: int, gid: int, perms: int)
    | Mkdir(path: string, file: Ino, uid: int, gid: int, perms: int)
    | Chmod(path: string, perms: int, given: Option<Hash>)
    | Fchmod(pid: int, fd: int, perms: int, given: Option<Hash>)
    | Chown(path: string, owner: int, group: int, perms: int, given: Option<Hash>)
    | Fchown(pid: int, fd: int, owner: int, group: int, perms: int, given: Option<Hash>)
    | Link(path: string, newPath: string)
    | Close(pid: int, fd: int, content: Option<Hash>, given: Option<Hash>)
    | Exit(pid: int)
    | Unlink(path: string)
    | Rmdir(path: string)
    | Chdir(pid: int, path: string)
    // the initial snapshot
    | InitFolder(path: string, file: Ino, uid: int, gid: int, perms: int)
    | InitFile(path: string, file: Ino, uid: int, gid: int, perms: int, contentHash: Hash, metaHash: Hash)
    | SetModes(mode: IntegrityMode)

  const MODE_0777: int := 511

  /** The hash that the monitor gave, or else the stored one, or a fresh fake one in place of a fake. */
  function NewMetaHash(m: MState, file: Ino, fake: Hash, given: Option<Hash>): Hash {
    if given.Some? && given.value != "" then given.value
    else
      var stored := m.RealOf(file).meta;
      if stored == "" || IsHashFake(stored) then fake else stored
  }

  function ChmodHash(m: MState, file: Ino, perms: int, given: Option<Hash>): Hash
    requires file in m.stats
  {
    NewMetaHash(m, file, Fake(m.stats[file].uid, m.stats[file].gid, perms), given)
  }

  /** chown keeps what an argument of -1 stands for. */
  function NewUid(m: MState, file: Ino, owner: int): int
    requires file in m.stats
  {
    if owner != -1 then owner else m.stats[file].uid
  }

  function NewGid(m: MState, file: Ino, group: int): int
    requires file in m.stats
  {
    if group != -1 then group else m.stats[file].gid
  }

  function ChownHash(m: MState, file: Ino, owner: int, group: int, perms: int, given: Option<Hash>): Hash
    requires file in m.stats
  {
    NewMetaHash(m, file, Fake(NewUid(m, file, owner), NewGid(m, file, group), perms), given)
  }

  function ChmodFile(m: MState, file: Ino, perms: int, given: Option<Hash>): Result {
    if file !in m.stats then Result(m, KeyError)
    else DoChmod(m, file, perms, ChmodHash(m, file, perms, given))
  }

  /** The arguments are stored as they came, -1 included. */
  function ChownFile(m: MState, file: Ino, owner: int, group: int, perms: int, given: Option<Hash>): Result {
    if file !in m.stats then Result(m, KeyError)
    else
      var hash := ChownHash(m, file, owner, group, perms, given);
      var r := DoChown(m, file, owner, group, hash);
      if r.status != Ok then r else DoChmod(r.m, file, perms, hash)
  }

  function CreateAndOpen(m: MState, path: string, fd: ProcFD, file: Ino, uid: int, gid: int, perms: int): Result {
    var r := NewFile(m, path, file, uid, gid, perms, RegularFile, FileHash("", Fake(uid, gid, perms)));
    if r.status != Ok then r else DoOpen(r.m, fd, file)
  }

  /** The hashes of a close: those of the __fput, or the stored ones where it has none. */
  function CloseHashes(m: MState, file: Ino, content: Option<Hash>, given: Option<Hash>): FileHash {
    FileHash(if content.Some? && content.value != "" then content.value else m.RealOf(file).content,
             if given.Some? && given.value != "" then given.value else m.RealOf(file).meta)
  }

  /** get_path: some path of the inode. Python takes the oldest one. */
  ghost function PathOf(m: MState, file: Ino): string
    requires file in m.path2ino.Values
  {
    var p :| p in m.path2ino && m.path2ino[p] == file;
    p
  }

  function InitFolderHashes(m: MState, path: string, file: Ino, uid: int, gid: int, perms: int): Result {
    var made := NewFile(m, path, file, uid, gid, perms, Folder, FileHash("", Fake(0, 0, MODE_0777)));
    if made.status != Ok then made else
    var owned := DoChown(made.m, file, uid, gid, Fake(uid, gid, MODE_0777));
    if owned.status != Ok then owned else
    var moded := DoChmod(owned.m, file, perms, Fake(uid, gid, perms));
    if moded.status != Ok then moded else
    Result(moded.m.(integrity := moded.m.integrity[file := FileHash("", Fake(uid, gid, perms))]), Ok)
  }

  /** The metadata hash that the closing of an initial file records. */
  function InitCloseMeta(uid: int, gid: int, perms: int, contentHash: Hash, metaHash: Hash): Hash {
    if contentHash != "" then metaHash else Fake(uid, gid, perms)
  }

  function InitNewFile(m: MState, path: string, file: Ino, uid: int, gid: int, perms: int,
                       contentHash: Hash, metaHash: Hash): Result {
    var made := NewFile(m, path, file, uid, gid, perms, RegularFile, FileHash("", Fake(0, 0, MODE_0777)));
    if made.status != Ok then made else
    var openedFile := DoOpen(made.m, ProcFD(0, 3), file);
    if openedFile.status != Ok then openedFile else
    DoClose(openedFile.m, ProcFD(0, 3),
            FileHash(contentHash, InitCloseMeta(uid, gid, perms, contentHash, metaHash)))
  }

  /** What a successful call does to the mediator. */
  ghost function Perform(m: MState, c: Call): Result {
    match c
    case Open(path, pid, fd, file, uid, gid, perms) =>
      if Dirname(path) !in m.path2ino then Result(m, KeyError)
      else if path in m.path2ino then DoOpen(m, ProcFD(pid, fd), m.path2ino[path])
      else CreateAndOpen(m, path, ProcFD(pid, fd), file, uid, gid, perms)
    case Creat(path, pid, fd, file, uid, gid, perms) =>
      if Dirname(path) !in m.path2ino then Result(m, KeyError)
      else if path in m.path2ino then DoOpen(m, ProcFD(pid, fd), file)
      else CreateAndOpen(m, path, ProcFD(pid, fd), file, uid, gid, perms)
    case Mkdir(path, file, uid, gid, perms) =>
      if Dirname(path) !in m.path2ino then Result(m, KeyError)
      else NewFile(m, path, file, uid, gid, perms, Folder, FileHash("", Fake(uid, gid, perms)))
    case Chmod(path, perms, given) =>
      if Dirname(path) !in m.path2ino || path !in m.path2ino then Result(m, KeyError)
      else ChmodFile(m, m.path2ino[path], perms, given)
    case Fchmod(pid, fd, perms, given) =>
      if ProcFD(pid, fd) !in m.fd2ino then Result(m, KeyError)
      else ChmodFile(m, m.fd2ino[ProcFD(pid, fd)], perms, given)
    case Chown(path, owner, group, perms, given) =>
      if Dirname(path) !in m.path2ino || path !in m.path2ino then Result(m, KeyError)
      else ChownFile(m, m.path2ino[path], owner, group, perms, given)
    case Fchown(pid, fd, owner, group, perms, given) =>
      if ProcFD(pid, fd) !in m.fd2ino then Result(m, KeyError)
      else ChownFile(m, m.fd2ino[ProcFD(pid, fd)], owner, group, perms, given)
    case Link(path, newPath) =>
      if Dirname(path) !in m.path2ino || path !in m.path2ino || Dirname(newPath) !in m.path2ino
      then Result(m, KeyError)
      else DoLink(m, path, newPath)
    case Close(pid, fd, content, given) =>
      if ProcFD(pid, fd) !in m.fd2ino then Result(m, KeyError)
      else DoClose(m, ProcFD(pid, fd), CloseHashes(m, m.fd2ino[ProcFD(pid, fd)], content, given))
    case Exit(pid) =>
      Result(AfterClosing(m, FdsOf(m, pid)), Ok)
    case Unlink(path) =>
      if Dirname(path) !in m.path2ino || path !in m.path2ino || m.path2ino[path] !in m.stats
      then Result(m, KeyError)
      else DoRemove(m, path)
    case Rmdir(path) =>
      if Dirname(path) !in m.path2ino then Result(m, KeyError) else DoRemove(m, path)
    case Chdir(pid, path) =>
      if path !in m.path2ino then Result(m, KeyError) else DoChdir(m, pid, path)
    case InitFolder(path, file, uid, gid, perms) =>
      if Dirname(path) !in m.path2ino then Result(m, KeyError)
      else InitFolderHashes(m, path, file, uid, gid, perms)
    case InitFile(path, file, uid, gid, perms, contentHash, metaHash) =>
      if Dirname(path) !in m.path2ino then Result(m, KeyError)
      else if file in m.path2ino.Values then DoLink(m, PathOf(m, file), path)
      else InitNewFile(m, path, file, uid, gid, perms, contentHash, metaHash)
    case SetModes(mode) =>
      Result(m.(imaMode := mode, evmMode := mode), Ok)
  }

  // ---------- Fake hashes stay current ----------

  ghost predicate FakeCurrent(m: MState, i: Ino) {
    i in m.stats && IsHashFake(m.RealOf(i).meta) ==>
      m.RealOf(i).meta == Fake(m.stats[i].uid, m.stats[i].gid, m.stats[i].mode)
  }

  /** Every stored fake hash encodes the owner, the group and the mode stored for its inode. */
  ghost predicate FakesCurrent(m: MState) {
    forall i :: FakeCurrent(m, i)
  }

  predicate Genuine(h: Option<Hash>) {
    h.Some? ==> !IsHashFake(h.value)
  }

  /** Hashes that come from outside are not fake ones. */
  predicate GenuineCall(c: Call) {
    match c
    case Chmod(_, _, given) => Genuine(given)
    case Fchmod(_, _, _, given) => Genuine(given)
    case Chown(_, _, _, _, given) => Genuine(given)
    case Fchown(_, _, _, _, _, given) => Genuine(given)
    case Close(_, _, _, given) => Genuine(given)
    case InitFile(_, _, _, _, _, contentHash, metaHash) => contentHash != "" ==> !IsHashFake(metaHash)
    case _ => true
  }

  lemma EmptyIsNotFake()
    ensures !IsHashFake("")
  {
  }

  lemma ChmodKeepsFakes(m: MState, file: Ino, perms: int, given: Option<Hash>)
    requires FakesCurrent(m) && Genuine(given)
    ensures FakesCurrent(ChmodFile(m, file, perms, given).m) || ChmodFile(m, file, perms, given).status != Ok
  {
    var r := ChmodFile(m, file, perms, given);
    if r.status == Ok {
      forall i
        ensures FakeCurrent(r.m, i)
      {
        assert FakeCurrent(m, i);
      }
    }
  }

  /** chown keeps the fake hash of the file current exactly if the arguments, as stored, are what the
      hash was computed from: a -1 is, only where the stored id is -1 already. */
  lemma ChownKeepsFakesIff(m: MState, file: Ino, owner: int, group: int, perms: int, given: Option<Hash>)
    requires FakesCurrent(m) && ChownFile(m, file, owner, group, perms, given).status == Ok
    ensures file in m.stats
    ensures Genuine(given) ==> (FakesCurrent(ChownFile(m, file, owner, group, perms, given).m) <==>
      (IsHashFake(ChownHash(m, file, owner, group, perms, given)) ==>
        NewUid(m, file, owner) == owner && NewGid(m, file, group) == group))
  {
    if Genuine(given) {
      var m' := ChownFile(m, file, owner, group, perms, given).m;
      var hash := ChownHash(m, file, owner, group, perms, given);
      assert m'.RealOf(file).meta == hash;
      FakeIsInjective(NewUid(m, file, owner), NewGid(m, file, group), perms, owner, group, perms);
      assert FakeCurrent(m', file) <==>
          (IsHashFake(hash) ==> NewUid(m, file, owner) == owner && NewGid(m, file, group) == group);
      forall i | i != file
        ensures FakeCurrent(m', i)
      {
        assert FakeCurrent(m, i);
      }
    }
  }

  lemma NewFileKeepsFakes(m: MState, path: string, file: Ino, uid: int, gid: int, perms: int, kind: Kind)
    requires FakesCurrent(m)
    ensures FakesCurrent(NewFile(m, path, file, uid, gid, perms, kind, FileHash("", Fake(uid, gid, perms))).m)
  {
    var r := NewFile(m, path, file, uid, gid, perms, kind, FileHash("", Fake(uid, gid, perms))).m;
    forall i
      ensures FakeCurrent(r, i)
    {
      assert FakeCurrent(m, i);
    }
  }

  predicate SameIds(a: FileStat, b: FileStat) {
    a.uid == b.uid && a.gid == b.gid && a.mode == b.mode
  }

  /** Where stats only shrink or change in the link count, and each new hash is genuine or the old one. */
  lemma FakesFrame(m: MState, m': MState)
    requires FakesCurrent(m)
    requires forall i :: i in m'.stats ==> i in m.stats && SameIds(m'.stats[i], m.stats[i])
    requires forall i :: m'.RealOf(i).meta == m.RealOf(i).meta || !IsHashFake(m'.RealOf(i).meta)
    ensures FakesCurrent(m')
  {
    forall i
      ensures FakeCurrent(m', i)
    {
      assert FakeCurrent(m, i);
    }
  }

  lemma CloseKeepsFakes(m: MState, fd: ProcFD, hashes: FileHash)
    requires FakesCurrent(m) && fd in m.fd2ino
    requires hashes.meta == m.RealOf(m.fd2ino[fd]).meta || !IsHashFake(hashes.meta)
    ensures FakesCurrent(DoClose(m, fd, hashes).m)
  {
    FakesFrame(m, DoClose(m, fd, hashes).m);
  }

  lemma CreateAndOpenKeepsFakes(m: MState, path: string, fd: ProcFD, file: Ino, uid: int, gid: int, perms: int)
    requires FakesCurrent(m)
    ensures FakesCurrent(CreateAndOpen(m, path, fd, file, uid, gid, perms).m)
  {
    NewFileKeepsFakes(m, path, file, uid, gid, perms, RegularFile);
    FakesFrame(NewFile(m, path, file, uid, gid, perms, RegularFile, FileHash("", Fake(uid, gid, perms))).m,
               CreateAndOpen(m, path, fd, file, uid, gid, perms).m);
  }

  lemma ExitKeepsFakes(m: MState, pid: int)
    requires FakesCurrent(m)
    ensures FakesCurrent(AfterClosing(m, FdsOf(m, pid)))
  {
    FakesFrame(m, AfterClosing(m, FdsOf(m, pid)));
  }

  lemma RemoveKeepsFakes(m: MState, path: string)
    requires FakesCurrent(m)
    ensures FakesCurrent(DoRemove(m, path).m)
  {
    FakesFrame(m, DoRemove(m, path).m);
  }

  lemma InitFolderKeepsFakes(m: MState, path: string, file: Ino, uid: int, gid: int, perms: int)
    requires FakesCurrent(m) && InitFolderHashes(m, path, file, uid, gid, perms).status == Ok
    ensures
      var m' := InitFolderHashes(m, path, file, uid, gid, perms).m;
      && FakesCurrent(m') && m'.path2ino == m.path2ino[path := file]
      && m'.RealOf(file) == m'.IntegrityOf(file) == FileHash("", Fake(uid, gid, perms))
  {
    var m' := InitFolderHashes(m, path, file, uid, gid, perms).m;
    forall i
      ensures FakeCurrent(m', i)
    {
      assert FakeCurrent(m, i);
    }
  }

  lemma InitFileKeepsFakes(m: MState, path: string, file: Ino, uid: int, gid: int, perms: int,
                           contentHash: Hash, metaHash: Hash)
    requires FakesCurrent(m) && (contentHash != "" ==> !IsHashFake(metaHash))
    requires InitNewFile(m, path, file, uid, gid, perms, contentHash, metaHash).status == Ok
    ensures FakesCurrent(InitNewFile(m, path, file, uid, gid, perms, contentHash, metaHash).m)
  {
    hide Fake, IsHashFake;
    var m' := InitNewFile(m, path, file, uid, gid, perms, contentHash, metaHash).m;
    forall i
      ensures FakeCurrent(m', i)
    {
      assert FakeCurrent(m, i);
    }
  }

  predicate NoMinusOne(c: Call) {
    c.Chown? || c.Fchown? ==> c.owner != -1 && c.group != -1
  }

  lemma EnteringKeepsFakes(m: MState, c: Call)
    requires c.Open? || c.Creat? || c.Mkdir? || c.InitFolder? || c.InitFile?
    requires FakesCurrent(m) && GenuineCall(c) && Perform(m, c).status == Ok
    ensures FakesCurrent(Perform(m, c).m)
  {
    if c.Mkdir? {
      NewFileKeepsFakes(m, c.path, c.file, c.uid, c.gid, c.perms, Folder);
    } else if c.InitFolder? {
      InitFolderKeepsFakes(m, c.path, c.file, c.uid, c.gid, c.perms);
    } else if c.InitFile? && c.file !in m.path2ino.Values {
      InitFileKeepsFakes(m, c.path, c.file, c.uid, c.gid, c.perms, c.contentHash, c.metaHash);
    } else if (c.Open? || c.Creat?) && c.path !in m.path2ino {
      CreateAndOpenKeepsFakes(m, c.path, ProcFD(c.pid, c.fd), c.file, c.uid, c.gid, c.perms);
    } else {
      FakesFrame(m, Perform(m, c).m);
    }
  }

  lemma ChangingKeepsFakes(m: MState, c: Call)
    requires c.Chmod? || c.Fchmod? || c.Chown? || c.Fchown?
    requires FakesCurrent(m) && GenuineCall(c) && NoMinusOne(c) && Perform(m, c).status == Ok
    ensures FakesCurrent(Perform(m, c).m)
  {
    match c
    case Chmod(path, perms, given) => ChmodKeepsFakes(m, m.path2ino[path], perms, given);
    case Fchmod(pid, fd, perms, given) => ChmodKeepsFakes(m, m.fd2ino[ProcFD(pid, fd)], perms, given);
    case Chown(path, owner, group, perms, given) =>
      ChownKeepsFakesIff(m, m.path2ino[path], owner, group, perms, given);
    case Fchown(pid, fd, owner, group, perms, given) =>
      ChownKeepsFakesIff(m, m.fd2ino[ProcFD(pid, fd)], owner, group, perms, given);
  }

  /** Every successful call keeps the fake hashes current, if it passes genuine hashes and no -1. */
  lemma CallKeepsFakes(m: MState, c: Call)
    requires FakesCurrent(m) && GenuineCall(c) && NoMinusOne(c) && Perform(m, c).status == Ok
    ensures FakesCurrent(Perform(m, c).m)
  {
    EmptyIsNotFake();
    if c.Open? || c.Creat? || c.Mkdir? || c.InitFolder? || c.InitFile? {
      EnteringKeepsFakes(m, c);
    } else if c.Chmod? || c.Fchmod? || c.Chown? || c.Fchown? {
      ChangingKeepsFakes(m, c);
    } else if c.Close? {
      var k := ProcFD(c.pid, c.fd);
      CloseKeepsFakes(m, k, CloseHashes(m, m.fd2ino[k], c.content, c.given));
    } else if c.Exit? {
      ExitKeepsFakes(m, c.pid);
    } else if c.Unlink? || c.Rmdir? {
      RemoveKeepsFakes(m, c.path);
    } else {
      FakesFrame(m, Perform(m, c).m);
    }
  }

  /** The state after a sequence of calls. */
  ghost function PerformAll(m: MState, cs: seq<Call>): Result {
    if cs == [] then Result(m, Ok)
    else
      var r := PerformAll(m, cs[..|cs| - 1]);
      if r.status != Ok then r else Perform(r.m, cs[|cs| - 1])
  }

  /** In every run of the mediator without -1 arguments the fake hashes are current; so chmod and
      fchmod on a file with a fake hash change the hash exactly if they change the permissions. */
  lemma {:induction false} RunsKeepFakes(root: Ino, cs: seq<Call>)
    requires forall k :: 0 <= k < |cs| ==> GenuineCall(cs[k]) && NoMinusOne(cs[k])
    requires PerformAll(InitialMediator(root), cs).status == Ok
    ensures FakesCurrent(PerformAll(InitialMediator(root), cs).m)
  {
    if cs != [] {
      RunsKeepFakes(root, cs[..|cs| - 1]);
      CallKeepsFakes(PerformAll(InitialMediator(root), cs[..|cs| - 1]).m, cs[|cs| - 1]);
    }
  }

  lemma ChmodGuardFollows(m: MState, file: Ino, perms: int, given: Option<Hash>)
    requires FakesCurrent(m) && file in m.stats && IsHashFake(m.RealOf(file).meta)
    requires given == None || given == Some("")
    ensures TranslateMode(m.stats[file].mode) == TranslateMode(perms) <==>
      m.RealOf(file).meta == ChmodHash(m, file, perms, given)
  {
    assert FakeCurrent(m, file);
    FakeHashFollowsPerms(m.stats[file].uid, m.stats[file].gid, m.stats[file].mode, perms);
  }

  // ---------- Stats stay exact over runs ----------

  /** What a call may name: new files take fresh paths, and the root stays where it is. */
  ghost predicate Fits(m: MState, root: Ino, c: Call) {
    match c
    case Open(path, _, _, file, _, _, _) => path !in m.path2ino ==> file != root
    case Creat(path, _, _, file, _, _, _) => if path in m.path2ino then m.Named(file) else file != root
    case Mkdir(path, file, _, _, _) => path !in m.path2ino && file != root
    case Unlink(path) => path in m.path2ino ==> m.path2ino[path] != root
    case Rmdir(path) => path in m.path2ino ==> m.path2ino[path] != root
    case InitFolder(path, file, _, _, _) => path !in m.path2ino && file != root
    case InitFile(path, _, _, _, _, _, _) => path !in m.path2ino
    case _ => true
  }

  lemma FreshFileKeepsStats(m: MState, root: Ino, path: string, file: Ino, uid: int, gid: int, perms: int,
                            kind: Kind, hashes: FileHash)
    requires StatsExact(m, root) && path !in m.path2ino && file != root
    ensures
      var m' := NewFile(m, path, file, uid, gid, perms, kind, hashes).m;
      StatsExact(m', root) && (IsAbs(path) ==> m'.Named(file))
  {
    if IsAbs(path) {
      var m' := NewFile(m, path, file, uid, gid, perms, kind, hashes).m;
      var p :| p in m.path2ino && m.path2ino[p] == root;
      assert m'.path2ino[p] == root;
      assert m'.path2ino[path] in m'.path2ino.Values;
      NewFileKeepsStatsIff(m, root, path, file, uid, gid, perms, kind, hashes);
    }
  }

  lemma CreateAndOpenKeepsStats(m: MState, root: Ino, path: string, fd: ProcFD, file: Ino, uid: int, gid: int,
                                perms: int)
    requires StatsExact(m, root) && path !in m.path2ino && file != root
    ensures StatsExact(CreateAndOpen(m, path, fd, file, uid, gid, perms).m, root)
  {
    var hashes := FileHash("", Fake(uid, gid, perms));
    FreshFileKeepsStats(m, root, path, file, uid, gid, perms, RegularFile, hashes);
    if IsAbs(path) {
      OpenKeepsStats(NewFile(m, path, file, uid, gid, perms, RegularFile, hashes).m, root, fd, file);
    }
  }

  lemma ChownFileKeepsStats(m: MState, root: Ino, file: Ino, owner: int, group: int, perms: int, given: Option<Hash>)
    requires StatsExact(m, root)
    ensures StatsExact(ChownFile(m, file, owner, group, perms, given).m, root)
  {
  }

  lemma InitFolderKeepsStats(m: MState, root: Ino, path: string, file: Ino, uid: int, gid: int, perms: int)
    requires StatsExact(m, root) && path !in m.path2ino && file != root
    ensures StatsExact(InitFolderHashes(m, path, file, uid, gid, perms).m, root)
  {
    var hashes := FileHash("", Fake(0, 0, MODE_0777));
    FreshFileKeepsStats(m, root, path, file, uid, gid, perms, Folder, hashes);
    if IsAbs(path) {
      var made := NewFile(m, path, file, uid, gid, perms, Folder, hashes).m;
      ChangesKeepStats(made, root, file, uid, gid, perms, Fake(uid, gid, MODE_0777));
      var owned := DoChown(made, file, uid, gid, Fake(uid, gid, MODE_0777)).m;
      ChangesKeepStats(owned, root, file, uid, gid, perms, Fake(uid, gid, perms));
    }
  }

  lemma InitNewFileKeepsStats(m: MState, root: Ino, path: string, file: Ino, uid: int, gid: int, perms: int,
                              contentHash: Hash, metaHash: Hash)
    requires StatsExact(m, root) && path !in m.path2ino && file != root
    ensures StatsExact(InitNewFile(m, path, file, uid, gid, perms, contentHash, metaHash).m, root)
  {
    var hashes := FileHash("", Fake(0, 0, MODE_0777));
    FreshFileKeepsStats(m, root, path, file, uid, gid, perms, RegularFile, hashes);
    if IsAbs(path) {
      var made := NewFile(m, path, file, uid, gid, perms, RegularFile, hashes).m;
      OpenKeepsStats(made, root, ProcFD(0, 3), file);
      CloseKeepsStats(DoOpen(made, ProcFD(0, 3), file).m, root, ProcFD(0, 3),
                      FileHash(contentHash, InitCloseMeta(uid, gid, perms, contentHash, metaHash)));
    }
  }

  /** Every call that fits keeps the stats exact, also one that raises. */
  lemma CallKeepsStats(m: MState, root: Ino, c: Call)
    requires StatsExact(m, root) && Fits(m, root, c)
    ensures StatsExact(Perform(m, c).m, root)
  {
    match c
    case Open(path, pid, fd, file, uid, gid, perms) =>
      if path in m.path2ino {
        assert m.path2ino[path] in m.path2ino.Values;
        OpenKeepsStats(m, root, ProcFD(pid, fd), m.path2ino[path]);
      } else {
        CreateAndOpenKeepsStats(m, root, path, ProcFD(pid, fd), file, uid, gid, perms);
      }
    case Creat(path, pid, fd, file, uid, gid, perms) =>
      if path in m.path2ino {
        OpenKeepsStats(m, root, ProcFD(pid, fd), file);
      } else {
        CreateAndOpenKeepsStats(m, root, path, ProcFD(pid, fd), file, uid, gid, perms);
      }
    case Mkdir(path, file, uid, gid, perms) =>
      FreshFileKeepsStats(m, root, path, file, uid, gid, perms, Folder, FileHash("", Fake(uid, gid, perms)));
    case Chmod(path, perms, given) =>
      if path in m.path2ino && m.path2ino[path] in m.stats {
        ChangesKeepStats(m, root, m.path2ino[path], 0, 0, perms, ChmodHash(m, m.path2ino[path], perms, given));
      }
    case Fchmod(pid, fd, perms, given) =>
      if ProcFD(pid, fd) in m.fd2ino && m.fd2ino[ProcFD(pid, fd)] in m.stats {
        var i := m.fd2ino[ProcFD(pid, fd)];
        ChangesKeepStats(m, root, i, 0, 0, perms, ChmodHash(m, i, perms, given));
      }
    case Chown(path, owner, group, perms, given) =>
      if path in m.path2ino {
        ChownFileKeepsStats(m, root, m.path2ino[path], owner, group, perms, given);
      }
    case Fchown(pid, fd, owner, group, perms, given) =>
      if ProcFD(pid, fd) in m.fd2ino {
        ChownFileKeepsStats(m, root, m.fd2ino[ProcFD(pid, fd)], owner, group, perms, given);
      }
    case Link(path, newPath) => LinkKeepsStats(m, root, path, newPath);
    case Close(pid, fd, content, given) =>
      if ProcFD(pid, fd) in m.fd2ino {
        CloseKeepsStats(m, root, ProcFD(pid, fd), CloseHashes(m, m.fd2ino[ProcFD(pid, fd)], content, given));
      }
    case Exit(pid) => ExitFreesExactly(m, root, pid);
    case Unlink(path) => RemoveKeepsStats(m, root, path);
    case Rmdir(path) => RemoveKeepsStats(m, root, path);
    case Chdir(_, _) =>
    case InitFolder(path, file, uid, gid, perms) => InitFolderKeepsStats(m, root, path, file, uid, gid, perms);
    case InitFile(path, file, uid, gid, perms, contentHash, metaHash) =>
      if file in m.path2ino.Values {
        LinkKeepsStats(m, root, PathOf(m, file), path);
      } else {
        assert root in m.path2ino.Values;
        InitNewFileKeepsStats(m, root, path, file, uid, gid, perms, contentHash, metaHash);
      }
    case SetModes(_) =>
  }
}
