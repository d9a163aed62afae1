/** MediatorState of mediator/state.py: the dictionaries that shadow the machine while a trace is
    replayed. Every operation is specified by a function on the value of the dictionaries; an
    exception leaves the changes made before it. */
module Mediator {
  import opened Context
  import opened PosixPath

  datatype Ino = Ino(dev: int, ino: int)
  datatype ProcFD = ProcFD(proc: int, fd: int)
  datatype FileHash = FileHash(content: Hash, meta: Hash)
  datatype Kind = RegularFile | Folder
  datatype FileStat = FileStat(uid: int, gid: int, mode: int, nlink: int, kind: Kind)

  const NO_HASHES := FileHash("", "")

  datatype MState = MState(
    cwd: map<int, string>,
    path2ino: map<string, Ino>,
    fd2ino: map<ProcFD, Ino>,
    stats: map<Ino, FileStat>,
    imaMode: IntegrityMode,
    evmMode: IntegrityMode,
    realHashes: map<Ino, FileHash>,
    integrity: map<Ino, FileHash>)
  {
    /** Some path or some open descriptor names the inode. */
    predicate Named(i: Ino) {
      i in path2ino.Values || i in fd2ino.Values
    }

    function RealOf(i: Ino): FileHash {
      if i in realHashes then realHashes[i] else NO_HASHES
    }

    function IntegrityOf(i: Ino): FileHash {
      if i in integrity then integrity[i] else NO_HASHES
    }

    predicate BothFix() {
      imaMode == FIX && evmMode == FIX
    }
  }

  function InitialMediator(root: Ino): MState {
    MState(map[], map["/" := root], map[], map[], OFF, OFF, map[], map[])
  }

  datatype Result = Result(m: MState, status: Status)

  // ---------- Operations ----------

  function DoChdir(m: MState, proc: int, path: string): Result {
    if !IsAbs(path) then Result(m, ValueError) else Result(m.(cwd := m.cwd[proc := path]), Ok)
  }

  function DoOpen(m: MState, fd: ProcFD, file: Ino): Result {
    if fd in m.fd2ino then Result(m, ValueError) else Result(m.(fd2ino := m.fd2ino[fd := file]), Ok)
  }

  /** del self.stats[ino], if nothing names the inode any more. */
  function Forget(m: MState, i: Ino): Result {
    if m.Named(i) then Result(m, Ok)
    else if i in m.stats then Result(m.(stats := m.stats - {i}), Ok)
    else Result(m, KeyError)
  }

  function SetHashes(m: MState, i: Ino, hashes: FileHash): MState {
    m.(realHashes := m.realHashes[i := hashes],
       integrity := if m.BothFix() then m.integrity[i := hashes] else m.integrity)
  }

  function DoClose(m: MState, fd: ProcFD, hashes: FileHash): Result {
    if fd !in m.fd2ino then Result(m, KeyError)
    else
      var r := Forget(m.(fd2ino := m.fd2ino - {fd}), m.fd2ino[fd]);
      if r.status != Ok then r else Result(SetHashes(r.m, m.fd2ino[fd], hashes), Ok)
  }

  function NewFile(m: MState, path: string, file: Ino, uid: int, gid: int, perms: int, kind: Kind,
                   hashes: FileHash): Result {
    if !IsAbs(path) then Result(m, ValueError)
    else Result(m.(path2ino := m.path2ino[path := file],
                   stats := m.stats[file := FileStat(uid, gid, perms, 1, kind)],
                   realHashes := m.realHashes[file := hashes]), Ok)
  }

  function SetMetaHash(m: MState, file: Ino, hash: Hash): Result {
    if file in m.realHashes then Result(m.(realHashes := m.realHashes[file := FileHash(m.realHashes[file].content, hash)]), Ok)
    else Result(m, ValueError)
  }

  function DoChown(m: MState, file: Ino, uid: int, gid: int, hash: Hash): Result {
    if file !in m.stats then Result(m, KeyError)
    else SetMetaHash(m.(stats := m.stats[file := m.stats[file].(uid := uid, gid := gid)]), file, hash)
  }

  function DoChmod(m: MState, file: Ino, perms: int, hash: Hash): Result {
    if file !in m.stats then Result(m, KeyError)
    else SetMetaHash(m.(stats := m.stats[file := m.stats[file].(mode := perms)]), file, hash)
  }

  function DoLink(m: MState, path: string, newpath: string): Result {
    if !IsAbs(path) || !IsAbs(newpath) || path == newpath || newpath in m.path2ino then Result(m, ValueError)
    else if path !in m.path2ino || m.path2ino[path] !in m.stats then Result(m, KeyError)
    else
      var i := m.path2ino[path];
      Result(m.(stats := m.stats[i := m.stats[i].(nlink := m.stats[i].nlink + 1)],
                path2ino := m.path2ino[newpath := i]), Ok)
  }

  function DoRemove(m: MState, path: string): Result {
    if path !in m.path2ino then Result(m, KeyError)
    else
      var i := m.path2ino[path];
      var r := Forget(m.(path2ino := m.path2ino - {path}), i);
      if r.status != Ok then r
      else if i !in r.m.realHashes then Result(r.m, KeyError)
      else Result(r.m.(realHashes := r.m.realHashes - {i}, integrity := r.m.integrity - {i}), Ok)
  }

  // ---------- exit: a loop of closes, and what it amounts to ----------

  function FdsOf(m: MState, proc: int): set<ProcFD> {
    set fd | fd in m.fd2ino && fd.proc == proc
  }

  /** The inodes open in the descriptors `fds`. */
  function InosOf(m: MState, fds: set<ProcFD>): set<Ino> {
    set fd | fd in fds && fd in m.fd2ino :: m.fd2ino[fd]
  }

  function Without(m: MState, fds: set<ProcFD>): MState {
    m.(fd2ino := m.fd2ino - fds)
  }

  /** The stats that closing `fds` leaves: those of inodes that are not closed or still named. */
  ghost function StatsLeft(m: MState, fds: set<ProcFD>): map<Ino, FileStat> {
    map i | i in m.stats && (i !in InosOf(m, fds) || Without(m, fds).Named(i)) :: m.stats[i]
  }

  /** `table` with the stored hashes of every closed inode, or no hashes if none are stored. */
  ghost function WithClosed(m: MState, table: map<Ino, FileHash>, fds: set<ProcFD>): map<Ino, FileHash> {
    table + (map i | i in InosOf(m, fds) :: m.RealOf(i))
  }

  /** The state after closing all of `fds`, each with the hashes stored for its inode. */
  ghost function AfterClosing(m: MState, fds: set<ProcFD>): MState {
    m.(fd2ino := m.fd2ino - fds,
       stats := StatsLeft(m, fds),
       realHashes := WithClosed(m, m.realHashes, fds),
       integrity := if m.BothFix() then WithClosed(m, m.integrity, fds) else m.integrity)
  }

  /** The exit ends in the exception of closing fd, when `done` have been closed. */
  ghost predicate ExitStops(m: MState, proc: int, done: set<ProcFD>, fd: ProcFD, r: Result) {
    && done <= FdsOf(m, proc) && fd in FdsOf(m, proc) - done && r.status != Ok
    && r == DoClose(AfterClosing(m, done), fd, m.RealOf(m.fd2ino[fd]))
  }

  class MediatorState {
    var cwd: map<int, string>
    var path2ino: map<string, Ino>
    var fd2ino: map<ProcFD, Ino>
    var stats: map<Ino, FileStat>
    var imaMode: IntegrityMode
    var evmMode: IntegrityMode
    var realHashes: map<Ino, FileHash>
    var integrityHashes: map<Ino, FileHash>

    function View(): MState
      reads this
    {
      MState(cwd, path2ino, fd2ino, stats, imaMode, evmMode, realHashes, integrityHashes)
    }

    constructor (root: Ino)
      ensures View() == InitialMediator(root)
    {
      cwd, path2ino, fd2ino, stats := map[], map["/" := root], map[], map[];
      imaMode, evmMode := OFF, OFF;
      realHashes, integrityHashes := map[], map[];
    }

    method Chdir(proc: int, path: string) returns (r: Status)
      modifies this`cwd
      ensures Result(View(), r) == DoChdir(old(View()), proc, path)
    {
      if !IsAbs(path) {
        return ValueError;
      }
      cwd := cwd[proc := path];
      return Ok;
    }

    method Open(fd: ProcFD, file: Ino) returns (r: Status)
      modifies this`fd2ino
      ensures Result(View(), r) == DoOpen(old(View()), fd, file)
    {
      if fd in fd2ino {
        return ValueError;
      }
      fd2ino := fd2ino[fd := file];
      return Ok;
    }

    method Close(fd: ProcFD, hashes: FileHash) returns (r: Status)
      modifies this`fd2ino, this`stats, this`realHashes, this`integrityHashes
      ensures Result(View(), r) == DoClose(old(View()), fd, hashes)
    {
      if fd !in fd2ino {
        return KeyError;
      }
      var ino := fd2ino[fd];
      fd2ino := fd2ino - {fd};
      if ino !in fd2ino.Values && ino !in path2ino.Values {
        if ino !in stats {
          return KeyError;
        }
        stats := stats - {ino};
      }
      realHashes := realHashes[ino := hashes];
      if evmMode == FIX && imaMode == FIX {
        integrityHashes := integrityHashes[ino := hashes];
      }
      return Ok;
    }

    /** do_exit: the descriptors are closed one by one, in any order. */
    method Exit(proc: int) returns (r: Status)
      modifies this`fd2ino, this`stats, this`realHashes, this`integrityHashes
      ensures r == Ok ==> View() == AfterClosing(old(View()), FdsOf(old(View()), proc))
      ensures r != Ok ==> exists done, fd :: ExitStops(old(View()), proc, done, fd, Result(View(), r))
      ensures StatsCoverDescs(old(View())) ==> r == Ok
    {
      hide AfterClosing;
      ghost var was := View();
      var todo := set fd | fd in fd2ino && fd.proc == proc;
      ClosingNothing(was);
      assert FdsOf(was, proc) - todo == {};
      while todo != {}
        invariant todo <= FdsOf(was, proc)
        invariant View() == AfterClosing(was, FdsOf(was, proc) - todo)
        decreases todo
      {
        var fd :| fd in todo;
        ghost var done := FdsOf(was, proc) - todo;
        ClosingOneMore(was, done, fd);
        var ino := fd2ino[fd];
        var hashes := if ino in realHashes then realHashes[ino] else NO_HASHES;
        var s := Close(fd, hashes);
        if s != Ok {
          assert ExitStops(was, proc, done, fd, Result(View(), s));
          return s;
        }
        todo := todo - {fd};
        assert FdsOf(was, proc) - todo == done + {fd};
      }
      assert FdsOf(was, proc) - todo == FdsOf(was, proc);
      return Ok;
    }

    method Creat(path: string, file: Ino, uid: int, gid: int, perms: int, kind: Kind, hashes: FileHash)
      returns (r: Status)
      modifies this`path2ino, this`stats, this`realHashes
      ensures Result(View(), r) == NewFile(old(View()), path, file, uid, gid, perms, kind, hashes)
    {
      if !IsAbs(path) {
        return ValueError;
      }
      path2ino := path2ino[path := file];
      stats := stats[file := FileStat(uid, gid, perms, 1, kind)];
      realHashes := realHashes[file := hashes];
      return Ok;
    }

    method SetMeta(file: Ino, hash: Hash) returns (r: Status)
      modifies this`realHashes
      ensures Result(View(), r) == SetMetaHash(old(View()), file, hash)
    {
      if file !in realHashes {
        return ValueError;
      }
      realHashes := realHashes[file := FileHash(realHashes[file].content, hash)];
      return Ok;
    }

    method Chown(file: Ino, uid: int, gid: int, hash: Hash) returns (r: Status)
      modifies this`stats, this`realHashes
      ensures Result(View(), r) == DoChown(old(View()), file, uid, gid, hash)
    {
      if file !in stats {
        return KeyError;
      }
      stats := stats[file := stats[file].(uid := uid, gid := gid)];
      r := SetMeta(file, hash);
    }

    method Chmod(file: Ino, perms: int, hash: Hash) returns (r: Status)
      modifies this`stats, this`realHashes
      ensures Result(View(), r) == DoChmod(old(View()), file, perms, hash)
    {
      if file !in stats {
        return KeyError;
      }
      stats := stats[file := stats[file].(mode := perms)];
      r := SetMeta(file, hash);
    }

    method Link(path: string, newpath: string) returns (r: Status)
      modifies this`path2ino, this`stats
      ensures Result(View(), r) == DoLink(old(View()), path, newpath)
    {
      if !IsAbs(path) || !IsAbs(newpath) || path == newpath || newpath in path2ino {
        return ValueError;
      }
      if path !in path2ino || path2ino[path] !in stats {
        return KeyError;
      }
      var ino := path2ino[path];
      stats := stats[ino := stats[ino].(nlink := stats[ino].nlink + 1)];
      path2ino := path2ino[newpath := ino];
      return Ok;
    }

    method Remove(path: string) returns (r: Status)
      modifies this`path2ino, this`stats, this`realHashes, this`integrityHashes
      ensures Result(View(), r) == DoRemove(old(View()), path)
    {
      if path !in path2ino {
        return KeyError;
      }
      var ino := path2ino[path];
      path2ino := path2ino - {path};
      if ino !in fd2ino.Values && ino !in path2ino.Values {
        if ino !in stats {
          return KeyError;
        }
        stats := stats - {ino};
      }
      if ino !in realHashes {
        return KeyError;
      }
      realHashes := realHashes - {ino};
      integrityHashes := integrityHashes - {ino};
      return Ok;
    }
  }

  // ---------- Exit ----------

  /** Every inode that only descriptors name has a stat. */
  ghost predicate StatsCoverDescs(m: MState) {
    forall fd :: fd in m.fd2ino && m.fd2ino[fd] !in m.path2ino.Values ==> m.fd2ino[fd] in m.stats
  }

  lemma ClosingNothing(m: MState)
    ensures AfterClosing(m, {}) == m
  {
    assert m.fd2ino - {} == m.fd2ino;
    assert InosOf(m, {}) == {};
  }

  lemma ClosedInosStep(m: MState, done: set<ProcFD>, fd: ProcFD)
    requires fd in m.fd2ino
    ensures InosOf(m, done + {fd}) == InosOf(m, done) + {m.fd2ino[fd]}
    ensures m.fd2ino - (done + {fd}) == (m.fd2ino - done) - {fd}
  {
  }

  /** Taking out one descriptor can leave only its inode without a name. */
  lemma NamesStep(m: MState, done: set<ProcFD>, fd: ProcFD, i: Ino)
    requires fd in m.fd2ino && fd !in done
    ensures Without(m, done).Named(m.fd2ino[fd])
    ensures i != m.fd2ino[fd] ==> (Without(m, done + {fd}).Named(i) <==> Without(m, done).Named(i))
  {
    var before, after := Without(m, done), Without(m, done + {fd});
    assert before.fd2ino[fd] in before.fd2ino.Values;
    if i != m.fd2ino[fd] && i in before.fd2ino.Values {
      var g :| g in before.fd2ino && before.fd2ino[g] == i;
      assert g in after.fd2ino && after.fd2ino[g] == i;
    }
    if i in after.fd2ino.Values {
      var g :| g in after.fd2ino && after.fd2ino[g] == i;
      assert g in before.fd2ino && before.fd2ino[g] == i;
    }
  }

  lemma StatsStep(m: MState, done: set<ProcFD>, fd: ProcFD)
    requires fd in m.fd2ino && fd !in done
    ensures
      var i := m.fd2ino[fd];
      StatsLeft(m, done + {fd}) ==
        if Without(m, done + {fd}).Named(i) then StatsLeft(m, done) else StatsLeft(m, done) - {i}
    ensures m.fd2ino[fd] in m.stats ==> m.fd2ino[fd] in StatsLeft(m, done)
  {
    ClosedInosStep(m, done, fd);
    NamesStep(m, done, fd, m.fd2ino[fd]);
    forall i
      ensures i in StatsLeft(m, done + {fd}) <==>
        i in StatsLeft(m, done) && (i == m.fd2ino[fd] ==> Without(m, done + {fd}).Named(i))
    {
      NamesStep(m, done, fd, i);
    }
  }

  lemma TableStep(m: MState, table: map<Ino, FileHash>, done: set<ProcFD>, fd: ProcFD)
    requires fd in m.fd2ino
    ensures WithClosed(m, table, done + {fd}) ==
      WithClosed(m, table, done)[m.fd2ino[fd] := m.RealOf(m.fd2ino[fd])]
    ensures AfterClosing(m, done).RealOf(m.fd2ino[fd]) == m.RealOf(m.fd2ino[fd])
  {
    ClosedInosStep(m, done, fd);
  }

  /** Closing one descriptor more is one more step of the loop. */
  lemma ClosingOneMore(m: MState, done: set<ProcFD>, fd: ProcFD)
    requires fd in m.fd2ino && fd !in done
    ensures
      var now := AfterClosing(m, done);
      && fd in now.fd2ino && now.fd2ino[fd] == m.fd2ino[fd]
      && var r := DoClose(now, fd, now.RealOf(now.fd2ino[fd]));
      && (r.status == Ok ==> r.m == AfterClosing(m, done + {fd}))
      && (StatsCoverDescs(m) ==> r.status == Ok)
  {
    var now := AfterClosing(m, done);
    ClosedInosStep(m, done, fd);
    StatsStep(m, done, fd);
    TableStep(m, m.realHashes, done, fd);
    TableStep(m, m.integrity, done, fd);
    assert now.(fd2ino := now.fd2ino - {fd}).fd2ino == Without(m, done + {fd}).fd2ino;
  }

  // ---------- Which inodes have a stat ----------

  /** The keys of stats are exactly the inodes, except the root, that a path or a descriptor names;
      and the root keeps a path. */
  ghost predicate StatsExact(m: MState, root: Ino) {
    && root in m.path2ino.Values && root !in m.stats
    && (forall i :: i in m.stats <==> i != root && m.Named(i))
  }

  lemma InitialStatsExact(root: Ino)
    ensures StatsExact(InitialMediator(root), root)
  {
    var m := InitialMediator(root);
    assert m.path2ino["/"] in m.path2ino.Values;
    forall i | m.Named(i)
      ensures i == root
    {
      var p :| p in m.path2ino && m.path2ino[p] == i;
    }
  }

  /** A descriptor on an inode that is already named. */
  lemma OpenKeepsStats(m: MState, root: Ino, fd: ProcFD, file: Ino)
    requires StatsExact(m, root) && m.Named(file)
    ensures StatsExact(DoOpen(m, fd, file).m, root)
  {
    var r := DoOpen(m, fd, file).m;
    if fd !in m.fd2ino {
      assert r.fd2ino[fd] in r.fd2ino.Values;
      forall i
        ensures r.Named(i) <==> m.Named(i)
      {
        if i in m.fd2ino.Values {
          var g :| g in m.fd2ino && m.fd2ino[g] == i;
          assert r.fd2ino[g] == i;
        }
      }
    }
  }

  lemma CloseKeepsStats(m: MState, root: Ino, fd: ProcFD, hashes: FileHash)
    requires StatsExact(m, root)
    ensures StatsExact(DoClose(m, fd, hashes).m, root)
    ensures fd in m.fd2ino <==> DoClose(m, fd, hashes).status == Ok
  {
    if fd in m.fd2ino {
      assert m.fd2ino - {fd} == Without(m, {fd}).fd2ino;
      assert Without(m, {}) == m by { assert m.fd2ino - {} == m.fd2ino; }
      assert {} + {fd} == {fd};
      assert m.fd2ino[fd] in m.fd2ino.Values;
      forall i
        ensures i != m.fd2ino[fd] ==> (Without(m, {fd}).Named(i) <==> m.Named(i))
      {
        NamesStep(m, {}, fd, i);
      }
    }
  }

  /** A new path keeps the stats exact precisely if it does not rename the root and does not take the
      last name from another inode. */
  lemma NewFileKeepsStatsIff(m: MState, root: Ino, path: string, file: Ino, uid: int, gid: int, perms: int,
                             kind: Kind, hashes: FileHash)
    requires StatsExact(m, root) && IsAbs(path)
    ensures
      var m' := NewFile(m, path, file, uid, gid, perms, kind, hashes).m;
      StatsExact(m', root) <==>
        (file != root && root in m'.path2ino.Values && (path in m.path2ino ==> m'.Named(m.path2ino[path])))
  {
    var m' := NewFile(m, path, file, uid, gid, perms, kind, hashes).m;
    assert m'.path2ino[path] in m'.path2ino.Values;
    forall i | i != file
      ensures m'.Named(i) ==> m.Named(i)
      ensures m.Named(i) && !m'.Named(i) ==> path in m.path2ino && m.path2ino[path] == i
    {
      if i in m'.path2ino.Values {
        var p :| p in m'.path2ino && m'.path2ino[p] == i;
        assert m.path2ino[p] == i;
      }
      if i in m.path2ino.Values {
        var p :| p in m.path2ino && m.path2ino[p] == i;
        if p != path {
          assert m'.path2ino[p] == i;
        }
      }
    }
    if path in m.path2ino {
      assert m.path2ino[path] in m.path2ino.Values;
    }
  }

  lemma LinkKeepsStats(m: MState, root: Ino, path: string, newpath: string)
    requires StatsExact(m, root)
    ensures StatsExact(DoLink(m, path, newpath).m, root)
  {
    var r := DoLink(m, path, newpath);
    if r.status == Ok {
      assert m.path2ino[path] in m.path2ino.Values;
      forall i
        ensures i in r.m.path2ino.Values <==> i in m.path2ino.Values
      {
        if i in m.path2ino.Values {
          var p :| p in m.path2ino && m.path2ino[p] == i;
          assert r.m.path2ino[p] == i;
        }
      }
    }
  }

  lemma ChangesKeepStats(m: MState, root: Ino, file: Ino, uid: int, gid: int, perms: int, hash: Hash)
    requires StatsExact(m, root)
    ensures StatsExact(DoChown(m, file, uid, gid, hash).m, root)
    ensures StatsExact(DoChmod(m, file, perms, hash).m, root)
  {
  }

  /** Removing a path of another inode than the root. The stats stay exact also where the operation
      ends in the KeyError of a missing hash. */
  lemma RemoveKeepsStats(m: MState, root: Ino, path: string)
    requires StatsExact(m, root) && (path in m.path2ino ==> m.path2ino[path] != root)
    ensures StatsExact(DoRemove(m, path).m, root)
    ensures DoRemove(m, path).status == Ok <==> path in m.path2ino && m.path2ino[path] in m.realHashes
  {
    if path in m.path2ino {
      var left := m.(path2ino := m.path2ino - {path});
      assert m.path2ino[path] in m.path2ino.Values;
      forall i | i != m.path2ino[path]
        ensures i in left.path2ino.Values <==> i in m.path2ino.Values
      {
        if i in m.path2ino.Values {
          var p :| p in m.path2ino && m.path2ino[p] == i;
          assert left.path2ino[p] == i;
        }
      }
    }
  }

  /** exit removes exactly the descriptors of the process and frees exactly the inodes that nothing
      else names. */
  lemma ExitFreesExactly(m: MState, root: Ino, proc: int)
    requires StatsExact(m, root)
    ensures
      var m' := AfterClosing(m, FdsOf(m, proc));
      && StatsExact(m', root)
      && (forall fd :: fd in m'.fd2ino <==> fd in m.fd2ino && fd.proc != proc)
      && (forall i :: i in m.stats && i !in m'.stats <==> i in m.stats && !m'.Named(i))
    ensures StatsCoverDescs(m)
  {
    var m' := AfterClosing(m, FdsOf(m, proc));
    forall fd | fd in m.fd2ino && m.fd2ino[fd] !in m.path2ino.Values
      ensures m.fd2ino[fd] in m.stats
    {
      assert m.fd2ino[fd] in m.fd2ino.Values;
    }
    forall i
      ensures m'.Named(i) ==> m.Named(i)
      ensures m.Named(i) && !m'.Named(i) ==> i in InosOf(m, FdsOf(m, proc))
    {
      if i in m.fd2ino.Values {
        var fd :| fd in m.fd2ino && m.fd2ino[fd] == i;
        if fd.proc != proc {
          assert m'.fd2ino[fd] == i;
        }
      }
    }
  }
}
