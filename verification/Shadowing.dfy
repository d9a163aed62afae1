/** Replaying a trace: the events that the translator emits for a call, and why the mediator goes on
    shadowing the machine that accepts them. */
module Shadowing {
  import opened Context
  import opened PosixPath
  import opened DacState
  import opened DacEvents
  import opened DacSteps
  import opened Ima
  import opened SimFacts
  import opened Mediator
  import opened FakeHash
  import opened Translator
  import opened Simulation

  // ---------- What the translator emits ----------
  // Only the parameters that the theorems depend on are fixed; they hold for all values of the others
  // (mode, permissions, owner, group, flags, and the caller of the calls that name a path).

  /** translate_proc: process 0 is INIT. */
  function ProcOf(pid: int): Proc {
    if pid == 0 then INIT else Proc(pid)
  }

  /** The caller is the process of the call's pid, and what it opens has the number returned. */
  predicate SentBy(c: Call, e: Event) {
    && (c.Open? || c.Creat? ==> Opens(e) && e.proc == ProcOf(c.pid) && e.fdNumber == c.fd)
    && (c.Fchmod? ==> e.Fchmod? && e.proc == ProcOf(c.pid))
    && (c.Fchown? ==> e.Fchown? && e.proc == ProcOf(c.pid))
    && (c.Close? ==> e.Close? && e.proc == ProcOf(c.pid))
    && (c.Exit? ==> e.Exit? && e.proc == ProcOf(c.pid))
    && (c.Chdir? ==> e.Chdir? && e.proc == ProcOf(c.pid))
  }

  ghost predicate EmitsCreation(m: MState, root: Ino, path: string, file: Ino, meta: Hash, e: Event, h: Hashes) {
    && Creates(e) && !e.Symlink?
    && CreatedFile(e) == FileOf(root, file) && e.parent == At(m.path2ino, root, Dirname(path))
    && e.name == Basename(path)
    && h.content == "" && h.meta == meta
  }

  /** The descriptor is closed for good if no other process has one with the same number. */
  predicate LastOfItsNumber(m: MState, k: ProcFD) {
    forall j :: j in m.fd2ino && j.fd == k.fd ==> j.proc == k.proc
  }

  function ClosedKeys(m: MState, ks: set<ProcFD>): set<ProcFD> {
    set k | k in ks && LastOfItsNumber(m, k)
  }

  /** The old hashes come from the integrity table, the new ones from the monitor or the cache. */
  function CloseArguments(m: MState, file: Ino, content: Option<Hash>, given: Option<Hash>): Hashes {
    var now := CloseHashes(m, file, content, given);
    Hashes(now.content, now.meta, m.IntegrityOf(file).content, m.IntegrityOf(file).meta)
  }

  ghost predicate EmitsLink(m: MState, root: Ino, path: string, newPath: string, e: Event) {
    && e.Link? && e.file == At(m.path2ino, root, path)
    && e.oldParent == At(m.path2ino, root, Dirname(path)) && e.oldName == Basename(path)
    && e.newParent == At(m.path2ino, root, Dirname(newPath)) && e.newName == Basename(newPath)
  }

  /** The event of a call that emits one. */
  ghost predicate EmitsOne(m: MState, root: Ino, c: Call, e: Event, h: Hashes) {
    match c
    case Open(path, pid, fd, file, uid, gid, perms) =>
      && Opens(e) && e.fd == FD(pid, fd)
      && if path in m.path2ino
         then (e.OpenExists? || e.OpenatExists?) && e.file == At(m.path2ino, root, path)
              && e.parent == At(m.path2ino, root, Dirname(path)) && e.name == Basename(path)
         else EmitsCreation(m, root, path, file, Fake(uid, gid, perms), e, h)
    case Creat(path, pid, fd, file, uid, gid, perms) =>
      e.OpenCreate? && e.fd == FD(pid, fd) && EmitsCreation(m, root, path, file, Fake(uid, gid, perms), e, h)
    case Mkdir(path, file, uid, gid, perms) =>
      e.Mkdir? && EmitsCreation(m, root, path, file, Fake(uid, gid, perms), e, h)
    case Chmod(path, perms, given) =>
      && path in m.path2ino && m.path2ino[path] in m.stats
      && e.Chmod? && e.file == At(m.path2ino, root, path) && h.meta == ChmodHash(m, m.path2ino[path], perms, given)
    case Fchmod(pid, fd, perms, given) =>
      && ProcFD(pid, fd) in m.fd2ino && m.fd2ino[ProcFD(pid, fd)] in m.stats
      && e.Fchmod? && e.fd == FD(pid, fd) && h.meta == ChmodHash(m, m.fd2ino[ProcFD(pid, fd)], perms, given)
    case Chown(path, owner, group, perms, given) =>
      && path in m.path2ino && m.path2ino[path] in m.stats
      && e.Chown? && e.file == At(m.path2ino, root, path)
      && h.meta == ChownHash(m, m.path2ino[path], owner, group, perms, given)
    case Fchown(pid, fd, owner, group, perms, given) =>
      && ProcFD(pid, fd) in m.fd2ino && m.fd2ino[ProcFD(pid, fd)] in m.stats
      && e.Fchown? && e.fd == FD(pid, fd)
      && h.meta == ChownHash(m, m.fd2ino[ProcFD(pid, fd)], owner, group, perms, given)
    case Link(path, newPath) => EmitsLink(m, root, path, newPath, e)
    case Close(pid, fd, content, given) =>
      && ProcFD(pid, fd) in m.fd2ino
      && e.Close? && e.fd == FD(pid, fd) && e.fds == FdsOfKeys(ClosedKeys(m, {ProcFD(pid, fd)}))
      && h == CloseArguments(m, m.fd2ino[ProcFD(pid, fd)], content, given)
    case Exit(pid) =>
      e.Exit? && e.fds == FdsOfKeys(ClosedKeys(m, FdsOf(m, pid)))
    case Unlink(path) =>
      && path in m.path2ino && m.path2ino[path] in m.stats
      && e.Unlink? && e.file == At(m.path2ino, root, path)
      && e.parent == At(m.path2ino, root, Dirname(path)) && e.name == Basename(path)
      && e.files == if m.stats[m.path2ino[path]].nlink == 1 then {e.file} else {}
    case Rmdir(path) =>
      && e.Rmdir? && e.folder == At(m.path2ino, root, path)
      && e.parent == At(m.path2ino, root, Dirname(path)) && e.name == Basename(path)
    case Chdir(pid, path) => e.Chdir? && e.dir == At(m.path2ino, root, path)
    case InitFolder(_, _, _, _, _) => false
    case InitFile(path, file, _, _, _, _, _) =>
      file in m.path2ino.Values && EmitsLink(m, root, PathOf(m, file), path, e)
    case SetModes(_) => false
  }

  /** The condition, on the mediator's own tables, under which a call that the machine accepts keeps the
      two sides together: nothing is created at "/"; what is unlinked has one link; and what is closed
      in FIX mode still has a path, and at an exit was measured as it is. */
  ghost predicate Covered(m: MState, root: Ino, c: Call) {
    match c
    case Creat(path, _, _, _, _, _, _) => path != "/"
    case Mkdir(path, _, _, _, _) => path != "/"
    case InitFolder(path, _, _, _, _) => path != "/"
    case InitFile(path, _, _, _, _, _, _) => path != "/"
    case Unlink(path) => path in m.path2ino && m.path2ino[path] in m.stats ==> m.stats[m.path2ino[path]].nlink == 1
    case Close(pid, fd, _, _) =>
      m.BothFix() && ProcFD(pid, fd) in m.fd2ino ==> m.fd2ino[ProcFD(pid, fd)] in m.path2ino.Values
    case Exit(pid) => m.BothFix() ==> ExitIsMeasured(m, root, FdsOf(m, pid))
    case _ => true
  }

  /** Every inode that the exit closes, except the root, has a path and integrity hashes, its real ones. */
  ghost predicate ExitIsMeasured(m: MState, root: Ino, ks: set<ProcFD>) {
    forall i :: i in InosOf(m, ks) && i != root ==>
      i in m.path2ino.Values && i in m.integrity && m.integrity[i] == m.RealOf(i)
  }

  // ---------- One event ----------

  /** m' and s' follow m and s, event e having been accepted. */
  ghost predicate Follows(m: MState, s: Ima, e: Event, h: Hashes, s': Ima, root: Ino) {
    Sim(m, s, root) && Stepped(s, e, h, s')
  }

  /** No event takes a path away, except unlink and rmdir. */
  lemma KeptNames(m: MState, s: Ima, e: Event, h: Hashes, s': Ima, root: Ino)
    requires Follows(m, s, e, h, s', root) && !e.Unlink? && !e.Rmdir? && (Creates(e) ==> e.Symlink?)
    ensures SimNames(m.path2ino, s'.dac.tree, root)
  {
    NamesStay(m.path2ino, s.dac.tree, s'.dac.tree, root);
  }

  /** No event takes a descriptor away, except those that name it. */
  lemma KeptDescs(m: MState, s: Ima, e: Event, h: Hashes, s': Ima, root: Ino)
    requires Follows(m, s, e, h, s', root) && (Closes(e) ==> e.fds == {})
    ensures SimDescs(m.fd2ino, s'.dac.descs, s'.dac.tree.symLinks, root)
  {
    DescsStay(m.fd2ino, m.fd2ino, s.dac.descs, s'.dac.descs, s.dac.tree.symLinks, s'.dac.tree.symLinks, root);
  }

  /** The tables change only with new and removed files, new metadata and closes. */
  lemma KeptHashes(m: MState, s: Ima, e: Event, h: Hashes, s': Ima, root: Ino)
    requires Follows(m, s, e, h, s', root) && MetaTarget(s.dac, e) == None
    requires !Creates(e) && !e.Unlink? && !e.Rmdir? && !e.Close?
    ensures SimHashes(m.realHashes, m.integrity, s', root)
  {
    HashesOfGone(m.realHashes, m.realHashes, m.integrity, s, s', root);
  }

  lemma CreatedDescs(m: MState, s: Ima, e: Event, h: Hashes, s': Ima, root: Ino, file: Ino)
    requires Follows(m, s, e, h, s', root) && Creates(e) && !e.Symlink? && CreatedFile(e) == FileOf(root, file)
    ensures
      var fds' := if Opens(e) then m.fd2ino[ProcFD(e.fd.owner, e.fd.num) := file] else m.fd2ino;
      SimDescs(fds', s'.dac.descs, s'.dac.tree.symLinks, root)
  {
    if Opens(e) {
      DescsGrow(m.fd2ino, s.dac.descs, s'.dac.descs, s.dac.tree.symLinks, root, ProcFD(e.fd.owner, e.fd.num), file);
    } else {
      KeptDescs(m, s, e, h, s', root);
    }
  }

  /** A new file; if the event opens it, the mediator has the descriptor as well. */
  lemma CreationFollows(m: MState, s: Ima, e: Event, h: Hashes, s': Ima, root: Ino, path: string, file: Ino,
                        meta: Hash, m': MState)
    requires Follows(m, s, e, h, s', root) && EmitsCreation(m, root, path, file, meta, e, h)
    requires path != "/" && Dirname(path) in m.path2ino
    requires m'.path2ino == m.path2ino[path := file] && m'.stats.Keys == m.stats.Keys + {file}
    requires m'.realHashes == m.realHashes[file := FileHash("", meta)]
    requires m'.integrity == m.integrity && m'.imaMode == m.imaMode && m'.evmMode == m.evmMode
    requires m'.fd2ino == if Opens(e) then m.fd2ino[ProcFD(e.fd.owner, e.fd.num) := file] else m.fd2ino
    ensures path !in m.path2ino && Sim(m', s', root)
  {
    assert FileOf(root, file) !in s.Files();
    NamesGrow(m.path2ino, s.dac.tree, s'.dac.tree, root, path, file);
    HashesOfNew(m.realHashes, m.integrity, s, s', root, file, h);
    CreatedDescs(m, s, e, h, s', root, file);
  }

  /** An existing file is opened. */
  lemma OpeningFollows(m: MState, s: Ima, e: Event, h: Hashes, s': Ima, root: Ino, path: string, k: ProcFD)
    requires Follows(m, s, e, h, s', root) && (e.OpenExists? || e.OpenatExists?)
    requires path in m.path2ino && e.file == At(m.path2ino, root, path) && e.fd == FdOf(k)
    ensures Sim(m.(fd2ino := m.fd2ino[k := m.path2ino[path]]), s', root)
  {
    assert PathShadowed(m.path2ino, s.dac.tree, root, path);
    KeptNames(m, s, e, h, s', root);
    KeptHashes(m, s, e, h, s', root);
    DescsGrow(m.fd2ino, s.dac.descs, s'.dac.descs, s.dac.tree.symLinks, root, k, m.path2ino[path]);
  }

  lemma TargetedIsPlain(s: Dac, e: Event)
    requires MetaTarget(s, e).Some?
    ensures !Creates(e) && !Closes(e) && !e.Unlink? && !e.Rmdir? && !e.Symlink? && !e.Link?
  {
  }

  /** The tables after a call of the chmod or chown family. */
  lemma MetaTables(s: Ima, e: Event, h: Hashes, s': Ima, f: File)
    requires Stepped(s, e, h, s') && MetaTarget(s.dac, e) == Some(f)
    requires !Creates(e) && !Closes(e) && !e.Unlink? && !e.Rmdir? && !e.Symlink? && !e.Link?
    ensures s'.meta == s.meta[f := h.meta] && s'.content == s.content
    ensures s'.imaHash == s.imaHash && s'.evmHash == s.evmHash
    ensures s'.Files() == s.Files() && s'.dac.tree.symLinks == s.dac.tree.symLinks
  {
  }

  lemma MetaHashes(m: MState, s: Ima, e: Event, h: Hashes, s': Ima, root: Ino, i: Ino)
    requires Follows(m, s, e, h, s', root) && MetaTarget(s.dac, e) == Some(FileOf(root, i))
    requires i in m.stats && i in m.realHashes
    ensures SimHashes(m.realHashes[i := FileHash(m.realHashes[i].content, h.meta)], m.integrity, s', root)
  {
    TargetedIsPlain(s.dac, e);
    MetaTables(s, e, h, s', FileOf(root, i));
    HashesOfMeta(m.realHashes, m.integrity, s, s', root, i, h.meta);
  }

  /** A call of the chmod or chown family. */
  lemma MetaFollows(m: MState, s: Ima, e: Event, h: Hashes, s': Ima, root: Ino, i: Ino, m': MState)
    requires Follows(m, s, e, h, s', root) && MetaTarget(s.dac, e) == Some(FileOf(root, i))
    requires i in m.stats && i in m.realHashes
    requires m'.stats.Keys == m.stats.Keys
    requires m' == m.(stats := m'.stats, realHashes := m.realHashes[i := FileHash(m.realHashes[i].content, h.meta)])
    ensures Sim(m', s', root)
  {
    TargetedIsPlain(s.dac, e);
    MetaHashes(m, s, e, h, s', root, i);
    KeptNames(m, s, e, h, s', root);
    KeptDescs(m, s, e, h, s', root);
  }

  lemma LinkFollows(m: MState, s: Ima, e: Event, h: Hashes, s': Ima, root: Ino, path: string, newPath: string,
                    m': MState)
    requires Follows(m, s, e, h, s', root) && EmitsLink(m, root, path, newPath, e)
    requires path in m.path2ino && newPath !in m.path2ino && Dirname(newPath) in m.path2ino
    requires m'.stats.Keys == m.stats.Keys
    requires m' == m.(path2ino := m.path2ino[newPath := m.path2ino[path]], stats := m'.stats)
    ensures Sim(m', s', root)
  {
    assert PathShadowed(m.path2ino, s.dac.tree, root, path);
    NamesGrow(m.path2ino, s.dac.tree, s'.dac.tree, root, newPath, m.path2ino[path]);
    KeptDescs(m, s, e, h, s', root);
    KeptHashes(m, s, e, h, s', root);
  }

  /** Events that the mediator does not record, except in the working directories. */
  predicate Quiet(e: Event) {
    || (e.Execve? && e.fds == {}) || e.Chdir? || e.Fchdir? || e.Getdents? || e.Getxattr? || e.Setxattr?
    || e.Umask? || e.Login? || e.CreateUser? || e.CreateGroup? || e.ChangeCapabilities? || e.SetAcl?
  }

  lemma UntouchedFollows(m: MState, s: Ima, e: Event, h: Hashes, s': Ima, root: Ino, m': MState)
    requires Follows(m, s, e, h, s', root) && MetaTarget(s.dac, e) == None && (Closes(e) ==> e.fds == {})
    requires !Creates(e) && !e.Unlink? && !e.Rmdir? && !e.Close?
    requires m' == m.(cwd := m'.cwd)
    ensures Sim(m', s', root)
  {
    KeptNames(m, s, e, h, s', root);
    KeptDescs(m, s, e, h, s', root);
    KeptHashes(m, s, e, h, s', root);
  }

  lemma QuietTouchesNothing(s: Dac, e: Event)
    requires Quiet(e)
    ensures MetaTarget(s, e) == None && (Closes(e) ==> e.fds == {})
    ensures !Creates(e) && !e.Unlink? && !e.Rmdir? && !e.Close?
  {
  }

  lemma QuietFollows(m: MState, s: Ima, e: Event, h: Hashes, s': Ima, root: Ino, m': MState)
    requires Follows(m, s, e, h, s', root) && Quiet(e) && m' == m.(cwd := m'.cwd)
    ensures Sim(m', s', root)
  {
    QuietTouchesNothing(s.dac, e);
    UntouchedFollows(m, s, e, h, s', root, m');
  }

  lemma SymlinkFollows(m: MState, s: Ima, e: Event, h: Hashes, s': Ima, root: Ino)
    requires Follows(m, s, e, h, s', root) && e.Symlink?
    ensures Sim(m, s', root)
  {
    KeptNames(m, s, e, h, s', root);
    KeptDescs(m, s, e, h, s', root);
    HashesWithLink(m.realHashes, m.integrity, s, s', root, e.file, h);
  }

  lemma ClosedDescs(m: MState, s: Ima, e: Event, h: Hashes, s': Ima, root: Ino, ks: set<ProcFD>)
    requires Follows(m, s, e, h, s', root) && (e.Close? || e.Exit?) && e.fds <= FdsOfKeys(ks)
    ensures SimDescs(m.fd2ino - ks, s'.dac.descs, s'.dac.tree.symLinks, root)
  {
    forall k | k in m.fd2ino && k !in ks
      ensures FdOf(k) !in e.fds
    {
      assert forall j :: j in ks ==> FdOf(j) != FdOf(k);
    }
    DescsStay(m.fd2ino, m.fd2ino - ks, s.dac.descs, s'.dac.descs, s.dac.tree.symLinks, s'.dac.tree.symLinks, root);
  }

  lemma PathsExist(m: MState, s: Ima, root: Ino, i: Ino)
    requires Sim(m, s, root) && Basics(s.dac.tree) && i in m.path2ino.Values
    ensures FileOf(root, i) in s.Files()
  {
    var p :| p in m.path2ino && m.path2ino[p] == i;
    FileAtExists(m.path2ino, s.dac.tree, root, p);
  }

  lemma ClosedHashes(m: MState, s: Ima, e: Event, h: Hashes, s': Ima, root: Ino, k: ProcFD)
    requires Follows(m, s, e, h, s', root) && e.Close? && k in m.fd2ino && e.fd == FdOf(k)
    requires m.BothFix() ==> FileOf(root, m.fd2ino[k]) in s.Files()
    ensures
      var known := FileHash(h.content, h.meta);
      SimHashes(m.realHashes[m.fd2ino[k] := known],
                if m.BothFix() then m.integrity[m.fd2ino[k] := known] else m.integrity, s', root)
  {
    assert DescShadowed(m.fd2ino, s.dac.descs, s.dac.tree.symLinks, root, k);
    var i := m.fd2ino[k];
    if FileOf(root, i) in s.Files() {
      HashesOfClose(m.realHashes, m.integrity, s, s', root, i, h);
    } else {
      HashesOfGone(m.realHashes, m.realHashes[i := FileHash(h.content, h.meta)], m.integrity, s, s', root);
    }
  }

  lemma CloseFollows(m: MState, s: Ima, e: Event, h: Hashes, s': Ima, root: Ino, k: ProcFD)
    requires Follows(m, s, e, h, s', root) && e.Close? && k in m.fd2ino && e.fd == FdOf(k)
    requires e.fds <= FdsOfKeys({k})
    requires m.BothFix() ==> m.fd2ino[k] in m.path2ino.Values
    requires DoClose(m, k, FileHash(h.content, h.meta)).status == Ok
    ensures Sim(DoClose(m, k, FileHash(h.content, h.meta)).m, s', root)
  {
    if m.BothFix() {
      PathsExist(m, s, root, m.fd2ino[k]);
    }
    KeptNames(m, s, e, h, s', root);
    ClosedDescs(m, s, e, h, s', root, {k});
    ClosedHashes(m, s, e, h, s', root, k);
  }

  /** An inode without a path that is open has no file any more. */
  lemma PathlessIsGone(m: MState, s: Ima, root: Ino, k: ProcFD)
    requires Sim(m, s, root) && k in m.fd2ino && m.fd2ino[k] !in m.path2ino.Values
    ensures m.fd2ino[k] != root && FileOf(root, m.fd2ino[k]) !in s.Files()
  {
    assert m.path2ino["/"] in m.path2ino.Values;
    assert DescShadowed(m.fd2ino, s.dac.descs, s.dac.tree.symLinks, root, k);
    assert !Tracked(s.dac.tree, m.fd2ino[k]);
  }

  lemma CloseOfGoneBreaks(m: MState, s: Ima, e: Event, h: Hashes, s': Ima, root: Ino, k: ProcFD)
    requires Follows(m, s, e, h, s', root) && e.Close? && k in m.fd2ino && m.BothFix()
    requires m.fd2ino[k] !in m.path2ino.Values && DoClose(m, k, FileHash(h.content, h.meta)).status == Ok
    ensures !Sim(DoClose(m, k, FileHash(h.content, h.meta)).m, s', root)
  {
    PathlessIsGone(m, s, root, k);
    var m' := DoClose(m, k, FileHash(h.content, h.meta)).m;
    assert !HashShadowed(m'.realHashes, m'.integrity, s', m.fd2ino[k]);
  }

  /** An accepted close keeps the two sides together exactly if, in FIX mode, the inode has a path. */
  lemma CloseFollowsIff(m: MState, s: Ima, e: Event, h: Hashes, s': Ima, root: Ino, k: ProcFD)
    requires Follows(m, s, e, h, s', root) && e.Close? && k in m.fd2ino && e.fd == FdOf(k)
    requires e.fds <= FdsOfKeys({k}) && DoClose(m, k, FileHash(h.content, h.meta)).status == Ok
    ensures Sim(DoClose(m, k, FileHash(h.content, h.meta)).m, s', root) <==>
      (m.BothFix() ==> m.fd2ino[k] in m.path2ino.Values)
  {
    hide Sim, Stepped;
    if m.BothFix() && m.fd2ino[k] !in m.path2ino.Values {
      CloseOfGoneBreaks(m, s, e, h, s', root, k);
    } else {
      CloseFollows(m, s, e, h, s', root, k);
    }
  }

  /** Outside FIX an exit changes nothing that is stored for an existing file; in FIX, nothing exactly if
      the closed inodes were measured as they are. */
  lemma ExitHashesIff(m: MState, s: Ima, root: Ino, ks: set<ProcFD>, s': Ima)
    requires Sim(m, s, root) && SameTables(s, s') && Basics(s.dac.tree) && ks <= m.fd2ino.Keys
    ensures SimHashes(AfterClosing(m, ks).realHashes, AfterClosing(m, ks).integrity, s', root) <==>
      (m.BothFix() ==> ExitIsMeasured(m, root, ks))
  {
    var m' := AfterClosing(m, ks);
    if SimHashes(m'.realHashes, m'.integrity, s', root) && m.BothFix() {
      forall i | i in InosOf(m, ks) && i != root
        ensures i in m.path2ino.Values && i in m.integrity && m.integrity[i] == m.RealOf(i)
      {
        ClosedInoIsPlain(m, s, root, ks, i);
        assert HashShadowed(m.realHashes, m.integrity, s, i) && HashShadowed(m'.realHashes, m'.integrity, s', i);
        assert Tracked(s.dac.tree, i);
      }
    }
    if m.BothFix() ==> ExitIsMeasured(m, root, ks) {
      forall i | i != root
        ensures HashShadowed(m'.realHashes, m'.integrity, s', i)
      {
        assert HashShadowed(m.realHashes, m.integrity, s, i);
        ExitedHash(m, s, root, ks, i);
      }
    }
  }

  lemma ClosedInoIsPlain(m: MState, s: Ima, root: Ino, ks: set<ProcFD>, i: Ino)
    requires Sim(m, s, root) && i in InosOf(m, ks) && i != root
    ensures Inode(i.dev, i.ino) !in s.dac.tree.symLinks
  {
    var k :| k in ks && k in m.fd2ino && m.fd2ino[k] == i;
    assert DescShadowed(m.fd2ino, s.dac.descs, s.dac.tree.symLinks, root, k);
  }

  /** Such an exit stores for a file that exists what was stored, and integrity hashes for no other. */
  lemma ExitedHash(m: MState, s: Ima, root: Ino, ks: set<ProcFD>, i: Ino)
    requires Sim(m, s, root) && Basics(s.dac.tree) && i != root && (m.BothFix() ==> ExitIsMeasured(m, root, ks))
    ensures
      var m' := AfterClosing(m, ks);
      && (i in m.realHashes ==> i in m'.realHashes && m'.realHashes[i] == m.realHashes[i])
      && (i in m'.integrity <==> i in m.integrity) && (i in m.integrity ==> m'.integrity[i] == m.integrity[i])
  {
  }

  /** An accepted exit keeps the two sides together exactly if, in FIX mode, what it closes was measured. */
  lemma ExitFollowsIff(m: MState, s: Ima, e: Event, h: Hashes, s': Ima, root: Ino, pid: int)
    requires Follows(m, s, e, h, s', root) && e.Exit? && e.fds <= FdsOfKeys(FdsOf(m, pid))
    ensures Sim(AfterClosing(m, FdsOf(m, pid)), s', root) <==>
      (m.BothFix() ==> ExitIsMeasured(m, root, FdsOf(m, pid)))
  {
    KeptNames(m, s, e, h, s', root);
    ClosedDescs(m, s, e, h, s', root, FdsOf(m, pid));
    ExitHashesIff(m, s, root, FdsOf(m, pid), s');
  }

  /** The last name of a file goes, or an empty folder. */
  ghost predicate Removes(m: MState, e: Event, root: Ino, path: string) {
    && path in m.path2ino && path != "/"
    && (if e.Unlink? then e.files == {e.file} && e.file == At(m.path2ino, root, path)
        else e.Rmdir? && e.folder == At(m.path2ino, root, path))
    && e.parent == At(m.path2ino, root, Dirname(path)) && e.name == Basename(path)
  }

  lemma RemovedNames(m: MState, s: Ima, e: Event, h: Hashes, s': Ima, root: Ino, path: string)
    requires Follows(m, s, e, h, s', root) && Removes(m, e, root, path)
    ensures SimNames(m.path2ino - {path}, s'.dac.tree, root)
  {
    NamesShrink(m.path2ino, s.dac.tree, s'.dac.tree, root, path);
  }

  lemma RemovedHashes(m: MState, s: Ima, e: Event, h: Hashes, s': Ima, root: Ino, path: string)
    requires Follows(m, s, e, h, s', root) && Removes(m, e, root, path)
    ensures
      var i := m.path2ino[path];
      SimHashes(m.realHashes - {i}, m.integrity - {i}, s', root)
  {
    FileAtExists(m.path2ino, s.dac.tree, root, path);
    var f := At(m.path2ino, root, path);
    assert s'.dac.tree.symLinks - {f} == s.dac.tree.symLinks - {f};
    HashesOfRemoved(m.realHashes, m.integrity, s, s', root, m.path2ino[path]);
  }

  lemma RemovalFollows(m: MState, s: Ima, e: Event, h: Hashes, s': Ima, root: Ino, path: string)
    requires Follows(m, s, e, h, s', root) && Removes(m, e, root, path)
    requires DoRemove(m, path).status == Ok
    ensures Sim(DoRemove(m, path).m, s', root)
  {
    RemovedNames(m, s, e, h, s', root, path);
    RemovedHashes(m, s, e, h, s', root, path);
    KeptDescs(m, s, e, h, s', root);
  }

  lemma UnlinkOfNamedBreaks(m: MState, s: Ima, e: Event, h: Hashes, s': Ima, root: Ino, path: string)
    requires Follows(m, s, e, h, s', root) && e.Unlink? && e.files == {} && path in m.path2ino && path != "/"
    requires DoRemove(m, path).status == Ok
    ensures !Sim(DoRemove(m, path).m, s', root)
  {
    FileAtExists(m.path2ino, s.dac.tree, root, path);
    assert PathShadowed(m.path2ino, s.dac.tree, root, path);
    var m' := DoRemove(m, path).m;
    assert !HashShadowed(m'.realHashes, m'.integrity, s', m.path2ino[path]);
  }

  /** A new file that the mediator does not enter, or enters in the place of the root. */
  lemma CreationAtRootBreaks(m: MState, s: Ima, e: Event, h: Hashes, s': Ima, root: Ino, path: string, file: Ino,
                             meta: Hash, m': MState)
    requires Follows(m, s, e, h, s', root) && EmitsCreation(m, root, path, file, meta, e, h)
    requires m'.path2ino == m.path2ino || m'.path2ino == m.path2ino["/" := file]
    ensures !Sim(m', s', root)
  {
    assert FileOf(root, file) !in s.Files();
    if m'.path2ino == m.path2ino && file in m.path2ino.Values {
      PathsExist(m, s, root, file);
    }
    assert Tracked(s'.dac.tree, file);
  }

  lemma ForcedFollows(m: MState, s: Ima, root: Ino, i: Ino, ima: Hash, evm: Hash)
    requires Sim(m, s, root) && FileOf(root, i) in s.Files()
    ensures
      Sim(m.(integrity := m.integrity[i := FileHash(ima, evm)]),
          s.(imaHash := s.imaHash[FileOf(root, i) := ima], evmHash := s.evmHash[FileOf(root, i) := evm]), root)
  {
    HashesOfForced(m.realHashes, m.integrity, s, root, i, ima, evm);
  }
}
