/** _replay_setup of testing/spec_impl.py: the snapshot's folders, sorted, and then its files are
    entered into the mediator; every lookup of a parent folder succeeds. */
module Setup {
  import opened Context
  import opened PosixPath
  import opened Snapshot
  import opened Mediator
  import opened Translator
  import opened FakeHash

  /** The paths in the order in which the setup enters them. */
  function PathsInOrder(l: Lists): seq<string> {
    l.dirs + l.files
  }

  /** One call for every path: folders first. The inodes are those that stat found; none is the root. */
  ghost predicate IsSetup(l: Lists, root: Ino, cs: seq<Call>) {
    && |cs| == |l.dirs| + |l.files|
    && forall k :: 0 <= k < |cs| ==>
      && (if k < |l.dirs| then cs[k].InitFolder? else cs[k].InitFile?)
      && cs[k].path == PathsInOrder(l)[k] && cs[k].file != root
  }

  /** A snapshot as the builder leaves it, sorted; folders and files are different paths below "/". */
  ghost predicate Enterable(l: Lists) {
    && WellBuilt(l) && ParentsFirst(l.dirs)
    && "/" !in l.dirs && "/" !in l.files
    && forall p :: p in l.dirs ==> p !in l.files
  }

  /** Every tracked inode has integrity hashes, and they are its real ones. */
  ghost predicate Measured(m: MState) {
    forall i :: i in m.stats ==> i in m.realHashes && i in m.integrity && m.integrity[i] == m.realHashes[i]
  }

  ghost predicate SetupInv(m: MState, l: Lists, root: Ino, k: nat)
    requires k <= |PathsInOrder(l)|
  {
    && StatsExact(m, root) && m.fd2ino == map[]
    && (forall p :: p in m.path2ino <==> p == "/" || p in PathsInOrder(l)[..k])
    && (forall p :: p in m.path2ino ==> IsAbs(p))
  }

  lemma PathIsNew(m: MState, l: Lists, root: Ino, k: nat)
    requires Enterable(l) && k < |PathsInOrder(l)| && SetupInv(m, l, root, k)
    ensures PathsInOrder(l)[k] !in m.path2ino && SingleRooted(PathsInOrder(l)[k])
  {
  }

  /** The parent folder of the next path has been entered. */
  lemma ParentIsThere(m: MState, l: Lists, root: Ino, k: nat)
    requires Enterable(l) && k < |PathsInOrder(l)| && SetupInv(m, l, root, k)
    ensures Dirname(PathsInOrder(l)[k]) in m.path2ino
  {
    var all := PathsInOrder(l);
    var p := all[k];
    if Dirname(p) != "/" {
      if k < |l.dirs| {
        assert FolderListed(l.dirs[k], l.dirs[..k]);
        assert all[..k] == l.dirs[..k];
      } else {
        assert p in l.files;
        assert FolderListed(p, l.dirs);
        var i :| 0 <= i < |l.dirs| && l.dirs[i] == Dirname(p);
        assert all[..k][i] == Dirname(p);
      }
    }
  }

  /** What entering one path does, whatever kind it has. */
  ghost predicate Entered(m: MState, c: Call, m': MState) {
    && (c.InitFolder? || c.InitFile?)
    && m'.path2ino == m.path2ino[c.path := c.file] && m'.fd2ino == m.fd2ino
    && m'.imaMode == m.imaMode && m'.evmMode == m.evmMode
    && (m.BothFix() && Measured(m) ==> Measured(m'))
  }

  lemma EnterFolder(m: MState, c: Call)
    requires c.InitFolder? && IsAbs(c.path)
    ensures
      var r := InitFolderHashes(m, c.path, c.file, c.uid, c.gid, c.perms);
      r.status == Ok && Entered(m, c, r.m)
  {
  }

  lemma EnterFile(m: MState, c: Call)
    requires c.InitFile? && IsAbs(c.path) && m.fd2ino == map[] && c.file !in m.path2ino.Values
    ensures
      var r := InitNewFile(m, c.path, c.file, c.uid, c.gid, c.perms, c.contentHash, c.metaHash);
      r.status == Ok && Entered(m, c, r.m)
  {
    var made := NewFile(m, c.path, c.file, c.uid, c.gid, c.perms, RegularFile,
                        FileHash("", Fake(0, 0, MODE_0777))).m;
    assert made.path2ino[c.path] in made.path2ino.Values;
    var r := InitNewFile(m, c.path, c.file, c.uid, c.gid, c.perms, c.contentHash, c.metaHash);
    assert r.m.fd2ino == m.fd2ino;
  }

  lemma EnterLink(m: MState, root: Ino, c: Call)
    requires c.InitFile? && StatsExact(m, root) && c.file in m.path2ino.Values && c.file != root
    requires IsAbs(c.path) && c.path !in m.path2ino && forall p :: p in m.path2ino ==> IsAbs(p)
    ensures
      var r := DoLink(m, PathOf(m, c.file), c.path);
      r.status == Ok && Entered(m, c, r.m)
  {
  }

  lemma EnterOne(m: MState, root: Ino, c: Call)
    requires (c.InitFolder? || c.InitFile?) && StatsExact(m, root) && c.file != root
    requires IsAbs(c.path) && c.path !in m.path2ino && Dirname(c.path) in m.path2ino
    requires m.fd2ino == map[] && forall p :: p in m.path2ino ==> IsAbs(p)
    ensures
      var r := Perform(m, c);
      r.status == Ok && Entered(m, c, r.m)
  {
    if c.InitFolder? {
      EnterFolder(m, c);
    } else if c.file in m.path2ino.Values {
      EnterLink(m, root, c);
    } else {
      EnterFile(m, c);
    }
  }

  lemma InvGrows(m: MState, c: Call, m': MState, l: Lists, root: Ino, k: nat)
    requires k < |PathsInOrder(l)| && SetupInv(m, l, root, k) && Entered(m, c, m') && StatsExact(m', root)
    requires c.path == PathsInOrder(l)[k] && IsAbs(c.path)
    ensures SetupInv(m', l, root, k + 1)
  {
  }

  lemma EnterNext(m: MState, l: Lists, root: Ino, cs: seq<Call>, k: nat)
    requires Enterable(l) && IsSetup(l, root, cs) && k < |cs| && SetupInv(m, l, root, k)
    ensures
      var r := Perform(m, cs[k]);
      && r.status == Ok && SetupInv(r.m, l, root, k + 1) && Entered(m, cs[k], r.m)
  {
    PathIsNew(m, l, root, k);
    ParentIsThere(m, l, root, k);
    EnterOne(m, root, cs[k]);
    CallKeepsStats(m, root, cs[k]);
    InvGrows(m, cs[k], Perform(m, cs[k]).m, l, root, k);
  }

  /** The whole setup succeeds: every parent lookup finds its folder, and afterwards exactly the
      snapshot's paths and "/" are known. After a setup in FIX mode every inode has integrity hashes
      equal to its real ones. */
  lemma {:induction false} SetupSucceeds(m: MState, l: Lists, root: Ino, cs: seq<Call>, k: nat)
    requires Enterable(l) && IsSetup(l, root, cs) && k <= |cs|
    requires SetupInv(m, l, root, 0)
    ensures
      var r := PerformAll(m, cs[..k]);
      && r.status == Ok && SetupInv(r.m, l, root, k)
      && r.m.imaMode == m.imaMode && r.m.evmMode == m.evmMode
      && (m.BothFix() && Measured(m) ==> Measured(r.m))
  {
    if k > 0 {
      SetupSucceeds(m, l, root, cs, k - 1);
      assert cs[..k][..k - 1] == cs[..k - 1];
      EnterNext(PerformAll(m, cs[..k - 1]).m, l, root, cs, k - 1);
    }
  }

  /** From the lists that any calls of the builder leave, with disjoint paths below "/". */
  lemma ReplaySetupWorks(calls: seq<BuilderCall>, root: Ino, cs: seq<Call>)
    requires forall c :: c in calls ==> Terminates(c.path)
    requires
      var built := AfterAll(calls);
      && "/" !in built.dirs && "/" !in built.files
      && (forall p :: p in built.dirs ==> p !in built.files)
      && IsSetup(built.(dirs := SortLex(built.dirs)), root, cs)
    ensures
      var r := PerformAll(InitialMediator(root), [SetModes(FIX)] + cs);
      && r.status == Ok && StatsExact(r.m, root) && Measured(r.m)
      && (forall p :: p in r.m.path2ino <==> p == "/" || p in AfterAll(calls).dirs || p in AfterAll(calls).files)
  {
    var built := AfterAll(calls);
    var l := built.(dirs := SortLex(built.dirs));
    BuiltListsAreWell(calls);
    SortingPutsParentsFirst(built);
    SortLexKeepsMembers(built.dirs);
    InitialStatsExact(root);
    var m := Perform(InitialMediator(root), SetModes(FIX)).m;
    SetupSucceeds(m, l, root, cs, |cs|);
    assert cs[..|cs|] == cs;
    PerformAllAfter(InitialMediator(root), SetModes(FIX), cs);
    assert PathsInOrder(l)[..|cs|] == PathsInOrder(l);
  }

  lemma {:induction false} PerformAllAfter(m: MState, c: Call, cs: seq<Call>)
    requires Perform(m, c).status == Ok
    ensures PerformAll(m, [c] + cs) == PerformAll(Perform(m, c).m, cs)
  {
    var all := [c] + cs;
    if cs == [] {
      assert all[..|all| - 1] == [];
    } else {
      assert all[..|all| - 1] == [c] + cs[..|cs| - 1];
      PerformAllAfter(m, c, cs[..|cs| - 1]);
    }
  }
}
