/** The mediator's dictionaries shadow the machine: the relation between the two, and what one event
    does to each of its parts. */
module Simulation {
  import opened Context
  import opened PosixPath
  import opened DacState
  import opened DacEvents
  import opened DacSteps
  import opened Ima
  import opened SimFacts
  import opened Mediator

  // ---------- The abstraction map of mediator/builder.py ----------

  /** The root inode is ROOT; every other inode is a file of its own. */
  function FileOf(root: Ino, i: Ino): File {
    if i == root then ROOT else Inode(i.dev, i.ino)
  }

  function FileIfAny(root: Ino, i: Option<Ino>): Option<File> {
    if i.Some? then Some(FileOf(root, i.value)) else None
  }

  function FdOf(k: ProcFD): FD {
    FD(k.proc, k.fd)
  }

  function FdsOfKeys(ks: set<ProcFD>): set<FD> {
    set k | k in ks :: FdOf(k)
  }

  /** The file at a path. */
  function At(paths: map<string, Ino>, root: Ino, p: string): File {
    if p in paths then FileOf(root, paths[p]) else ROOT
  }

  /** The pair of FileParents that stands for a path. */
  function EntryOf(paths: map<string, Ino>, root: Ino, p: string): Entry {
    Entry(At(paths, root, p), At(paths, root, Dirname(p)), Basename(p))
  }

  // ---------- The relation ----------

  ghost predicate PathShadowed(paths: map<string, Ino>, t: Tree, root: Ino, p: string) {
    && p in paths && At(paths, root, p) !in t.symLinks
    && (p != "/" ==> Dirname(p) in paths && EntryOf(paths, root, p) in t.entries)
  }

  /** The mediator keeps track of the inode: its file exists and is no symbolic link. */
  ghost predicate Tracked(t: Tree, i: Ino) {
    Inode(i.dev, i.ino) in t.files && Inode(i.dev, i.ino) !in t.symLinks
  }

  /** Every path is a name in the tree, different paths are different names, and every tracked inode
      has a path. */
  ghost predicate SimNames(paths: map<string, Ino>, t: Tree, root: Ino) {
    && "/" in paths && paths["/"] == root
    && (forall p {:trigger PathShadowed(paths, t, root, p)} :: p in paths ==> PathShadowed(paths, t, root, p))
    && (forall p, q {:trigger EntryOf(paths, root, p), EntryOf(paths, root, q)} ::
          p in paths && q in paths && p != "/" && q != "/" && p != q ==>
            EntryOf(paths, root, p) != EntryOf(paths, root, q))
    && (forall i {:trigger Tracked(t, i)} :: i != root && Tracked(t, i) ==> i in paths.Values)
  }

  ghost predicate DescShadowed(fds: map<ProcFD, Ino>, d: Descs, links: set<File>, root: Ino, k: ProcFD)
    requires k in fds
  {
    && FdOf(k) in d.open && d.open[FdOf(k)].file == FileOf(root, fds[k])
    && FileOf(root, fds[k]) !in links
  }

  /** Every descriptor is open in the machine, on the same file. */
  ghost predicate SimDescs(fds: map<ProcFD, Ino>, d: Descs, links: set<File>, root: Ino) {
    forall k :: k in fds ==> DescShadowed(fds, d, links, root, k)
  }

  /** What the mediator stores for an inode is what the machine has for the file, unless that is a
      symbolic link: the mediator does not track those. */
  ghost predicate HashShadowed(hashes: map<Ino, FileHash>, integrity: map<Ino, FileHash>, s: Ima, i: Ino) {
    var f := Inode(i.dev, i.ino);
    && (i in integrity ==> f in s.Files())
    && (f in s.Files() && f !in s.dac.tree.symLinks ==>
          && i in hashes && f in s.content && f in s.meta
          && hashes[i] == FileHash(s.content[f], s.meta[f])
          && (i in integrity <==> f in s.imaHash) && (i in integrity <==> f in s.evmHash)
          && (i in integrity && f in s.imaHash && f in s.evmHash ==>
                integrity[i] == FileHash(s.imaHash[f], s.evmHash[f])))
  }

  ghost predicate SimHashes(hashes: map<Ino, FileHash>, integrity: map<Ino, FileHash>, s: Ima, root: Ino) {
    forall i :: i != root ==> HashShadowed(hashes, integrity, s, i)
  }

  /** The modes are the same, and FIX only jointly. */
  predicate SimModes(m: MState, s: Ima) {
    && m.imaMode == s.imaMode && m.evmMode == s.evmMode
    && (s.imaMode == FIX <==> s.evmMode == FIX)
  }

  ghost predicate Sim(m: MState, s: Ima, root: Ino) {
    && SimNames(m.path2ino, s.dac.tree, root)
    && SimDescs(m.fd2ino, s.dac.descs, s.dac.tree.symLinks, root)
    && SimHashes(m.realHashes, m.integrity, s, root)
    && SimModes(m, s)
    && root !in m.stats
  }

  // ---------- One accepted event, as far as the relation is concerned ----------

  /** From the types of the tree. */
  ghost predicate Basics(t: Tree) {
    && t.folders <= t.files && t.symLinks <= t.files && ROOT in t.folders && t.symLinks !! t.folders
    && (forall n :: n in t.entries ==> n.file in t.files && n.file != ROOT && n.parent in t.folders)
  }

  ghost predicate HashesStep(s: Ima, e: Event, h: Hashes, s': Ima) {
    && s'.content == ContentAfter(s, e, h) && s'.meta == MetaAfter(s, e, h)
    && s'.imaHash == ImaHashAfter(s, e, h) && s'.evmHash == EvmHashAfter(s, e, h)
    && s'.imaMode == s.imaMode && s'.evmMode == s.evmMode
  }

  ghost predicate Stepped(s: Ima, e: Event, h: Hashes, s': Ima) {
    && ImaTypes(s) && Basics(s.dac.tree)
    && (e.Close? ==> ImaClose(s, e.fd, h))
    && FilesStep(s.dac, e, s'.dac) && ShadowStep(s.dac, e, s'.dac)
    && HashesStep(s, e, h, s')
  }

  lemma BasicsHold(s: Dac)
    requires DacInv(s)
    ensures Basics(s.tree)
  {
  }

  lemma HashesFollow(s: Ima, e: Event, h: Hashes)
    requires ImaInv(s) && ImaGuard(s, Sys(e, h))
    ensures HashesStep(s, e, h, ApplyIma(s, Sys(e, h))) && ApplyIma(s, Sys(e, h)).dac == Apply(s.dac, e)
  {
  }

  lemma CloseIsGuarded(s: Ima, e: Event, h: Hashes)
    requires ImaSysGuard(s, e, h)
    ensures e.Close? ==> ImaClose(s, e.fd, h)
  {
  }

  lemma SysIsStepped(s: Ima, e: Event, h: Hashes)
    requires ImaInv(s) && ImaGuard(s, Sys(e, h))
    ensures Stepped(s, e, h, ApplyIma(s, Sys(e, h)))
  {
    hide DacInv, FilesStep, ShadowStep, HashesStep, Basics, ImaClose;
    BasicsHold(s.dac);
    HashesFollow(s, e, h);
    CloseIsGuarded(s, e, h);
    EveryEventSteps(s.dac, e);
    EveryEventShadow(s.dac, e);
  }

  // ---------- Names ----------

  lemma FileAtExists(paths: map<string, Ino>, t: Tree, root: Ino, p: string)
    requires SimNames(paths, t, root) && Basics(t) && p in paths
    ensures At(paths, root, p) in t.files
    ensures p != "/" ==> At(paths, root, p) != ROOT
  {
    assert PathShadowed(paths, t, root, p);
  }

  /** New names and new symbolic links do not disturb the paths. */
  lemma NamesStay(paths: map<string, Ino>, t: Tree, t': Tree, root: Ino)
    requires SimNames(paths, t, root) && Basics(t)
    requires t.entries <= t'.entries && forall f :: f in t'.symLinks && f in t.files ==> f in t.symLinks
    requires forall f :: f in t'.files && f !in t'.symLinks ==> f in t.files && f !in t.symLinks
    ensures SimNames(paths, t', root)
  {
    forall i | i != root && Tracked(t', i)
      ensures i in paths.Values
    {
      assert Tracked(t, i);
    }
    forall p | p in paths
      ensures PathShadowed(paths, t', root, p)
    {
      assert PathShadowed(paths, t, root, p);
      FileAtExists(paths, t, root, p);
    }
  }

  /** A path whose name is free in the tree is free in the mediator. */
  lemma FreePath(paths: map<string, Ino>, t: Tree, root: Ino, path: string)
    requires SimNames(paths, t, root) && path != "/"
    requires NameFree(t, At(paths, root, Dirname(path)), Basename(path))
    ensures path !in paths
  {
    assert path in paths ==> PathShadowed(paths, t, root, path);
  }

  /** A tracked inode keeps a path where one path is added. */
  lemma PathSurvives(paths: map<string, Ino>, now: map<string, Ino>, t: Tree, root: Ino, path: string, i: Ino)
    requires SimNames(paths, t, root) && path !in paths && path in now && now == paths[path := now[path]]
    requires i != root && (Tracked(t, i) || now[path] == i)
    ensures i in now.Values
  {
    if now[path] == i {
      assert now[path] in now.Values;
    } else {
      assert i in paths.Values;
      var p :| p in paths && paths[p] == i;
      assert now[p] == i;
    }
  }

  lemma NamesGrow(paths: map<string, Ino>, t: Tree, t': Tree, root: Ino, path: string, i: Ino)
    requires SimNames(paths, t, root) && path != "/" && Dirname(path) in paths
    requires NameFree(t, At(paths, root, Dirname(path)), Basename(path))
    requires t'.entries == t.entries + {Entry(FileOf(root, i), At(paths, root, Dirname(path)), Basename(path))}
    requires t'.symLinks == t.symLinks && FileOf(root, i) !in t.symLinks && t'.files <= t.files + {FileOf(root, i)}
    ensures path !in paths
    ensures SimNames(paths[path := i], t', root)
  {
    FreePath(paths, t, root, path);
    var now := paths[path := i];
    forall j | j != root && Tracked(t', j)
      ensures j in now.Values
    {
      PathSurvives(paths, now, t, root, path, j);
    }
    forall p | p in paths
      ensures At(now, root, p) == At(paths, root, p) && PathShadowed(now, t', root, p)
      ensures p != "/" ==> EntryOf(now, root, p) == EntryOf(paths, root, p) && EntryOf(paths, root, p) in t.entries
    {
      assert PathShadowed(paths, t, root, p);
    }
    assert EntryOf(now, root, path) in t'.entries && EntryOf(now, root, path) !in t.entries;
  }

  lemma StillTracked(paths: map<string, Ino>, t: Tree, t': Tree, root: Ino, path: string, i: Ino)
    requires SimNames(paths, t, root) && path in paths && path != "/"
    requires t'.files == t.files - {At(paths, root, path)}
    requires t'.symLinks - {At(paths, root, path)} == t.symLinks - {At(paths, root, path)}
    requires i != root && Tracked(t', i)
    ensures i in paths.Values && paths[path] != i
  {
    var f, gone := Inode(i.dev, i.ino), At(paths, root, path);
    assert f != gone;
    assert f in t'.symLinks - {gone} <==> f in t.symLinks - {gone};
    assert Tracked(t, i);
  }

  lemma NamesShrink(paths: map<string, Ino>, t: Tree, t': Tree, root: Ino, path: string)
    requires SimNames(paths, t, root) && path in paths && path != "/"
    requires t'.entries == t.entries - {EntryOf(paths, root, path)} && t'.symLinks <= t.symLinks
    requires t'.files == t.files - {At(paths, root, path)}
    requires t'.symLinks - {At(paths, root, path)} == t.symLinks - {At(paths, root, path)}
    requires forall n :: n in t.entries ==> n.parent != At(paths, root, path)
    ensures SimNames(paths - {path}, t', root)
  {
    var now := paths - {path};
    forall i | i != root && Tracked(t', i)
      ensures i in now.Values
    {
      StillTracked(paths, t, t', root, path, i);
      var p :| p in paths && paths[p] == i;
      assert now[p] == i;
    }
    forall p | p in now
      ensures PathShadowed(now, t', root, p)
      ensures p != "/" ==> EntryOf(now, root, p) == EntryOf(paths, root, p)
    {
      assert PathShadowed(paths, t, root, p);
      if p != "/" {
        assert EntryOf(paths, root, p) in t.entries && Dirname(p) != path;
      }
    }
  }

  // ---------- Descriptors ----------

  /** Descriptors may go in the mediator; in the machine those that stay are kept. */
  lemma DescsStay(fds: map<ProcFD, Ino>, fds': map<ProcFD, Ino>, d: Descs, d': Descs, links: set<File>,
                  links': set<File>, root: Ino)
    requires SimDescs(fds, d, links, root)
    requires forall k :: k in fds' ==>
      k in fds && fds'[k] == fds[k] && (FdOf(k) in d.open ==> FdOf(k) in d'.open && d'.open[FdOf(k)] == d.open[FdOf(k)])
    requires forall f :: f in links' && f in d.Files() ==> f in links
    ensures SimDescs(fds', d', links', root)
  {
  }

  lemma DescsGrow(fds: map<ProcFD, Ino>, d: Descs, d': Descs, links: set<File>, root: Ino, k: ProcFD, i: Ino)
    requires SimDescs(fds, d, links, root) && FileOf(root, i) !in links
    requires FdOf(k) !in d.open && FdOf(k) in d'.open && d'.open[FdOf(k)].file == FileOf(root, i)
    requires forall fd :: fd in d.open && fd != FdOf(k) ==> fd in d'.open && d'.open[fd] == d.open[fd]
    ensures SimDescs(fds[k := i], d', links, root)
  {
  }

  // ---------- Hashes ----------

  ghost predicate SameTables(s: Ima, s': Ima) {
    && s'.content == s.content && s'.meta == s.meta && s'.imaHash == s.imaHash && s'.evmHash == s.evmHash
    && s'.Files() == s.Files() && s'.dac.tree.symLinks == s.dac.tree.symLinks
  }

  /** symlink enters a file that the mediator does not track. */
  lemma HashesWithLink(hashes: map<Ino, FileHash>, integrity: map<Ino, FileHash>, s: Ima, s': Ima, root: Ino,
                       f: File, h: Hashes)
    requires SimHashes(hashes, integrity, s, root) && ImaTypes(s) && f !in s.Files()
    requires s'.Files() == s.Files() + {f} && s'.dac.tree.symLinks == s.dac.tree.symLinks + {f}
    requires s'.content == s.content[f := h.content] && s'.meta == s.meta[f := h.meta]
    requires s'.imaHash == s.imaHash && s'.evmHash == s.evmHash
    ensures SimHashes(hashes, integrity, s', root)
  {
    forall i | i != root
      ensures HashShadowed(hashes, integrity, s', i)
    {
      assert HashShadowed(hashes, integrity, s, i);
    }
  }

  lemma HashesOfNew(hashes: map<Ino, FileHash>, integrity: map<Ino, FileHash>, s: Ima, s': Ima, root: Ino,
                    i: Ino, h: Hashes)
    requires SimHashes(hashes, integrity, s, root) && ImaTypes(s) && i != root
    requires FileOf(root, i) !in s.Files()
    requires s'.Files() == s.Files() + {FileOf(root, i)} && s'.dac.tree.symLinks == s.dac.tree.symLinks
    requires s'.content == s.content[FileOf(root, i) := h.content] && s'.meta == s.meta[FileOf(root, i) := h.meta]
    requires s'.imaHash == s.imaHash && s'.evmHash == s.evmHash
    ensures SimHashes(hashes[i := FileHash(h.content, h.meta)], integrity, s', root)
  {
    var now := hashes[i := FileHash(h.content, h.meta)];
    forall j | j != root
      ensures HashShadowed(now, integrity, s', j)
    {
      assert HashShadowed(hashes, integrity, s, j);
    }
  }

  /** New metadata of a tracked file. */
  lemma HashesOfMeta(hashes: map<Ino, FileHash>, integrity: map<Ino, FileHash>, s: Ima, s': Ima, root: Ino,
                     i: Ino, meta: Hash)
    requires SimHashes(hashes, integrity, s, root) && i in hashes && i != root
    requires s'.meta == s.meta[FileOf(root, i) := meta] && s'.content == s.content
    requires s'.imaHash == s.imaHash && s'.evmHash == s.evmHash
    requires s'.Files() == s.Files() && s'.dac.tree.symLinks == s.dac.tree.symLinks
    ensures SimHashes(hashes[i := FileHash(hashes[i].content, meta)], integrity, s', root)
  {
    var now := hashes[i := FileHash(hashes[i].content, meta)];
    forall j | j != root
      ensures HashShadowed(now, integrity, s', j)
    {
      assert HashShadowed(hashes, integrity, s, j);
    }
  }

  /** A close of an existing file; in FIX mode the integrity hashes follow on both sides. */
  lemma HashesOfClose(hashes: map<Ino, FileHash>, integrity: map<Ino, FileHash>, s: Ima, s': Ima, root: Ino,
                      i: Ino, h: Hashes)
    requires SimHashes(hashes, integrity, s, root) && (s.imaMode == FIX <==> s.evmMode == FIX)
    requires FileOf(root, i) in s.Files() && (s.imaMode == FIX ==> h.ima == h.content && h.evm == h.meta)
    requires s'.content == s.content[FileOf(root, i) := h.content] && s'.meta == s.meta[FileOf(root, i) := h.meta]
    requires s'.imaHash == if s.imaMode == FIX then s.imaHash[FileOf(root, i) := h.ima] else s.imaHash
    requires s'.evmHash == if s.imaMode == FIX then s.evmHash[FileOf(root, i) := h.evm] else s.evmHash
    requires s'.Files() == s.Files() && s'.dac.tree.symLinks == s.dac.tree.symLinks
    ensures
      var known := FileHash(h.content, h.meta);
      SimHashes(hashes[i := known], if s.imaMode == FIX then integrity[i := known] else integrity, s', root)
  {
    var known := FileHash(h.content, h.meta);
    var integrity' := if s.imaMode == FIX then integrity[i := known] else integrity;
    var hashes' := hashes[i := known];
    forall j | j != root
      ensures HashShadowed(hashes', integrity', s', j)
    {
      assert HashShadowed(hashes, integrity, s, j);
    }
  }

  /** What is stored for a file that is gone does not matter. */
  lemma HashesOfGone(hashes: map<Ino, FileHash>, hashes': map<Ino, FileHash>, integrity: map<Ino, FileHash>,
                     s: Ima, s': Ima, root: Ino)
    requires SimHashes(hashes, integrity, s, root) && SameTables(s, s')
    requires forall i :: i != root && FileOf(root, i) in s.Files() && i in hashes ==> i in hashes' && hashes'[i] == hashes[i]
    ensures SimHashes(hashes', integrity, s', root)
  {
    forall i | i != root
      ensures HashShadowed(hashes', integrity, s', i)
    {
      assert HashShadowed(hashes, integrity, s, i);
    }
  }

  lemma HashesOfRemoved(hashes: map<Ino, FileHash>, integrity: map<Ino, FileHash>, s: Ima, s': Ima, root: Ino, i: Ino)
    requires SimHashes(hashes, integrity, s, root) && i != root
    requires s'.Files() == s.Files() - {FileOf(root, i)}
    requires s'.dac.tree.symLinks - {FileOf(root, i)} == s.dac.tree.symLinks - {FileOf(root, i)}
    requires s'.content == s.content - {FileOf(root, i)} && s'.meta == s.meta - {FileOf(root, i)}
    requires s'.imaHash == s.imaHash - {FileOf(root, i)} && s'.evmHash == s.evmHash - {FileOf(root, i)}
    ensures SimHashes(hashes - {i}, integrity - {i}, s', root)
  {
    var hashes', integrity' := hashes - {i}, integrity - {i};
    forall j | j != root
      ensures HashShadowed(hashes', integrity', s', j)
    {
      assert HashShadowed(hashes, integrity, s, j);
      if j != i {
        assert FileOf(root, j) != FileOf(root, i);
        assert FileOf(root, j) in s'.dac.tree.symLinks - {FileOf(root, i)} <==>
          FileOf(root, j) in s.dac.tree.symLinks - {FileOf(root, i)};
      }
    }
  }

  lemma HashesOfForced(hashes: map<Ino, FileHash>, integrity: map<Ino, FileHash>, s: Ima, root: Ino, i: Ino,
                       ima: Hash, evm: Hash)
    requires SimHashes(hashes, integrity, s, root) && FileOf(root, i) in s.Files()
    ensures
      SimHashes(hashes, integrity[i := FileHash(ima, evm)],
                s.(imaHash := s.imaHash[FileOf(root, i) := ima], evmHash := s.evmHash[FileOf(root, i) := evm]), root)
  {
    var s' := s.(imaHash := s.imaHash[FileOf(root, i) := ima], evmHash := s.evmHash[FileOf(root, i) := evm]);
    var now := integrity[i := FileHash(ima, evm)];
    forall j | j != root
      ensures HashShadowed(hashes, now, s', j)
    {
      assert HashShadowed(hashes, integrity, s, j);
    }
  }
}
