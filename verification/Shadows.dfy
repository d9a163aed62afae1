/** Call by call: if the machine accepts what the translator emits, the mediator still shadows it. */
module Shadows {
  import opened Context
  import opened PosixPath
  import opened DacEvents
  import opened Ima
  import opened Mediator
  import opened FakeHash
  import opened Translator
  import opened Simulation
  import opened Shadowing

  // ---------- Calls that emit one event ----------

  lemma CreationPathIsFree(m: MState, s: Ima, e: Event, h: Hashes, s': Ima, root: Ino, path: string, file: Ino,
                           meta: Hash)
    requires Follows(m, s, e, h, s', root) && EmitsCreation(m, root, path, file, meta, e, h)
    requires path != "/"
    ensures path !in m.path2ino && file != root
  {
    FreePath(m.path2ino, s.dac.tree, root, path);
  }

  lemma OpenExistingFollows(m: MState, s: Ima, e: Event, h: Hashes, s': Ima, root: Ino, c: Call)
    requires Follows(m, s, e, h, s', root) && c.Open? && EmitsOne(m, root, c, e, h) && Perform(m, c).status == Ok
    requires c.path in m.path2ino
    ensures Sim(Perform(m, c).m, s', root)
  {
    OpeningFollows(m, s, e, h, s', root, c.path, ProcFD(c.pid, c.fd));
  }

  lemma OpenNewOutcome(m: MState, c: Call)
    requires c.Open? && c.path !in m.path2ino && Perform(m, c).status == Ok
    ensures Dirname(c.path) in m.path2ino
    ensures
      var m' := Perform(m, c).m;
      m' == m.(path2ino := m.path2ino[c.path := c.file], stats := m'.stats,
               realHashes := m.realHashes[c.file := FileHash("", Fake(c.uid, c.gid, c.perms))],
               fd2ino := m.fd2ino[ProcFD(c.pid, c.fd) := c.file])
      && m'.stats.Keys == m.stats.Keys + {c.file}
  {
  }

  lemma OpenNewFollows(m: MState, s: Ima, e: Event, h: Hashes, s': Ima, root: Ino, c: Call)
    requires Follows(m, s, e, h, s', root) && c.Open? && EmitsOne(m, root, c, e, h) && Perform(m, c).status == Ok
    requires c.path !in m.path2ino
    ensures Sim(Perform(m, c).m, s', root)
  {
    OpenNewOutcome(m, c);
    CreationFollows(m, s, e, h, s', root, c.path, c.file, Fake(c.uid, c.gid, c.perms), Perform(m, c).m);
  }

  lemma OpenFollows(m: MState, s: Ima, e: Event, h: Hashes, s': Ima, root: Ino, c: Call)
    requires Follows(m, s, e, h, s', root) && c.Open? && EmitsOne(m, root, c, e, h) && Perform(m, c).status == Ok
    ensures Sim(Perform(m, c).m, s', root)
  {
    if c.path in m.path2ino {
      OpenExistingFollows(m, s, e, h, s', root, c);
    } else {
      OpenNewFollows(m, s, e, h, s', root, c);
    }
  }

  lemma CreatFollows(m: MState, s: Ima, e: Event, h: Hashes, s': Ima, root: Ino, c: Call)
    requires Follows(m, s, e, h, s', root) && c.Creat? && EmitsOne(m, root, c, e, h) && Covered(m, root, c)
    requires Perform(m, c).status == Ok
    ensures Sim(Perform(m, c).m, s', root)
  {
    CreationPathIsFree(m, s, e, h, s', root, c.path, c.file, Fake(c.uid, c.gid, c.perms));
    CreationFollows(m, s, e, h, s', root, c.path, c.file, Fake(c.uid, c.gid, c.perms), Perform(m, c).m);
  }

  lemma MkdirFollows(m: MState, s: Ima, e: Event, h: Hashes, s': Ima, root: Ino, c: Call)
    requires Follows(m, s, e, h, s', root) && c.Mkdir? && EmitsOne(m, root, c, e, h) && Covered(m, root, c)
    requires Perform(m, c).status == Ok
    ensures Sim(Perform(m, c).m, s', root)
  {
    CreationFollows(m, s, e, h, s', root, c.path, c.file, Fake(c.uid, c.gid, c.perms), Perform(m, c).m);
  }

  /** The inode that a call of the chmod or chown family is about. */
  function ChangedIno(m: MState, c: Call): Option<Ino> {
    if c.Chmod? || c.Chown? then (if c.path in m.path2ino then Some(m.path2ino[c.path]) else None)
    else if c.Fchmod? || c.Fchown? then
      (if ProcFD(c.pid, c.fd) in m.fd2ino then Some(m.fd2ino[ProcFD(c.pid, c.fd)]) else None)
    else None
  }

  lemma SubjectIsTarget(m: MState, s: Ima, root: Ino, c: Call, e: Event, h: Hashes)
    requires Sim(m, s, root) && (c.Chmod? || c.Chown? || c.Fchmod? || c.Fchown?) && EmitsOne(m, root, c, e, h)
    ensures ChangedIno(m, c).Some? && MetaTarget(s.dac, e) == Some(FileOf(root, ChangedIno(m, c).value))
  {
    if c.Fchmod? || c.Fchown? {
      assert DescShadowed(m.fd2ino, s.dac.descs, s.dac.tree.symLinks, root, ProcFD(c.pid, c.fd));
    }
  }

  /** What such a call leaves in the mediator. */
  lemma SubjectChanges(m: MState, root: Ino, c: Call, e: Event, h: Hashes)
    requires (c.Chmod? || c.Chown? || c.Fchmod? || c.Fchown?) && EmitsOne(m, root, c, e, h)
    requires Perform(m, c).status == Ok
    ensures ChangedIno(m, c).Some?
    ensures
      var i := ChangedIno(m, c).value;
      var m' := Perform(m, c).m;
      && i in m.stats && i in m.realHashes && m'.stats.Keys == m.stats.Keys
      && m' == m.(stats := m'.stats, realHashes := m.realHashes[i := FileHash(m.realHashes[i].content, h.meta)])
  {
  }

  lemma ChangeFollows(m: MState, s: Ima, e: Event, h: Hashes, s': Ima, root: Ino, c: Call)
    requires Follows(m, s, e, h, s', root) && (c.Chmod? || c.Chown? || c.Fchmod? || c.Fchown?)
    requires EmitsOne(m, root, c, e, h) && Perform(m, c).status == Ok
    ensures Sim(Perform(m, c).m, s', root)
  {
    SubjectIsTarget(m, s, root, c, e, h);
    SubjectChanges(m, root, c, e, h);
    MetaFollows(m, s, e, h, s', root, ChangedIno(m, c).value, Perform(m, c).m);
  }

  lemma NameFollows(m: MState, s: Ima, e: Event, h: Hashes, s': Ima, root: Ino, path: string, newPath: string)
    requires Follows(m, s, e, h, s', root) && EmitsLink(m, root, path, newPath, e)
    requires Dirname(newPath) in m.path2ino && DoLink(m, path, newPath).status == Ok
    ensures Sim(DoLink(m, path, newPath).m, s', root)
  {
    LinkFollows(m, s, e, h, s', root, path, newPath, DoLink(m, path, newPath).m);
  }

  lemma LinkCallFollows(m: MState, s: Ima, e: Event, h: Hashes, s': Ima, root: Ino, c: Call)
    requires Follows(m, s, e, h, s', root) && (c.Link? || c.InitFile?) && EmitsOne(m, root, c, e, h)
    requires Perform(m, c).status == Ok
    ensures Sim(Perform(m, c).m, s', root)
  {
    if c.Link? {
      NameFollows(m, s, e, h, s', root, c.path, c.newPath);
    } else {
      NameFollows(m, s, e, h, s', root, PathOf(m, c.file), c.path);
    }
  }

  lemma CloseCallFollows(m: MState, s: Ima, e: Event, h: Hashes, s': Ima, root: Ino, c: Call)
    requires Follows(m, s, e, h, s', root) && c.Close? && EmitsOne(m, root, c, e, h) && Covered(m, root, c)
    requires Perform(m, c).status == Ok
    ensures Sim(Perform(m, c).m, s', root)
  {
    var k := ProcFD(c.pid, c.fd);
    assert CloseHashes(m, m.fd2ino[k], c.content, c.given) == FileHash(h.content, h.meta);
    CloseFollows(m, s, e, h, s', root, k);
  }

  lemma ExitCallFollows(m: MState, s: Ima, e: Event, h: Hashes, s': Ima, root: Ino, c: Call)
    requires Follows(m, s, e, h, s', root) && c.Exit? && EmitsOne(m, root, c, e, h) && Covered(m, root, c)
    ensures Sim(Perform(m, c).m, s', root)
  {
    ExitFollowsIff(m, s, e, h, s', root, c.pid);
  }

  lemma RootIsNotRemoved(s: Ima, e: Event, h: Hashes, s': Ima)
    requires Stepped(s, e, h, s')
    ensures (e.Unlink? ==> e.file != ROOT) && (e.Rmdir? ==> e.folder != ROOT)
  {
  }

  lemma RemoveCallFollows(m: MState, s: Ima, e: Event, h: Hashes, s': Ima, root: Ino, c: Call)
    requires Follows(m, s, e, h, s', root) && (c.Unlink? || c.Rmdir?) && EmitsOne(m, root, c, e, h) && Covered(m, root, c)
    requires Perform(m, c).status == Ok
    ensures Sim(Perform(m, c).m, s', root)
  {
    RootIsNotRemoved(s, e, h, s');
    RemovalFollows(m, s, e, h, s', root, c.path);
  }

  lemma ChdirFollows(m: MState, s: Ima, e: Event, h: Hashes, s': Ima, root: Ino, c: Call)
    requires Follows(m, s, e, h, s', root) && c.Chdir? && EmitsOne(m, root, c, e, h) && Perform(m, c).status == Ok
    ensures Sim(Perform(m, c).m, s', root)
  {
    QuietFollows(m, s, e, h, s', root, Perform(m, c).m);
  }

  predicate EntersFile(c: Call) {
    c.Open? || c.Creat? || c.Mkdir? || c.Link? || c.InitFile?
  }

  lemma EnteringFollows(m: MState, s: Ima, e: Event, h: Hashes, s': Ima, root: Ino, c: Call)
    requires Follows(m, s, e, h, s', root) && EntersFile(c) && EmitsOne(m, root, c, e, h) && Covered(m, root, c)
    requires Perform(m, c).status == Ok
    ensures Sim(Perform(m, c).m, s', root)
  {
    if c.Open? {
      OpenFollows(m, s, e, h, s', root, c);
    } else if c.Creat? {
      CreatFollows(m, s, e, h, s', root, c);
    } else if c.Mkdir? {
      MkdirFollows(m, s, e, h, s', root, c);
    } else {
      LinkCallFollows(m, s, e, h, s', root, c);
    }
  }

  /** Every call that emits one event. */
  lemma OneFollows(m: MState, s: Ima, e: Event, h: Hashes, s': Ima, root: Ino, c: Call)
    requires Follows(m, s, e, h, s', root) && EmitsOne(m, root, c, e, h) && Covered(m, root, c)
    requires Perform(m, c).status == Ok
    ensures Sim(Perform(m, c).m, s', root)
  {
    if EntersFile(c) {
      EnteringFollows(m, s, e, h, s', root, c);
    } else if c.Chmod? || c.Chown? || c.Fchmod? || c.Fchown? {
      ChangeFollows(m, s, e, h, s', root, c);
    } else if c.Close? {
      CloseCallFollows(m, s, e, h, s', root, c);
    } else if c.Exit? {
      ExitCallFollows(m, s, e, h, s', root, c);
    } else if c.Unlink? || c.Rmdir? {
      RemoveCallFollows(m, s, e, h, s', root, c);
    } else if c.Chdir? {
      ChdirFollows(m, s, e, h, s', root, c);
    }
  }

  // ---------- And only then ----------

  /** An accepted unlink keeps the two sides together exactly if the inode has one link. */
  lemma UnlinkFollowsIff(m: MState, s: Ima, e: Event, h: Hashes, s': Ima, root: Ino, c: Call)
    requires Follows(m, s, e, h, s', root) && c.Unlink? && EmitsOne(m, root, c, e, h) && Perform(m, c).status == Ok
    ensures Sim(Perform(m, c).m, s', root) <==> m.stats[m.path2ino[c.path]].nlink == 1
  {
    hide Sim, Stepped;
    if m.stats[m.path2ino[c.path]].nlink == 1 {
      RemoveCallFollows(m, s, e, h, s', root, c);
    } else {
      RootIsNotUnlinked(m, s, e, h, s', root, c);
      UnlinkOfNamedBreaks(m, s, e, h, s', root, c.path);
    }
  }

  lemma RootIsNotUnlinked(m: MState, s: Ima, e: Event, h: Hashes, s': Ima, root: Ino, c: Call)
    requires Follows(m, s, e, h, s', root) && c.Unlink? && EmitsOne(m, root, c, e, h)
    ensures c.path != "/"
  {
    RootIsNotRemoved(s, e, h, s');
  }

  lemma UncoveredCreationBreaks(m: MState, s: Ima, e: Event, h: Hashes, s': Ima, root: Ino, c: Call)
    requires Follows(m, s, e, h, s', root) && (c.Creat? || c.Mkdir?) && c.path == "/" && EmitsOne(m, root, c, e, h)
    requires Perform(m, c).status == Ok
    ensures !Sim(Perform(m, c).m, s', root)
  {
    CreationAtRootBreaks(m, s, e, h, s', root, c.path, c.file, Fake(c.uid, c.gid, c.perms), Perform(m, c).m);
  }

  lemma UncoveredCloseBreaks(m: MState, s: Ima, e: Event, h: Hashes, s': Ima, root: Ino, c: Call)
    requires Follows(m, s, e, h, s', root) && c.Close? && EmitsOne(m, root, c, e, h) && !Covered(m, root, c)
    requires Perform(m, c).status == Ok
    ensures !Sim(Perform(m, c).m, s', root)
  {
    var k := ProcFD(c.pid, c.fd);
    assert CloseHashes(m, m.fd2ino[k], c.content, c.given) == FileHash(h.content, h.meta);
    CloseOfGoneBreaks(m, s, e, h, s', root, k);
  }

  lemma UncoveredExitBreaks(m: MState, s: Ima, e: Event, h: Hashes, s': Ima, root: Ino, c: Call)
    requires Follows(m, s, e, h, s', root) && c.Exit? && EmitsOne(m, root, c, e, h) && !Covered(m, root, c)
    ensures !Sim(Perform(m, c).m, s', root)
  {
    ExitFollowsIff(m, s, e, h, s', root, c.pid);
  }

  /** A call that emits one event, which the machine accepts, keeps the two sides together exactly if
      it is covered. */
  lemma OneFollowsIff(m: MState, s: Ima, e: Event, h: Hashes, s': Ima, root: Ino, c: Call)
    requires Follows(m, s, e, h, s', root) && EmitsOne(m, root, c, e, h) && Perform(m, c).status == Ok
    ensures Sim(Perform(m, c).m, s', root) <==> Covered(m, root, c)
  {
    hide Sim, Stepped, Perform;
    if Covered(m, root, c) {
      OneFollows(m, s, e, h, s', root, c);
    } else if c.Creat? || c.Mkdir? {
      UncoveredCreationBreaks(m, s, e, h, s', root, c);
    } else if c.Close? {
      UncoveredCloseBreaks(m, s, e, h, s', root, c);
    } else if c.Exit? {
      UncoveredExitBreaks(m, s, e, h, s', root, c);
    } else if c.Unlink? {
      UnlinkFollowsIff(m, s, e, h, s', root, c);
    } else if c.InitFile? {
      LinkToRootFails(m, root, c, e, h);
      RootHasPath(m, s, root);
    }
  }

  lemma RootHasPath(m: MState, s: Ima, root: Ino)
    requires Sim(m, s, root)
    ensures "/" in m.path2ino
  {
  }

  /** The path "/" is taken. */
  lemma LinkToRootFails(m: MState, root: Ino, c: Call, e: Event, h: Hashes)
    requires c.InitFile? && EmitsOne(m, root, c, e, h) && Perform(m, c).status == Ok
    ensures "/" in m.path2ino ==> c.path != "/"
  {
  }
}
