/** The link counts that the mediator stores are the numbers of names in the machine, and what this
    says about the file that unlink gives up. */
module LinkCounts {
  import opened Context
  import opened DacState
  import opened DacEvents
  import opened DacSteps
  import opened Ima
  import opened Mediator
  import opened FakeHash
  import opened Translator
  import opened Simulation
  import opened Shadowing
  import opened Shadows
  import opened TraceRuns
  import opened Protocol

  // ---------- The relation ----------

  /** The names of a file. */
  ghost function NamesOf(t: Tree, f: File): set<Entry> {
    set n | n in t.entries && n.file == f
  }

  predicate Plain(t: Tree, f: File) {
    f in t.files && f !in t.symLinks
  }

  ghost predicate LinksShadowed(stats: map<Ino, FileStat>, t: Tree, i: Ino) {
    var f := Inode(i.dev, i.ino);
    i in stats && Plain(t, f) ==> stats[i].nlink == |NamesOf(t, f)|
  }

  ghost predicate SimLinks(stats: map<Ino, FileStat>, t: Tree, root: Ino) {
    forall i {:trigger LinksShadowed(stats, t, i)} :: i != root ==> LinksShadowed(stats, t, i)
  }

  // ---------- Machine ----------

  /** What an event does to the names of the files: a new one gets its first, one gets one more, and the
      others keep theirs. */
  ghost predicate NamesMoved(t: Tree, t': Tree, made: Option<File>, linked: Option<File>) {
    forall f {:trigger Plain(t', f)} :: Plain(t', f) ==>
      if made == Some(f) then |NamesOf(t', f)| == 1
      else Plain(t, f) && |NamesOf(t', f)| == |NamesOf(t, f)| + if linked == Some(f) then 1 else 0
  }

  lemma SameNamesMoved(t: Tree, t': Tree)
    requires t'.files == t.files && t'.symLinks == t.symLinks && t'.entries == t.entries
    ensures NamesMoved(t, t', None, None)
  {
    forall f | Plain(t', f)
      ensures Plain(t, f) && NamesOf(t', f) == NamesOf(t, f)
    {
    }
  }

  lemma CreationMoved(t: Tree, t': Tree, n: Entry)
    requires Basics(t) && n.file !in t.files
    requires t'.files == t.files + {n.file} && t'.symLinks == t.symLinks && t'.entries == t.entries + {n}
    ensures NamesMoved(t, t', Some(n.file), None)
  {
    assert NamesOf(t', n.file) == {n};
    forall f | Plain(t', f) && f != n.file
      ensures Plain(t, f) && NamesOf(t', f) == NamesOf(t, f)
    {
    }
  }

  lemma SymlinkMoved(t: Tree, t': Tree, n: Entry)
    requires t'.files == t.files + {n.file} && t'.symLinks == t.symLinks + {n.file} && t'.entries == t.entries + {n}
    ensures NamesMoved(t, t', None, None)
  {
    forall f | Plain(t', f)
      ensures Plain(t, f) && NamesOf(t', f) == NamesOf(t, f)
    {
    }
  }

  lemma LinkMoved(t: Tree, t': Tree, n: Entry)
    requires t'.files == t.files && t'.symLinks == t.symLinks && t'.entries == t.entries + {n} && n !in t.entries
    ensures NamesMoved(t, t', None, Some(n.file))
  {
    assert NamesOf(t', n.file) == NamesOf(t, n.file) + {n};
    forall f | Plain(t', f) && f != n.file
      ensures Plain(t, f) && NamesOf(t', f) == NamesOf(t, f)
    {
    }
  }

  lemma RemovalMoved(t: Tree, t': Tree, n: Entry)
    requires t'.files == t.files - {n.file} && t'.symLinks - {n.file} == t.symLinks - {n.file}
    requires t'.entries == t.entries - {n}
    ensures NamesMoved(t, t', None, None)
  {
    forall f | Plain(t', f)
      ensures Plain(t, f) && NamesOf(t', f) == NamesOf(t, f)
    {
      assert f in t'.symLinks - {n.file} <==> f in t.symLinks - {n.file};
    }
  }

  predicate Renames(e: Event) {
    Creates(e) || e.Link? || e.Unlink? || e.Rmdir?
  }

  lemma UnnamedMoved(s: Ima, e: Event, h: Hashes, s': Ima)
    requires Stepped(s, e, h, s') && !Renames(e)
    ensures NamesMoved(s.dac.tree, s'.dac.tree, None, None)
  {
    hide HashesStep;
    SameNamesMoved(s.dac.tree, s'.dac.tree);
  }

  lemma CreatedMoved(s: Ima, e: Event, h: Hashes, s': Ima)
    requires Stepped(s, e, h, s') && Creates(e) && !e.Symlink?
    ensures NamesMoved(s.dac.tree, s'.dac.tree, Some(CreatedFile(e)), None)
  {
    hide HashesStep, NamesMoved;
    CreationMoved(s.dac.tree, s'.dac.tree, Entry(CreatedFile(e), e.parent, e.name));
  }

  lemma SymlinkedMoved(s: Ima, e: Event, h: Hashes, s': Ima)
    requires Stepped(s, e, h, s') && e.Symlink?
    ensures NamesMoved(s.dac.tree, s'.dac.tree, None, None)
  {
    hide HashesStep, NamesMoved;
    SymlinkMoved(s.dac.tree, s'.dac.tree, Entry(e.file, e.parent, e.name));
  }

  lemma LinkedMoved(s: Ima, e: Event, h: Hashes, s': Ima)
    requires Stepped(s, e, h, s') && e.Link?
    ensures NamesMoved(s.dac.tree, s'.dac.tree, None, Some(e.file))
  {
    hide HashesStep, NamesMoved;
    LinkMoved(s.dac.tree, s'.dac.tree, Entry(e.file, e.newParent, e.newName));
  }

  lemma UnlinkedMoved(s: Ima, e: Event, h: Hashes, s': Ima)
    requires Stepped(s, e, h, s') && e.Unlink? && e.files == {e.file}
    ensures NamesMoved(s.dac.tree, s'.dac.tree, None, None)
  {
    hide HashesStep, NamesMoved;
    RemovalMoved(s.dac.tree, s'.dac.tree, Entry(e.file, e.parent, e.name));
  }

  lemma RemovedMoved(s: Ima, e: Event, h: Hashes, s': Ima)
    requires Stepped(s, e, h, s') && e.Rmdir?
    ensures NamesMoved(s.dac.tree, s'.dac.tree, None, None)
  {
    hide HashesStep, NamesMoved;
    RemovalMoved(s.dac.tree, s'.dac.tree, Entry(e.folder, e.parent, e.name));
  }

  // ---------- Mediator ----------

  /** The inode that a call enters. */
  function MadeIno(m: MState, c: Call): Option<Ino> {
    if c.Open? || c.Creat? then (if c.path in m.path2ino then None else Some(c.file))
    else if c.Mkdir? || c.InitFolder? then Some(c.file)
    else if c.InitFile? then (if c.file in m.path2ino.Values then None else Some(c.file))
    else None
  }

  /** The inode that a call gives one more path. */
  function LinkedIno(m: MState, c: Call): Option<Ino> {
    if c.Link? then (if c.path in m.path2ino then Some(m.path2ino[c.path]) else None)
    else if c.InitFile? && c.file in m.path2ino.Values then Some(c.file)
    else None
  }

  ghost predicate LinksAfter(m: MState, c: Call, m': MState) {
    forall i :: i in m'.stats ==>
      if MadeIno(m, c) == Some(i) then m'.stats[i].nlink == 1
      else i in m.stats && m'.stats[i].nlink == m.stats[i].nlink + if LinkedIno(m, c) == Some(i) then 1 else 0
  }

  lemma OpeningLinks(m: MState, c: Call)
    requires (c.Open? || c.Creat? || c.Mkdir?) && Perform(m, c).status == Ok
    ensures LinksAfter(m, c, Perform(m, c).m)
  {
  }

  lemma FolderLinks(m: MState, c: Call)
    requires c.InitFolder? && Perform(m, c).status == Ok
    ensures LinksAfter(m, c, Perform(m, c).m)
  {
  }

  lemma NewFileLinks(m: MState, c: Call)
    requires c.InitFile? && c.file !in m.path2ino.Values && Perform(m, c).status == Ok
    ensures LinksAfter(m, c, Perform(m, c).m)
  {
    hide Fake;
    FileOutcome(m, c);
  }

  lemma FileLinks(m: MState, c: Call)
    requires c.InitFile? && Perform(m, c).status == Ok
    ensures LinksAfter(m, c, Perform(m, c).m)
  {
    hide InitNewFile;
    if c.file !in m.path2ino.Values {
      NewFileLinks(m, c);
    }
  }

  lemma ChangingLinks(m: MState, c: Call)
    requires (c.Chmod? || c.Fchmod? || c.Chown? || c.Fchown?) && Perform(m, c).status == Ok
    ensures LinksAfter(m, c, Perform(m, c).m)
  {
  }

  lemma OtherLinks(m: MState, c: Call)
    requires c.Link? || c.Close? || c.Exit? || c.Unlink? || c.Rmdir? || c.Chdir? || c.SetModes?
    requires Perform(m, c).status == Ok
    ensures LinksAfter(m, c, Perform(m, c).m)
  {
  }

  lemma CallLinks(m: MState, c: Call)
    requires Perform(m, c).status == Ok
    ensures LinksAfter(m, c, Perform(m, c).m)
  {
    hide Perform, LinksAfter;
    if c.Open? || c.Creat? || c.Mkdir? {
      OpeningLinks(m, c);
    } else if c.InitFolder? {
      FolderLinks(m, c);
    } else if c.InitFile? {
      FileLinks(m, c);
    } else if c.Chmod? || c.Fchmod? || c.Chown? || c.Fchown? {
      ChangingLinks(m, c);
    } else {
      OtherLinks(m, c);
    }
  }

  // ---------- Turns ----------

  ghost predicate CallMoved(m: MState, root: Ino, c: Call, t: Tree, t': Tree) {
    NamesMoved(t, t', FileIfAny(root, MadeIno(m, c)), FileIfAny(root, LinkedIno(m, c)))
  }

  lemma LinksMove(m: MState, root: Ino, c: Call, m': MState, t: Tree, t': Tree)
    requires SimLinks(m.stats, t, root) && LinksAfter(m, c, m') && CallMoved(m, root, c, t, t')
    ensures SimLinks(m'.stats, t', root)
  {
    forall i | i != root
      ensures LinksShadowed(m'.stats, t', i)
    {
      assert LinksShadowed(m.stats, t, i);
      var f := Inode(i.dev, i.ino);
      assert MadeIno(m, c) == Some(i) <==> FileIfAny(root, MadeIno(m, c)) == Some(f);
      assert LinkedIno(m, c) == Some(i) <==> FileIfAny(root, LinkedIno(m, c)) == Some(f);
    }
  }

  lemma EnteringMoved(m: MState, s: Ima, e: Event, h: Hashes, s': Ima, root: Ino, c: Call)
    requires Follows(m, s, e, h, s', root) && EmitsOne(m, root, c, e, h) && Covered(m, root, c)
    requires (c.Open? && c.path !in m.path2ino) || c.Creat? || c.Mkdir?
    ensures CallMoved(m, root, c, s.dac.tree, s'.dac.tree)
  {
    hide Sim, Stepped, NamesMoved;
    CreatedMoved(s, e, h, s');
    RootHasPath(m, s, root);
    CreationPathIsFree(m, s, e, h, s', root, c.path, c.file, Fake(c.uid, c.gid, c.perms));
  }

  lemma LinkingMoved(m: MState, s: Ima, e: Event, h: Hashes, s': Ima, root: Ino, c: Call)
    requires Follows(m, s, e, h, s', root) && EmitsOne(m, root, c, e, h) && Perform(m, c).status == Ok
    requires c.Link? || c.InitFile?
    ensures CallMoved(m, root, c, s.dac.tree, s'.dac.tree)
  {
    hide Sim, Stepped, NamesMoved;
    LinkedMoved(s, e, h, s');
  }

  lemma RemovingMoved(m: MState, s: Ima, e: Event, h: Hashes, s': Ima, root: Ino, c: Call)
    requires Follows(m, s, e, h, s', root) && EmitsOne(m, root, c, e, h) && Covered(m, root, c)
    requires c.Unlink? || c.Rmdir?
    ensures CallMoved(m, root, c, s.dac.tree, s'.dac.tree)
  {
    hide Sim, Stepped, NamesMoved;
    if c.Unlink? {
      UnlinkedMoved(s, e, h, s');
    } else {
      RemovedMoved(s, e, h, s');
    }
  }

  lemma OtherCallMoved(m: MState, s: Ima, e: Event, h: Hashes, s': Ima, root: Ino, c: Call)
    requires Follows(m, s, e, h, s', root) && EmitsOne(m, root, c, e, h)
    requires c.Chmod? || c.Fchmod? || c.Chown? || c.Fchown? || c.Close? || c.Exit? || c.Chdir?
             || (c.Open? && c.path in m.path2ino)
    ensures CallMoved(m, root, c, s.dac.tree, s'.dac.tree)
  {
    hide Sim, Stepped, NamesMoved, ChmodHash, ChownHash, CloseArguments, ClosedKeys;
    UnnamedMoved(s, e, h, s');
  }

  lemma OneCallMoved(m: MState, s: Ima, e: Event, h: Hashes, s': Ima, root: Ino, c: Call)
    requires Follows(m, s, e, h, s', root) && EmitsOne(m, root, c, e, h) && Covered(m, root, c)
    requires Perform(m, c).status == Ok
    ensures CallMoved(m, root, c, s.dac.tree, s'.dac.tree)
  {
    hide Sim, Stepped, CallMoved, Perform, Covered, Follows;
    if (c.Open? && c.path !in m.path2ino) || c.Creat? || c.Mkdir? {
      EnteringMoved(m, s, e, h, s', root, c);
    } else if c.Link? || c.InitFile? {
      LinkingMoved(m, s, e, h, s', root, c);
    } else if c.Unlink? || c.Rmdir? {
      RemovingMoved(m, s, e, h, s', root, c);
    } else {
      OtherCallMoved(m, s, e, h, s', root, c);
    }
  }

  lemma OneTurnMoved(m: MState, ss: seq<Ima>, es: seq<ImaEvent>, root: Ino, c: Call)
    requires SteppedRun(ss, es) && |es| == 1 && es[0].Sys? && EmitsOne(m, root, c, es[0].e, es[0].h)
    requires Covered(m, root, c) && Perform(m, c).status == Ok && Sim(m, ss[0], root)
    ensures CallMoved(m, root, c, ss[0].dac.tree, ss[1].dac.tree)
  {
    hide Sim, Stepped, CallMoved, Perform, Covered, EmitsOne;
    assert SteppedAt(ss, es, 0);
    OneCallMoved(m, ss[0], es[0].e, es[0].h, ss[1], root, c);
  }

  lemma SameTreeAt(ss: seq<Ima>, es: seq<ImaEvent>, i: nat)
    requires SteppedRun(ss, es) && i < |es| && (es[i].Sys? ==> !Renames(es[i].e))
    ensures
      var t, t' := ss[i].dac.tree, ss[i + 1].dac.tree;
      t'.files == t.files && t'.symLinks == t.symLinks && t'.entries == t.entries
  {
    hide HashesStep;
    assert SteppedAt(ss, es, i);
  }

  /** The names change only with the first of the four events. */
  lemma FourMoved(ss: seq<Ima>, es: seq<ImaEvent>, made: File)
    requires SteppedRun(ss, es) && |es| == 4 && es[0].Sys? && Creates(es[0].e) && !es[0].e.Symlink?
    requires CreatedFile(es[0].e) == made
    requires forall i :: 1 <= i < 4 && es[i].Sys? ==> !Renames(es[i].e)
    ensures NamesMoved(ss[0].dac.tree, ss[4].dac.tree, Some(made), None)
  {
    assert SteppedAt(ss, es, 0);
    hide SteppedRun, Stepped, NamesOf;
    CreatedMoved(ss[0], es[0].e, es[0].h, ss[1]);
    SameTreeAt(ss, es, 1);
    SameTreeAt(ss, es, 2);
    SameTreeAt(ss, es, 3);
    EqualNames(ss[1].dac.tree, ss[4].dac.tree);
  }

  lemma EqualNames(t: Tree, t': Tree)
    requires t'.files == t.files && t'.symLinks == t.symLinks && t'.entries == t.entries
    ensures forall f :: Plain(t', f) <==> Plain(t, f)
    ensures forall f :: NamesOf(t', f) == NamesOf(t, f)
  {
  }

  lemma FolderRenamesOnce(m: MState, root: Ino, c: Call, es: seq<ImaEvent>)
    requires c.InitFolder? && EmitsFolder(m, root, c, es)
    ensures |es| == 4 && es[0].Sys? && Creates(es[0].e) && !es[0].e.Symlink?
    ensures CreatedFile(es[0].e) == FileOf(root, c.file)
    ensures forall i :: 1 <= i < 4 && es[i].Sys? ==> !Renames(es[i].e)
  {
    hide Fake;
  }

  lemma FileRenamesOnce(m: MState, root: Ino, c: Call, es: seq<ImaEvent>)
    requires c.InitFile? && EmitsFile(m, root, c, es)
    ensures |es| == 4 && es[0].Sys? && Creates(es[0].e) && !es[0].e.Symlink?
    ensures CreatedFile(es[0].e) == FileOf(root, c.file)
    ensures forall i :: 1 <= i < 4 && es[i].Sys? ==> !Renames(es[i].e)
  {
    hide Fake, InitHashes;
  }

  lemma ModesMoved(m: MState, ss: seq<Ima>, es: seq<ImaEvent>, root: Ino, c: Call)
    requires SteppedRun(ss, es) && c.SetModes? && es == [SwitchImaMode(c.mode), SwitchEvmMode(c.mode)]
    ensures CallMoved(m, root, c, ss[0].dac.tree, ss[2].dac.tree)
  {
    hide SteppedAt, NamesMoved;
    SameTreeAt(ss, es, 0);
    SameTreeAt(ss, es, 1);
    SameNamesMoved(ss[0].dac.tree, ss[2].dac.tree);
  }

  lemma CalledMoved(m: MState, ss: seq<Ima>, es: seq<ImaEvent>, root: Ino, c: Call)
    requires SteppedRun(ss, es) && Emits(m, root, c, es) && Covered(m, root, c) && Perform(m, c).status == Ok
    requires Sim(m, ss[0], root)
    ensures CallMoved(m, root, c, ss[0].dac.tree, ss[|es|].dac.tree)
  {
    hide Sim, SteppedAt, NamesMoved, Perform, Covered, EmitsFolder, EmitsFile, EmitsOne;
    if c.InitFolder? {
      FolderRenamesOnce(m, root, c, es);
      FourMoved(ss, es, FileOf(root, c.file));
    } else if c.InitFile? && c.file !in m.path2ino.Values {
      FileRenamesOnce(m, root, c, es);
      FourMoved(ss, es, FileOf(root, c.file));
    } else if c.SetModes? {
      ModesMoved(m, ss, es, root, c);
    } else {
      OneTurnMoved(m, ss, es, root, c);
    }
  }

  lemma UnrecordedMoved(ss: seq<Ima>, es: seq<ImaEvent>)
    requires SteppedRun(ss, es) && |es| == 1 && UnrecordedEvent(es[0])
    ensures NamesMoved(ss[0].dac.tree, ss[1].dac.tree, None, None)
  {
    assert SteppedAt(ss, es, 0);
    hide NamesMoved, Stepped, SteppedRun;
    if es[0].Sys? && es[0].e.Symlink? {
      SymlinkedMoved(ss[0], es[0].e, es[0].h, ss[1]);
    } else {
      SameTreeAt(ss, es, 0);
      SameNamesMoved(ss[0].dac.tree, ss[1].dac.tree);
    }
  }

  lemma UnrecordedLinks(stats: map<Ino, FileStat>, t: Tree, t': Tree, root: Ino)
    requires SimLinks(stats, t, root) && NamesMoved(t, t', None, None)
    ensures SimLinks(stats, t', root)
  {
    forall i | i != root
      ensures LinksShadowed(stats, t', i)
    {
      assert LinksShadowed(stats, t, i);
    }
  }

  lemma TurnKeepsLinks(m: MState, root: Ino, t: Turn, m': MState)
    requires TurnFrom(m, root, t, m') && Sim(m, Start(t), root)
    requires SimLinks(m.stats, Start(t).dac.tree, root)
    ensures SimLinks(m'.stats, End(t).dac.tree, root)
  {
    hide Sim, SimLinks, Emits, Perform, UnrecordedEvent, Covered, CallMoved, NamesMoved, LinksAfter, SteppedAt;
    RunIsStepped(t.ss, t.es);
    if t.act.Called? {
      CalledMoved(m, t.ss, t.es, root, t.act.c);
      CallLinks(m, t.act.c);
      LinksMove(m, root, t.act.c, m', Start(t).dac.tree, End(t).dac.tree);
    } else {
      UnrecordedMoved(t.ss, t.es);
      UnrecordedLinks(m.stats, Start(t).dac.tree, End(t).dac.tree, root);
    }
  }

  // ---------- Replays ----------

  lemma {:induction false} ReplayLinks(ms: seq<MState>, ts: seq<Turn>, root: Ino, n: nat)
    requires IsReplay(ms, ts, root) && n <= |ts|
    ensures SimLinks(ms[n].stats, MachineAfter(ts, n).dac.tree, root)
  {
    hide Sim, SimLinks, TurnTaken, TurnCovered;
    if n == 0 {
      InitialLinks(root);
    } else {
      ReplayLinks(ms, ts, root, n - 1);
      MediatorShadowsMachine(ms, ts, root, n - 1);
      assert TakenAt(ms, ts, root, n - 1) && CoveredAt(ms, ts, root, n - 1);
      TurnKeepsLinks(ms[n - 1], root, ts[n - 1], ms[n]);
    }
  }

  lemma InitialLinks(root: Ino)
    ensures SimLinks(InitialMediator(root).stats, InitialIma().dac.tree, root)
  {
  }

  lemma TrackedHasStat(m: MState, s: Ima, root: Ino, i: Ino)
    requires Sim(m, s, root) && StatsExact(m, root) && i != root && Tracked(s.dac.tree, i)
    ensures i in m.stats
  {
    assert m.Named(i);
  }

  /** Throughout a replay the mediator has a stat for every file that is there, the root and symbolic
      links aside, and its st_nlink is the number of names of the file. */
  lemma LinkCountsThroughout(ms: seq<MState>, ts: seq<Turn>, root: Ino, n: nat, i: Ino)
    requires IsReplay(ms, ts, root) && n <= |ts| && i != root && Tracked(MachineAfter(ts, n).dac.tree, i)
    ensures i in ms[n].stats
    ensures ms[n].stats[i].nlink == |NamesOf(MachineAfter(ts, n).dac.tree, Inode(i.dev, i.ino))|
  {
    hide Sim, StatsExact, TakenAt, CoveredAt;
    MediatorShadowsMachine(ms, ts, root, n);
    StatsExactThroughout(ms, ts, root, n);
    ReplayLinks(ms, ts, root, n);
    TrackedHasStat(ms[n], MachineAfter(ts, n), root, i);
    assert LinksShadowed(ms[n].stats, MachineAfter(ts, n).dac.tree, i);
  }

  /** A file has another name exactly if it has not just one. */
  lemma OtherNamesIff(t: Tree, n: Entry)
    requires n in t.entries
    ensures OtherNames(t, n.file, n.parent, n.name) <==> |NamesOf(t, n.file)| != 1
  {
    var names := NamesOf(t, n.file);
    if |names| == 1 {
      SubsetCard({n}, names);
      forall o | o in t.entries && o.file == n.file
        ensures o == n
      {
        assert o in names;
      }
    } else {
      assert n in names && names != {n};
      var o :| o in names && o != n;
    }
  }

  lemma PathIsName(m: MState, s: Ima, root: Ino, path: string)
    requires Sim(m, s, root) && Basics(s.dac.tree) && path in m.path2ino && m.path2ino[path] != root
    ensures EntryOf(m.path2ino, root, path) in s.dac.tree.entries
    ensures EntryOf(m.path2ino, root, path).file == Inode(m.path2ino[path].dev, m.path2ino[path].ino)
    ensures Tracked(s.dac.tree, m.path2ino[path])
  {
    assert PathShadowed(m.path2ino, s.dac.tree, root, path);
  }

  /** So for every path but those of the root, the link count tells whether the file has another name:
      what the next unlink gives up meets grd6 and grd7. */
  lemma UnlinkFilesMeetGuard(ms: seq<MState>, ts: seq<Turn>, root: Ino, n: nat, path: string)
    requires IsReplay(ms, ts, root) && n <= |ts| && path in ms[n].path2ino && ms[n].path2ino[path] != root
    ensures ms[n].path2ino[path] in ms[n].stats
    ensures
      var name := EntryOf(ms[n].path2ino, root, path);
      var files := if ms[n].stats[ms[n].path2ino[path]].nlink == 1 then {name.file} else {};
      && (OtherNames(MachineAfter(ts, n).dac.tree, name.file, name.parent, name.name) <==> files == {})
      && (!OtherNames(MachineAfter(ts, n).dac.tree, name.file, name.parent, name.name) <==> files == {name.file})
  {
    hide Sim, StatsExact, TakenAt, CoveredAt, OtherNames, NamesOf, Basics;
    var s := MachineAfter(ts, n);
    MediatorShadowsMachine(ms, ts, root, n);
    TypesAfter(ms, ts, root, n);
    PathIsName(ms[n], s, root, path);
    LinkCountsThroughout(ms, ts, root, n, ms[n].path2ino[path]);
    OtherNamesIff(s.dac.tree, EntryOf(ms[n].path2ino, root, path));
  }
}
