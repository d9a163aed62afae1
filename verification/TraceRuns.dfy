/** Whole traces: setup and replay. As long as the machine accepts what the translator emits, the
    mediator shadows it; and what this says about the hashes that a close carries. */
module TraceRuns {
  import opened Context
  import opened PosixPath
  import opened DacState
  import opened DacSteps
  import opened Ima
  import opened ImaRuns
  import opened Mediator
  import opened FakeHash
  import opened Translator
  import opened Simulation
  import opened Shadowing
  import opened Shadows

  // ---------- What a call emits, one event or several ----------

  /** mkdir, chown, chmod and the forced integrity hashes. */
  ghost predicate EmitsFolder(m: MState, root: Ino, c: Call, es: seq<ImaEvent>)
    requires c.InitFolder?
  {
    && |es| == 4 && es[0].Sys? && es[1].Sys? && es[2].Sys?
    && es[0].e.Mkdir? && EmitsCreation(m, root, c.path, c.file, Fake(0, 0, MODE_0777), es[0].e, es[0].h)
    && es[1].e.Chown? && es[1].e.file == FileOf(root, c.file) && es[1].h.meta == Fake(c.uid, c.gid, MODE_0777)
    && es[2].e.Chmod? && es[2].e.file == FileOf(root, c.file) && es[2].h.meta == Fake(c.uid, c.gid, c.perms)
    && es[3] == ForceSetHashes(FileOf(root, c.file), "", Fake(c.uid, c.gid, c.perms))
  }

  /** What the close of an initial file records. */
  function InitHashes(c: Call): FileHash
    requires c.InitFile?
  {
    FileHash(c.contentHash, InitCloseMeta(c.uid, c.gid, c.perms, c.contentHash, c.metaHash))
  }

  /** creat, fchown, fchmod and close, all of descriptor 3 of process 0. */
  ghost predicate EmitsFile(m: MState, root: Ino, c: Call, es: seq<ImaEvent>)
    requires c.InitFile?
  {
    && |es| == 4 && es[0].Sys? && es[1].Sys? && es[2].Sys? && es[3].Sys?
    && es[0].e.OpenCreate? && es[0].e.fd == FD(0, 3) && es[0].e.proc == INIT && es[0].e.fdNumber == 3
    && EmitsCreation(m, root, c.path, c.file, Fake(0, 0, MODE_0777), es[0].e, es[0].h)
    && es[1].e.Fchown? && es[1].e.fd == FD(0, 3) && es[1].h.meta == Fake(c.uid, c.gid, MODE_0777)
    && es[2].e.Fchmod? && es[2].e.fd == FD(0, 3) && es[2].h.meta == Fake(c.uid, c.gid, c.perms)
    && es[3].e.Close? && es[3].e.fd == FD(0, 3) && es[3].e.fds == {FD(0, 3)}
    && var now := InitHashes(c);
       es[3].h == Hashes(now.content, now.meta, now.content, now.meta)
  }

  ghost predicate Emits(m: MState, root: Ino, c: Call, es: seq<ImaEvent>) {
    if c.InitFolder? then EmitsFolder(m, root, c, es)
    else if c.InitFile? && c.file !in m.path2ino.Values then EmitsFile(m, root, c, es)
    else if c.SetModes? then es == [SwitchImaMode(c.mode), SwitchEvmMode(c.mode)]
    else |es| == 1 && es[0].Sys? && EmitsOne(m, root, c, es[0].e, es[0].h) && SentBy(c, es[0].e)
  }

  /** A call of the trace, or an event that the mediator does not record, except perhaps in cwd. */
  datatype Act = Called(c: Call) | Unrecorded(cwd: map<int, string>)

  /** One act, the events emitted for it, and the states that the machine runs through. */
  datatype Turn = Turn(act: Act, es: seq<ImaEvent>, ss: seq<Ima>)

  predicate UnrecordedEvent(ie: ImaEvent) {
    || (ie.Sys? && (Quiet(ie.e) || ie.e.Symlink?))
    || ie.MarkImmutable? || ie.UnmarkImmutable?
  }

  /** The machine accepts what the turn emits, and the mediator goes from m to m'. */
  ghost predicate TurnTaken(m: MState, root: Ino, t: Turn, m': MState) {
    && IsRun(t.ss, t.es)
    && match t.act
       case Called(c) => Perform(m, c) == Result(m', Ok) && Emits(m, root, c, t.es)
       case Unrecorded(cwd) => m' == m.(cwd := cwd) && |t.es| == 1 && UnrecordedEvent(t.es[0])
  }

  ghost predicate TurnCovered(m: MState, root: Ino, t: Turn) {
    t.act.Called? ==> Covered(m, root, t.act.c)
  }

  ghost predicate TurnFrom(m: MState, root: Ino, t: Turn, m': MState) {
    TurnTaken(m, root, t, m') && TurnCovered(m, root, t)
  }

  function Start(t: Turn): Ima
    requires |t.ss| > 0
  {
    t.ss[0]
  }

  function End(t: Turn): Ima
    requires |t.ss| > 0
  {
    t.ss[|t.ss| - 1]
  }

  // ---------- From runs to steps ----------

  /** What the events that are no system calls do. */
  ghost predicate OtherStepped(s: Ima, ie: ImaEvent, s': Ima) {
    match ie
    case Sys(_, _) => true
    case SwitchImaMode(mode) => s' == s.(imaMode := mode)
    case SwitchEvmMode(mode) => s' == s.(evmMode := mode)
    case MarkImmutable(_) => s' == s.(immutable := s'.immutable)
    case UnmarkImmutable(_) => s' == s.(immutable := s'.immutable)
    case AnyImaTransition(_) => false
    case ForceSetHashes(file, ima, evm) =>
      file in s.Files() && s' == s.(imaHash := s.imaHash[file := ima], evmHash := s.evmHash[file := evm])
  }

  ghost predicate SteppedAt(ss: seq<Ima>, es: seq<ImaEvent>, i: int)
    requires 0 <= i < |es| < |ss|
  {
    && (es[i].Sys? ==> Stepped(ss[i], es[i].e, es[i].h, ss[i + 1]))
    && OtherStepped(ss[i], es[i], ss[i + 1])
  }

  /** A run, as far as the relation is concerned. */
  ghost predicate SteppedRun(ss: seq<Ima>, es: seq<ImaEvent>) {
    && |ss| == |es| + 1
    && (forall i {:trigger SteppedAt(ss, es, i)} :: 0 <= i < |es| ==> SteppedAt(ss, es, i))
  }

  lemma SysStepOfRun(ss: seq<Ima>, es: seq<ImaEvent>, i: nat)
    requires IsRun(ss, es) && i < |es| && es[i].Sys?
    ensures Stepped(ss[i], es[i].e, es[i].h, ss[i + 1])
  {
    assert StepAt(ss, es, i);
    SysIsStepped(ss[i], es[i].e, es[i].h);
  }

  lemma OtherStepOfRun(ss: seq<Ima>, es: seq<ImaEvent>, i: nat)
    requires IsRun(ss, es) && i < |es|
    ensures OtherStepped(ss[i], es[i], ss[i + 1])
  {
    assert StepAt(ss, es, i);
  }

  lemma StepOfRun(ss: seq<Ima>, es: seq<ImaEvent>, i: nat)
    requires IsRun(ss, es) && i < |es|
    ensures SteppedAt(ss, es, i)
  {
    if es[i].Sys? {
      SysStepOfRun(ss, es, i);
    }
    OtherStepOfRun(ss, es, i);
  }

  lemma RunIsStepped(ss: seq<Ima>, es: seq<ImaEvent>)
    requires IsRun(ss, es)
    ensures SteppedRun(ss, es)
  {
    forall i | 0 <= i < |es|
      ensures SteppedAt(ss, es, i)
    {
      StepOfRun(ss, es, i);
    }
  }

  // ---------- Turns ----------

  lemma SameTablesSim(m: MState, s: Ima, root: Ino, m': MState, s': Ima)
    requires Sim(m, s, root) && SimModes(m', s')
    requires s' == s.(immutable := s'.immutable, imaMode := s'.imaMode, evmMode := s'.evmMode)
    requires m' == m.(cwd := m'.cwd, imaMode := m'.imaMode, evmMode := m'.evmMode)
    ensures Sim(m', s', root)
  {
    forall i | i != root
      ensures HashShadowed(m'.realHashes, m'.integrity, s', i)
    {
      assert HashShadowed(m.realHashes, m.integrity, s, i);
    }
  }

  lemma CreationAt(ss: seq<Ima>, es: seq<ImaEvent>, i: nat, m: MState, root: Ino, path: string, file: Ino,
                   meta: Hash, m': MState)
    requires SteppedRun(ss, es) && i < |es| && es[i].Sys? && Sim(m, ss[i], root)
    requires EmitsCreation(m, root, path, file, meta, es[i].e, es[i].h)
    requires path != "/" && Dirname(path) in m.path2ino
    requires m'.path2ino == m.path2ino[path := file] && m'.stats.Keys == m.stats.Keys + {file}
    requires m'.realHashes == m.realHashes[file := FileHash("", meta)]
    requires m'.integrity == m.integrity && m'.imaMode == m.imaMode && m'.evmMode == m.evmMode
    requires m'.fd2ino ==
      if Opens(es[i].e) then m.fd2ino[ProcFD(es[i].e.fd.owner, es[i].e.fd.num) := file] else m.fd2ino
    ensures Sim(m', ss[i + 1], root)
  {
    assert SteppedAt(ss, es, i);
    CreationFollows(m, ss[i], es[i].e, es[i].h, ss[i + 1], root, path, file, meta, m');
  }

  /** A chmod or chown of the file, by path or through descriptor 3 of process 0. */
  predicate ChangesMeta(fds: map<ProcFD, Ino>, root: Ino, ie: ImaEvent, file: Ino) {
    && ie.Sys?
    && (|| ((ie.e.Chown? || ie.e.Chmod?) && ie.e.file == FileOf(root, file))
        || ((ie.e.Fchown? || ie.e.Fchmod?) && ie.e.fd == FD(0, 3)
            && ProcFD(0, 3) in fds && fds[ProcFD(0, 3)] == file))
  }

  /** The state with new metadata stored for an inode. */
  function WithMeta(m: MState, i: Ino, meta: Hash): MState
    requires i in m.realHashes
  {
    m.(realHashes := m.realHashes[i := FileHash(m.realHashes[i].content, meta)])
  }

  lemma ChangeAt(ss: seq<Ima>, es: seq<ImaEvent>, i: nat, m: MState, root: Ino, file: Ino)
    requires SteppedRun(ss, es) && i < |es| && Sim(m, ss[i], root) && ChangesMeta(m.fd2ino, root, es[i], file)
    requires file in m.stats && file in m.realHashes
    ensures Sim(WithMeta(m, file, es[i].h.meta), ss[i + 1], root)
  {
    assert SteppedAt(ss, es, i);
    if es[i].e.Fchown? || es[i].e.Fchmod? {
      assert DescShadowed(m.fd2ino, ss[i].dac.descs, ss[i].dac.tree.symLinks, root, ProcFD(0, 3));
    }
    MetaFollows(m, ss[i], es[i].e, es[i].h, ss[i + 1], root, file, WithMeta(m, file, es[i].h.meta));
  }

  /** The change of the owner and then of the mode that every initial file gets. */
  lemma ChangesAt(ss: seq<Ima>, es: seq<ImaEvent>, m: MState, root: Ino, file: Ino)
    requires SteppedRun(ss, es) && |es| == 4 && Sim(m, ss[1], root)
    requires ChangesMeta(m.fd2ino, root, es[1], file) && ChangesMeta(m.fd2ino, root, es[2], file)
    requires file in m.stats && file in m.realHashes
    ensures Sim(WithMeta(WithMeta(m, file, es[1].h.meta), file, es[2].h.meta), ss[3], root)
  {
    ChangeAt(ss, es, 1, m, root, file);
    ChangeAt(ss, es, 2, WithMeta(m, file, es[1].h.meta), root, file);
  }

  lemma ForcedAt(ss: seq<Ima>, es: seq<ImaEvent>, i: nat, m: MState, root: Ino, file: Ino, ima: Hash, evm: Hash)
    requires SteppedRun(ss, es) && i < |es| && Sim(m, ss[i], root)
    requires es[i] == ForceSetHashes(FileOf(root, file), ima, evm)
    ensures Sim(m.(integrity := m.integrity[file := FileHash(ima, evm)]), ss[i + 1], root)
  {
    assert SteppedAt(ss, es, i);
    ForcedFollows(m, ss[i], root, file, ima, evm);
  }

  lemma CloseAt(ss: seq<Ima>, es: seq<ImaEvent>, i: nat, m: MState, root: Ino, k: ProcFD, hashes: FileHash)
    requires SteppedRun(ss, es) && i < |es| && es[i].Sys? && Sim(m, ss[i], root)
    requires es[i].e.Close? && k in m.fd2ino && es[i].e.fd == FdOf(k) && es[i].e.fds == {FdOf(k)}
    requires hashes == FileHash(es[i].h.content, es[i].h.meta)
    requires m.fd2ino[k] in m.path2ino.Values && DoClose(m, k, hashes).status == Ok
    ensures Sim(DoClose(m, k, hashes).m, ss[i + 1], root)
  {
    assert SteppedAt(ss, es, i);
    assert {FdOf(k)} <= FdsOfKeys({k});
    CloseFollows(m, ss[i], es[i].e, es[i].h, ss[i + 1], root, k);
  }

  lemma ClosesAlike(m: MState, i: Ino, meta: Hash, k: ProcFD, hashes: FileHash)
    requires k in m.fd2ino && m.fd2ino[k] == i && i in m.realHashes
    ensures DoClose(WithMeta(m, i, meta), k, hashes).status == DoClose(m, k, hashes).status
    ensures DoClose(m, k, hashes).status == Ok ==> DoClose(WithMeta(m, i, meta), k, hashes) == DoClose(m, k, hashes)
  {
  }

  /** The mediator with an initial file or folder entered. */
  ghost predicate MadeFrom(m: MState, c: Call, made: MState)
    requires c.InitFolder? || c.InitFile?
  {
    && made.path2ino == m.path2ino[c.path := c.file] && made.stats.Keys == m.stats.Keys + {c.file}
    && made.realHashes == m.realHashes[c.file := FileHash("", Fake(0, 0, MODE_0777))]
    && made.integrity == m.integrity && made.imaMode == m.imaMode && made.evmMode == m.evmMode
    && made.fd2ino == if c.InitFile? then m.fd2ino[ProcFD(0, 3) := c.file] else m.fd2ino
  }

  lemma ChangesEmitted(m: MState, root: Ino, c: Call, es: seq<ImaEvent>, made: MState)
    requires (c.InitFolder? || c.InitFile?) && MadeFrom(m, c, made)
    requires if c.InitFolder? then EmitsFolder(m, root, c, es) else EmitsFile(m, root, c, es)
    ensures ChangesMeta(made.fd2ino, root, es[1], c.file) && ChangesMeta(made.fd2ino, root, es[2], c.file)
  {
  }

  lemma CreationEmitted(m: MState, root: Ino, c: Call, es: seq<ImaEvent>)
    requires c.InitFolder? || c.InitFile?
    requires if c.InitFolder? then EmitsFolder(m, root, c, es) else EmitsFile(m, root, c, es)
    ensures |es| == 4 && es[0].Sys?
    ensures EmitsCreation(m, root, c.path, c.file, Fake(0, 0, MODE_0777), es[0].e, es[0].h)
    ensures Opens(es[0].e) <==> c.InitFile?
    ensures c.InitFile? ==> es[0].e.fd == FD(0, 3)
  {
  }

  lemma CreatedAt(m: MState, ss: seq<Ima>, es: seq<ImaEvent>, root: Ino, c: Call, made: MState)
    requires SteppedRun(ss, es) && (c.InitFolder? || c.InitFile?) && Sim(m, ss[0], root)
    requires if c.InitFolder? then EmitsFolder(m, root, c, es) else EmitsFile(m, root, c, es)
    requires c.path != "/" && Dirname(c.path) in m.path2ino && MadeFrom(m, c, made)
    ensures Sim(made, ss[1], root)
  {
    hide Sim, SteppedAt, EmitsFolder, EmitsFile, EmitsCreation;
    CreationEmitted(m, root, c, es);
    CreationAt(ss, es, 0, m, root, c.path, c.file, Fake(0, 0, MODE_0777), made);
  }

  lemma EnteredAt(m: MState, ss: seq<Ima>, es: seq<ImaEvent>, root: Ino, c: Call, made: MState)
    requires SteppedRun(ss, es) && (c.InitFolder? || c.InitFile?) && Sim(m, ss[0], root)
    requires if c.InitFolder? then EmitsFolder(m, root, c, es) else EmitsFile(m, root, c, es)
    requires c.path != "/" && Dirname(c.path) in m.path2ino && MadeFrom(m, c, made)
    ensures Sim(made, ss[1], root)
    ensures ChangesMeta(made.fd2ino, root, es[1], c.file) && ChangesMeta(made.fd2ino, root, es[2], c.file)
  {
    hide Sim, SteppedAt, EmitsCreation, MadeFrom, ChangesMeta;
    ChangesEmitted(m, root, c, es, made);
    CreatedAt(m, ss, es, root, c, made);
  }

  function FolderMade(m: MState, c: Call): MState
    requires c.InitFolder?
  {
    NewFile(m, c.path, c.file, c.uid, c.gid, c.perms, Folder, FileHash("", Fake(0, 0, MODE_0777))).m
  }

  lemma FolderMadeEnters(m: MState, c: Call)
    requires c.InitFolder? && Perform(m, c).status == Ok
    ensures Dirname(c.path) in m.path2ino && MadeFrom(m, c, FolderMade(m, c))
  {
  }

  /** What add_init_folder makes of the mediator. */
  lemma FolderOutcome(m: MState, c: Call)
    requires c.InitFolder? && Perform(m, c).status == Ok
    ensures
      var made := FolderMade(m, c);
      && c.file in made.realHashes
      && var owned := WithMeta(made, c.file, Fake(c.uid, c.gid, MODE_0777));
         var moded := WithMeta(owned, c.file, Fake(c.uid, c.gid, c.perms));
         var m' := Perform(m, c).m;
      && m'.stats.Keys == made.stats.Keys
      && m' == moded.(stats := m'.stats, integrity := moded.integrity[c.file := FileHash("", Fake(c.uid, c.gid, c.perms))])
  {
  }

  /** The relation does not look at the stats, except that the root has none. */
  lemma StatsAside(m: MState, s: Ima, root: Ino, m': MState)
    requires Sim(m, s, root) && m'.stats.Keys == m.stats.Keys && m' == m.(stats := m'.stats)
    ensures Sim(m', s, root)
  {
  }

  lemma FolderForced(ss: seq<Ima>, es: seq<ImaEvent>, root: Ino, file: Ino, moded: MState, evm: Hash, m': MState)
    requires SteppedRun(ss, es) && |es| == 4 && Sim(moded, ss[3], root)
    requires es[3] == ForceSetHashes(FileOf(root, file), "", evm)
    requires m'.stats.Keys == moded.stats.Keys
    requires m' == moded.(stats := m'.stats, integrity := moded.integrity[file := FileHash("", evm)])
    ensures Sim(m', ss[4], root)
  {
    ForcedAt(ss, es, 3, moded, root, file, "", evm);
    StatsAside(moded.(integrity := moded.integrity[file := FileHash("", evm)]), ss[4], root, m');
  }

  lemma FolderTurn(m: MState, ss: seq<Ima>, es: seq<ImaEvent>, root: Ino, c: Call)
    requires SteppedRun(ss, es) && c.InitFolder? && EmitsFolder(m, root, c, es) && Covered(m, root, c)
    requires Perform(m, c).status == Ok && Sim(m, ss[0], root)
    ensures Sim(Perform(m, c).m, ss[4], root)
  {
    FolderMadeEnters(m, c);
    FolderOutcome(m, c);
    var made := FolderMade(m, c);
    EnteredAt(m, ss, es, root, c, made);
    ChangesAt(ss, es, made, root, c.file);
    var moded := WithMeta(WithMeta(made, c.file, es[1].h.meta), c.file, es[2].h.meta);
    FolderForced(ss, es, root, c.file, moded, Fake(c.uid, c.gid, c.perms), Perform(m, c).m);
  }

  function FileHeld(m: MState, c: Call): MState
    requires c.InitFile?
  {
    DoOpen(NewFile(m, c.path, c.file, c.uid, c.gid, c.perms, RegularFile, FileHash("", Fake(0, 0, MODE_0777))).m,
           ProcFD(0, 3), c.file).m
  }

  lemma FileOutcome(m: MState, c: Call)
    requires c.InitFile? && c.file !in m.path2ino.Values && Perform(m, c).status == Ok
    ensures Dirname(c.path) in m.path2ino && MadeFrom(m, c, FileHeld(m, c))
    ensures Perform(m, c) == DoClose(FileHeld(m, c), ProcFD(0, 3), InitHashes(c))
  {
  }

  lemma FileCloses(ss: seq<Ima>, es: seq<ImaEvent>, root: Ino, c: Call, held: MState, moded: MState)
    requires SteppedRun(ss, es) && c.InitFile? && |es| == 4 && es[3].Sys? && es[3].e.Close?
    requires es[3].e.fd == FD(0, 3) && es[3].e.fds == {FD(0, 3)}
    requires FileHash(es[3].h.content, es[3].h.meta) == InitHashes(c)
    requires Sim(moded, ss[3], root) && ProcFD(0, 3) in moded.fd2ino && moded.fd2ino[ProcFD(0, 3)] == c.file
    requires c.path in moded.path2ino && moded.path2ino[c.path] == c.file
    requires DoClose(moded, ProcFD(0, 3), InitHashes(c)) == DoClose(held, ProcFD(0, 3), InitHashes(c))
    requires DoClose(held, ProcFD(0, 3), InitHashes(c)).status == Ok
    ensures Sim(DoClose(held, ProcFD(0, 3), InitHashes(c)).m, ss[4], root)
  {
    assert moded.path2ino[c.path] in moded.path2ino.Values;
    CloseAt(ss, es, 3, moded, root, ProcFD(0, 3), InitHashes(c));
  }

  lemma FileTurn(m: MState, ss: seq<Ima>, es: seq<ImaEvent>, root: Ino, c: Call)
    requires SteppedRun(ss, es) && c.InitFile? && EmitsFile(m, root, c, es) && Covered(m, root, c)
    requires c.file !in m.path2ino.Values && Perform(m, c).status == Ok && Sim(m, ss[0], root)
    ensures Sim(Perform(m, c).m, ss[4], root)
  {
    FileOutcome(m, c);
    var held := FileHeld(m, c);
    EnteredAt(m, ss, es, root, c, held);
    ChangesAt(ss, es, held, root, c.file);
    var owned := WithMeta(held, c.file, es[1].h.meta);
    ClosesAlike(held, c.file, es[1].h.meta, ProcFD(0, 3), InitHashes(c));
    ClosesAlike(owned, c.file, es[2].h.meta, ProcFD(0, 3), InitHashes(c));
    FileCloses(ss, es, root, c, held, WithMeta(owned, c.file, es[2].h.meta));
  }

  lemma ModesTurn(m: MState, ss: seq<Ima>, es: seq<ImaEvent>, root: Ino, c: Call)
    requires SteppedRun(ss, es) && c.SetModes? && es == [SwitchImaMode(c.mode), SwitchEvmMode(c.mode)]
    requires Sim(m, ss[0], root)
    ensures Sim(Perform(m, c).m, ss[2], root)
  {
    assert SteppedAt(ss, es, 0) && SteppedAt(ss, es, 1);
    SameTablesSim(m, ss[0], root, Perform(m, c).m, ss[2]);
  }

  lemma OneTurn(m: MState, ss: seq<Ima>, es: seq<ImaEvent>, root: Ino, c: Call)
    requires SteppedRun(ss, es) && |es| == 1 && es[0].Sys? && EmitsOne(m, root, c, es[0].e, es[0].h)
    requires Covered(m, root, c) && Perform(m, c).status == Ok && Sim(m, ss[0], root)
    ensures Sim(Perform(m, c).m, ss[1], root)
  {
    assert SteppedAt(ss, es, 0);
    OneFollows(m, ss[0], es[0].e, es[0].h, ss[1], root, c);
  }

  lemma CalledTurn(m: MState, ss: seq<Ima>, es: seq<ImaEvent>, root: Ino, c: Call)
    requires SteppedRun(ss, es) && Emits(m, root, c, es) && Covered(m, root, c) && Perform(m, c).status == Ok
    requires Sim(m, ss[0], root)
    ensures Sim(Perform(m, c).m, ss[|es|], root)
  {
    if c.InitFolder? {
      FolderTurn(m, ss, es, root, c);
    } else if c.InitFile? && c.file !in m.path2ino.Values {
      FileTurn(m, ss, es, root, c);
    } else if c.SetModes? {
      ModesTurn(m, ss, es, root, c);
    } else {
      OneTurn(m, ss, es, root, c);
    }
  }

  lemma UnrecordedTurn(m: MState, ss: seq<Ima>, es: seq<ImaEvent>, root: Ino, m': MState)
    requires SteppedRun(ss, es) && |es| == 1 && UnrecordedEvent(es[0]) && m' == m.(cwd := m'.cwd)
    requires Sim(m, ss[0], root)
    ensures Sim(m', ss[1], root)
  {
    assert SteppedAt(ss, es, 0);
    if es[0].Sys? && Quiet(es[0].e) {
      QuietFollows(m, ss[0], es[0].e, es[0].h, ss[1], root, m');
    } else if es[0].Sys? {
      SymlinkFollows(m, ss[0], es[0].e, es[0].h, ss[1], root);
      SameTablesSim(m, ss[1], root, m', ss[1]);
    } else {
      SameTablesSim(m, ss[0], root, m', ss[1]);
    }
  }

  lemma NewFileIsNotRoot(m: MState, ss: seq<Ima>, es: seq<ImaEvent>, root: Ino, c: Call)
    requires SteppedRun(ss, es) && (c.InitFolder? || c.InitFile?) && c.path == "/"
    requires if c.InitFolder? then EmitsFolder(m, root, c, es) else EmitsFile(m, root, c, es)
    requires Sim(m, ss[0], root)
    ensures c.file != root
  {
    assert SteppedAt(ss, es, 0);
    assert FileOf(root, c.file) !in ss[0].Files();
  }

  lemma EnteredPath(m: MState, c: Call)
    requires (c.InitFolder? || (c.InitFile? && c.file !in m.path2ino.Values)) && Perform(m, c).status == Ok
    ensures c.path in Perform(m, c).m.path2ino && Perform(m, c).m.path2ino[c.path] == c.file
  {
    if c.InitFolder? {
      FolderMadeEnters(m, c);
      FolderOutcome(m, c);
    } else {
      FileOutcome(m, c);
    }
  }

  lemma RootPathIsRoot(m: MState, s: Ima, root: Ino)
    requires Sim(m, s, root)
    ensures "/" in m.path2ino && m.path2ino["/"] == root
  {
  }

  lemma UncoveredInitBreaks(m: MState, ss: seq<Ima>, es: seq<ImaEvent>, root: Ino, c: Call, s': Ima)
    requires SteppedRun(ss, es) && (c.InitFolder? || (c.InitFile? && c.file !in m.path2ino.Values)) && c.path == "/"
    requires Emits(m, root, c, es) && Perform(m, c).status == Ok && Sim(m, ss[0], root)
    ensures !Sim(Perform(m, c).m, s', root)
  {
    hide Sim, Perform, SteppedAt, EmitsFolder, EmitsFile;
    InitHasFour(m, root, c, es);
    NewFileIsNotRoot(m, ss, es, root, c);
    EnteredPath(m, c);
    if Sim(Perform(m, c).m, s', root) {
      RootPathIsRoot(Perform(m, c).m, s', root);
    }
  }

  lemma InitHasFour(m: MState, root: Ino, c: Call, es: seq<ImaEvent>)
    requires (c.InitFolder? || (c.InitFile? && c.file !in m.path2ino.Values)) && Emits(m, root, c, es)
    ensures if c.InitFolder? then EmitsFolder(m, root, c, es) else EmitsFile(m, root, c, es)
    ensures |es| == 4
  {
  }

  lemma OneTurnIff(m: MState, ss: seq<Ima>, es: seq<ImaEvent>, root: Ino, c: Call)
    requires SteppedRun(ss, es) && |es| == 1 && es[0].Sys? && EmitsOne(m, root, c, es[0].e, es[0].h)
    requires Perform(m, c).status == Ok && Sim(m, ss[0], root)
    ensures Sim(Perform(m, c).m, ss[1], root) <==> Covered(m, root, c)
  {
    hide Sim, Perform, Covered, EmitsOne;
    assert SteppedAt(ss, es, 0);
    OneFollowsIff(m, ss[0], es[0].e, es[0].h, ss[1], root, c);
  }

  /** The turn of a call keeps the two sides together exactly if the call is covered. */
  lemma CalledTurnIff(m: MState, ss: seq<Ima>, es: seq<ImaEvent>, root: Ino, c: Call)
    requires SteppedRun(ss, es) && Emits(m, root, c, es) && Perform(m, c).status == Ok && Sim(m, ss[0], root)
    ensures Sim(Perform(m, c).m, ss[|es|], root) <==> Covered(m, root, c)
  {
    hide Sim, Perform, EmitsFolder, EmitsFile, EmitsOne;
    if Covered(m, root, c) {
      CalledTurn(m, ss, es, root, c);
    } else if c.InitFolder? || (c.InitFile? && c.file !in m.path2ino.Values) {
      UncoveredInitBreaks(m, ss, es, root, c, ss[|es|]);
    } else {
      OneTurnIff(m, ss, es, root, c);
    }
  }

  lemma SteppedTurnIff(m: MState, root: Ino, t: Turn, m': MState)
    requires TurnTaken(m, root, t, m') && SteppedRun(t.ss, t.es) && Sim(m, Start(t), root)
    ensures Sim(m', End(t), root) <==> TurnCovered(m, root, t)
  {
    hide Sim, Emits, Perform, IsRun, Covered;
    match t.act
    case Called(c) => CalledTurnIff(m, t.ss, t.es, root, c);
    case Unrecorded(_) => UnrecordedTurn(m, t.ss, t.es, root, m');
  }

  /** A turn keeps the relation exactly if it is covered. */
  lemma TurnKeepsSimIff(m: MState, root: Ino, t: Turn, m': MState)
    requires TurnTaken(m, root, t, m') && Sim(m, Start(t), root)
    ensures Sim(m', End(t), root) <==> TurnCovered(m, root, t)
  {
    hide Sim, Emits, Perform, TurnCovered;
    RunIsStepped(t.ss, t.es);
    SteppedTurnIff(m, root, t, m');
  }

  // ---------- Runs ----------

  ghost predicate TakenAt(ms: seq<MState>, ts: seq<Turn>, root: Ino, k: int)
    requires 0 <= k < |ts| < |ms|
  {
    TurnTaken(ms[k], root, ts[k], ms[k + 1])
  }

  ghost predicate CoveredAt(ms: seq<MState>, ts: seq<Turn>, root: Ino, k: int)
    requires 0 <= k < |ts| < |ms|
  {
    TurnCovered(ms[k], root, ts[k])
  }

  /** A replay that the machine accepts: the states of the mediator along the trace, and the turns
      between them; the machine goes on where the previous turn left it. */
  ghost predicate IsAccepted(ms: seq<MState>, ts: seq<Turn>, root: Ino) {
    && |ms| == |ts| + 1 && ms[0] == InitialMediator(root)
    && (forall k {:trigger TakenAt(ms, ts, root, k)} :: 0 <= k < |ts| ==> TakenAt(ms, ts, root, k))
    && (forall k :: 0 <= k < |ts| ==> |ts[k].ss| > 0)
    && (|ts| > 0 ==> Start(ts[0]) == InitialIma())
    && (forall k :: 0 < k < |ts| ==> Start(ts[k]) == End(ts[k - 1]))
  }

  /** ... in which every call is covered. */
  ghost predicate IsReplay(ms: seq<MState>, ts: seq<Turn>, root: Ino) {
    && IsAccepted(ms, ts, root)
    && (forall k {:trigger CoveredAt(ms, ts, root, k)} :: 0 <= k < |ts| ==> CoveredAt(ms, ts, root, k))
  }

  /** The state of the machine after n turns. */
  function MachineAfter(ts: seq<Turn>, n: nat): Ima
    requires n <= |ts| && forall k :: 0 <= k < |ts| ==> |ts[k].ss| > 0
  {
    if n == 0 then InitialIma() else End(ts[n - 1])
  }

  lemma InitialSim(root: Ino)
    ensures Sim(InitialMediator(root), InitialIma(), root)
  {
  }

  lemma NextSimIff(ms: seq<MState>, ts: seq<Turn>, root: Ino, k: nat)
    requires IsAccepted(ms, ts, root) && k < |ts| && Sim(ms[k], MachineAfter(ts, k), root)
    ensures Sim(ms[k + 1], MachineAfter(ts, k + 1), root) <==> CoveredAt(ms, ts, root, k)
  {
    hide Sim, TurnTaken, TurnCovered;
    assert TakenAt(ms, ts, root, k);
    TurnKeepsSimIff(ms[k], root, ts[k], ms[k + 1]);
  }

  /** In every replay that the machine accepts and in which every call is covered, the mediator shadows
      the machine throughout. */
  lemma {:induction false} MediatorShadowsMachine(ms: seq<MState>, ts: seq<Turn>, root: Ino, n: nat)
    requires IsReplay(ms, ts, root) && n <= |ts|
    ensures Sim(ms[n], MachineAfter(ts, n), root)
  {
    hide Sim, TakenAt, CoveredAt;
    if n == 0 {
      InitialSim(root);
    } else {
      MediatorShadowsMachine(ms, ts, root, n - 1);
      assert CoveredAt(ms, ts, root, n - 1);
      NextSimIff(ms, ts, root, n - 1);
    }
  }

  /** And only then: among the replays that the machine accepts, the mediator shadows the machine
      throughout exactly in those in which every call is covered. */
  lemma ShadowsThroughoutIff(ms: seq<MState>, ts: seq<Turn>, root: Ino)
    requires IsAccepted(ms, ts, root)
    ensures (forall n: nat :: n <= |ts| ==> Sim(ms[n], MachineAfter(ts, n), root)) <==> IsReplay(ms, ts, root)
  {
    hide Sim, TakenAt, CoveredAt;
    if IsReplay(ms, ts, root) {
      forall n: nat | n <= |ts|
        ensures Sim(ms[n], MachineAfter(ts, n), root)
      {
        MediatorShadowsMachine(ms, ts, root, n);
      }
    }
    if forall n: nat :: n <= |ts| ==> Sim(ms[n], MachineAfter(ts, n), root) {
      forall k: nat | k < |ts|
        ensures CoveredAt(ms, ts, root, k)
      {
        assert Sim(ms[k], MachineAfter(ts, k), root) && Sim(ms[k + 1], MachineAfter(ts, k + 1), root);
        NextSimIff(ms, ts, root, k);
      }
    }
  }

  // ---------- What the relation says about hashes ----------

  /** A file that is open exists exactly if the mediator has a path for it. */
  lemma OpenFileExistsIff(m: MState, s: Ima, root: Ino, k: ProcFD)
    requires Sim(m, s, root) && Basics(s.dac.tree) && k in m.fd2ino
    ensures FileOf(root, m.fd2ino[k]) in s.Files() <==> m.fd2ino[k] in m.path2ino.Values
  {
    if m.fd2ino[k] in m.path2ino.Values {
      PathsExist(m, s, root, m.fd2ino[k]);
    } else {
      PathlessIsGone(m, s, root, k);
    }
  }

  /** The close that the translator sends, whatever the monitor reports, against the guards: the old
      hashes always meet grd11 and grd13; the rest is a matter of the new hashes against the stored
      ones, of whether the inode has a path, and of whether the descriptor is read-only. */
  lemma CloseIsAcceptedIff(m: MState, s: Ima, root: Ino, k: ProcFD, content: Option<Hash>, given: Option<Hash>)
    requires Sim(m, s, root) && ImaTypes(s) && Basics(s.dac.tree) && k in m.fd2ino && m.fd2ino[k] != root
    ensures FdOf(k) in s.dac.descs.open && s.dac.descs.open[FdOf(k)].file == FileOf(root, m.fd2ino[k])
    ensures
      var i := m.fd2ino[k];
      var f := FileOf(root, i);
      var h := CloseArguments(m, i, content, given);
      && (s.imaMode != FIX && f in s.imaHash ==> h.ima == s.imaHash[f])
      && (s.evmMode != FIX && f in s.evmHash ==> h.evm == s.evmHash[f])
      && (ImaClose(s, FdOf(k), h) <==>
            && (m.BothFix() ==> m.IntegrityOf(i) == FileHash(h.content, h.meta))
            && (i in m.path2ino.Values ==>
                  && (h.meta == m.RealOf(i).meta <==> (h.content == m.RealOf(i).content || !m.BothFix()))
                  && (O_RDONLY in s.dac.descs.open[FdOf(k)].flags ==> FileHash(h.content, h.meta) == m.RealOf(i))))
  {
    OpenFileExistsIff(m, s, root, k);
    assert DescShadowed(m.fd2ino, s.dac.descs, s.dac.tree.symLinks, root, k);
    assert HashShadowed(m.realHashes, m.integrity, s, m.fd2ino[k]);
  }

  predicate NoHash(h: Option<Hash>) {
    h == None || h == Some("")
  }

  /** Without hashes from the monitor the stored ones are sent; then the guards are met in all modes
      but FIX, and in FIX exactly if the inode was measured as it is. */
  lemma CachedCloseIsAcceptedIff(m: MState, s: Ima, root: Ino, k: ProcFD, content: Option<Hash>, given: Option<Hash>)
    requires Sim(m, s, root) && ImaTypes(s) && Basics(s.dac.tree) && k in m.fd2ino && m.fd2ino[k] != root
    requires NoHash(content) && NoHash(given)
    ensures ImaClose(s, FdOf(k), CloseArguments(m, m.fd2ino[k], content, given)) <==>
      (m.BothFix() ==> m.IntegrityOf(m.fd2ino[k]) == m.RealOf(m.fd2ino[k]))
  {
    CloseIsAcceptedIff(m, s, root, k, content, given);
  }

  /** The mediator can tell which files an appraising kernel lets through. */
  lemma AppraisalIsVisible(m: MState, s: Ima, root: Ino, i: Ino)
    requires Sim(m, s, root) && i != root
    requires FileOf(root, i) in s.Files() && FileOf(root, i) !in s.dac.tree.symLinks
    ensures Appraised(s, FileOf(root, i)) <==>
      (m.imaMode == ENFORCE ==>
         && i in m.integrity && m.integrity[i].content == m.RealOf(i).content
         && (m.evmMode == ENFORCE ==> m.integrity[i].meta == m.RealOf(i).meta))
  {
    assert HashShadowed(m.realHashes, m.integrity, s, i);
  }

  lemma TurnsHaveEvents(m: MState, root: Ino, t: Turn, m': MState)
    requires TurnTaken(m, root, t, m')
    ensures IsRun(t.ss, t.es) && |t.es| > 0
  {
    hide EmitsOne, EmitsCreation, Perform, IsRun, UnrecordedEvent;
  }

  lemma TypesAfterStep(s: Ima, ie: ImaEvent)
    requires ImaInv(s) && ImaGuard(s, ie)
    ensures ImaTypes(ApplyIma(s, ie)) && Basics(ApplyIma(s, ie).dac.tree)
  {
    hide DacInv;
    EveryImaEventKeeps(s, ie);
    BasicsHold(ApplyIma(s, ie).dac);
  }

  lemma TypesAfterRun(ss: seq<Ima>, es: seq<ImaEvent>)
    requires IsRun(ss, es) && |es| > 0
    ensures ImaTypes(ss[|es|]) && Basics(ss[|es|].dac.tree)
  {
    hide ImaTypes, Basics;
    assert StepAt(ss, es, |es| - 1);
    TypesAfterStep(ss[|es| - 1], es[|es| - 1]);
  }

  lemma TypesAfter(ms: seq<MState>, ts: seq<Turn>, root: Ino, n: nat)
    requires IsReplay(ms, ts, root) && n <= |ts|
    ensures ImaTypes(MachineAfter(ts, n)) && Basics(MachineAfter(ts, n).dac.tree)
  {
    if n > 0 {
      assert TakenAt(ms, ts, root, n - 1);
      TypesAfterRun(ts[n - 1].ss, ts[n - 1].es);
    }
  }

  /** After any replay, for any descriptor on another file than the root: the close that is sent next
      carries the old hashes that the machine has, and without hashes from the monitor it meets all
      of the guards, in all modes but FIX. */
  lemma ReplayedClosesMeetGuards(ms: seq<MState>, ts: seq<Turn>, root: Ino, n: nat, k: ProcFD,
                                 content: Option<Hash>, given: Option<Hash>)
    requires IsReplay(ms, ts, root) && n <= |ts| && k in ms[n].fd2ino && ms[n].fd2ino[k] != root
    ensures
      var s := MachineAfter(ts, n);
      var f := FileOf(root, ms[n].fd2ino[k]);
      var h := CloseArguments(ms[n], ms[n].fd2ino[k], content, given);
      && (s.imaMode != FIX && f in s.imaHash ==> h.ima == s.imaHash[f])
      && (s.evmMode != FIX && f in s.evmHash ==> h.evm == s.evmHash[f])
      && (NoHash(content) && NoHash(given) && !ms[n].BothFix() ==> ImaClose(s, FdOf(k), h))
  {
    hide Sim, TakenAt, CoveredAt;
    MediatorShadowsMachine(ms, ts, root, n);
    TypesAfter(ms, ts, root, n);
    CloseIsAcceptedIff(ms[n], MachineAfter(ts, n), root, k, content, given);
  }
}
