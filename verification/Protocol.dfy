/** The protocol of the replay: the setup, in FIX mode or without appraisal, and then the trace; and
    what holds of the mediator's own tables throughout. */
module Protocol {
  import opened Context
  import opened DacEvents
  import opened Ima
  import opened ImaRuns
  import opened Mediator
  import opened FakeHash
  import opened Translator
  import opened Simulation
  import opened Shadowing
  import opened Shadows
  import opened TraceRuns

  // ---------- Modes ----------

  predicate SameModes(m: MState, m': MState) {
    m'.imaMode == m.imaMode && m'.evmMode == m.evmMode
  }

  lemma OpeningKeepsModes(m: MState, c: Call)
    requires c.Open? || c.Creat? || c.Mkdir? || c.Link?
    ensures SameModes(m, Perform(m, c).m)
  {
  }

  lemma FolderKeepsModes(m: MState, c: Call)
    requires c.InitFolder?
    ensures SameModes(m, Perform(m, c).m)
  {
  }

  lemma DoCloseKeepsModes(m: MState, fd: ProcFD, hashes: FileHash)
    ensures SameModes(m, DoClose(m, fd, hashes).m)
  {
  }

  lemma NewFileKeepsModes(m: MState, c: Call)
    requires c.InitFile?
    ensures SameModes(m, InitNewFile(m, c.path, c.file, c.uid, c.gid, c.perms, c.contentHash, c.metaHash).m)
  {
    hide DoClose, Fake;
    var made := NewFile(m, c.path, c.file, c.uid, c.gid, c.perms, RegularFile, FileHash("", Fake(0, 0, MODE_0777)));
    var held := DoOpen(made.m, ProcFD(0, 3), c.file);
    DoCloseKeepsModes(held.m, ProcFD(0, 3),
                      FileHash(c.contentHash, InitCloseMeta(c.uid, c.gid, c.perms, c.contentHash, c.metaHash)));
  }

  lemma FileKeepsModes(m: MState, c: Call)
    requires c.InitFile?
    ensures SameModes(m, Perform(m, c).m)
  {
    hide InitNewFile;
    NewFileKeepsModes(m, c);
  }

  lemma ChangingKeepsModes(m: MState, c: Call)
    requires c.Chmod? || c.Fchmod? || c.Chown? || c.Fchown?
    ensures SameModes(m, Perform(m, c).m)
  {
  }

  lemma ClosingKeepsModes(m: MState, c: Call)
    requires c.Close? || c.Exit? || c.Unlink? || c.Rmdir? || c.Chdir?
    ensures SameModes(m, Perform(m, c).m)
  {
  }

  lemma CallKeepsModes(m: MState, c: Call)
    requires !c.SetModes?
    ensures SameModes(m, Perform(m, c).m)
  {
    hide Perform, SameModes;
    if c.Open? || c.Creat? || c.Mkdir? || c.Link? {
      OpeningKeepsModes(m, c);
    } else if c.InitFolder? {
      FolderKeepsModes(m, c);
    } else if c.InitFile? {
      FileKeepsModes(m, c);
    } else if c.Chmod? || c.Fchmod? || c.Chown? || c.Fchown? {
      ChangingKeepsModes(m, c);
    } else {
      ClosingKeepsModes(m, c);
    }
  }

  /** _replay_setup up to its last switch. */
  predicate SetupAct(a: Act) {
    a.Called? ==> a.c.InitFolder? || a.c.InitFile? || a.c.SetModes?
  }

  /** _replay_login and _replay_trace. */
  predicate TraceAct(a: Act) {
    a.Called? ==> !a.c.InitFolder? && !a.c.InitFile? && !a.c.SetModes?
  }

  /** p turns of setup and then the trace. The setup switches to FIX only if it ends with the switch
      to ENFORCE. */
  predicate IsProtocol(ts: seq<Turn>, p: nat) {
    && p <= |ts|
    && (forall k :: 0 <= k < p ==> SetupAct(ts[k].act))
    && (forall k :: p <= k < |ts| ==> TraceAct(ts[k].act))
    && ((p > 0 && ts[p - 1].act == Called(SetModes(ENFORCE)))
        || forall k :: 0 <= k < p ==> ts[k].act != Called(SetModes(FIX)))
  }

  lemma TurnModes(m: MState, root: Ino, t: Turn, m': MState)
    requires TurnTaken(m, root, t, m')
    ensures
      if t.act.Called? && t.act.c.SetModes? then m'.imaMode == m'.evmMode == t.act.c.mode
      else SameModes(m, m')
  {
    hide Emits, IsRun, UnrecordedEvent, Perform;
    if t.act.Called? && !t.act.c.SetModes? {
      CallKeepsModes(m, t.act.c);
    } else if t.act.Called? {
      SetModesSets(m, t.act.c);
    }
  }

  lemma SetModesSets(m: MState, c: Call)
    requires c.SetModes?
    ensures Perform(m, c).m.imaMode == Perform(m, c).m.evmMode == c.mode
  {
  }

  lemma {:induction false} NeverFix(ms: seq<MState>, ts: seq<Turn>, root: Ino, n: nat)
    requires IsAccepted(ms, ts, root) && n <= |ts|
    requires forall k :: 0 <= k < n ==> ts[k].act != Called(SetModes(FIX))
    ensures ms[n].imaMode != FIX
  {
    hide TurnTaken;
    if n > 0 {
      NeverFix(ms, ts, root, n - 1);
      assert TakenAt(ms, ts, root, n - 1);
      TurnModes(ms[n - 1], root, ts[n - 1], ms[n]);
    }
  }

  /** No call of the trace happens in FIX mode. */
  lemma {:induction false} TraceIsNotInFix(ms: seq<MState>, ts: seq<Turn>, root: Ino, p: nat, n: nat)
    requires IsAccepted(ms, ts, root) && IsProtocol(ts, p) && p <= n <= |ts|
    ensures ms[n].imaMode != FIX
  {
    hide TurnTaken;
    if n > p {
      TraceIsNotInFix(ms, ts, root, p, n - 1);
      assert TakenAt(ms, ts, root, n - 1);
      TurnModes(ms[n - 1], root, ts[n - 1], ms[n]);
    } else if p > 0 && ts[p - 1].act == Called(SetModes(ENFORCE)) {
      assert TakenAt(ms, ts, root, p - 1);
      TurnModes(ms[p - 1], root, ts[p - 1], ms[p]);
    } else {
      NeverFix(ms, ts, root, p);
    }
  }

  /** What is left to ask: nothing is created at "/", and what is unlinked has one link. */
  predicate PlainlyCovered(m: MState, c: Call) {
    match c
    case Creat(path, _, _, _, _, _, _) => path != "/"
    case Mkdir(path, _, _, _, _) => path != "/"
    case InitFolder(path, _, _, _, _) => path != "/"
    case InitFile(path, _, _, _, _, _, _) => path != "/"
    case Unlink(path) => path in m.path2ino && m.path2ino[path] in m.stats ==> m.stats[m.path2ino[path]].nlink == 1
    case _ => true
  }

  lemma CoveredOutsideFix(m: MState, root: Ino, c: Call)
    requires m.imaMode != FIX || (!c.Close? && !c.Exit?)
    ensures Covered(m, root, c) <==> PlainlyCovered(m, c)
  {
  }

  lemma CoveredInProtocol(ms: seq<MState>, ts: seq<Turn>, root: Ino, p: nat, k: nat)
    requires IsAccepted(ms, ts, root) && IsProtocol(ts, p) && k < |ts|
    ensures CoveredAt(ms, ts, root, k) <==> (ts[k].act.Called? ==> PlainlyCovered(ms[k], ts[k].act.c))
  {
    hide TakenAt, Covered, PlainlyCovered;
    if ts[k].act.Called? {
      if p <= k {
        TraceIsNotInFix(ms, ts, root, p, k);
      }
      CoveredOutsideFix(ms[k], root, ts[k].act.c);
    }
  }

  /** In an accepted replay of the protocol, the mediator shadows the machine throughout exactly if
      nothing is created at "/" and every unlink is of an inode with one link. */
  lemma ProtocolShadowsIff(ms: seq<MState>, ts: seq<Turn>, root: Ino, p: nat)
    requires IsAccepted(ms, ts, root) && IsProtocol(ts, p)
    ensures (forall n: nat :: n <= |ts| ==> Sim(ms[n], MachineAfter(ts, n), root)) <==>
      (forall k :: 0 <= k < |ts| && ts[k].act.Called? ==> PlainlyCovered(ms[k], ts[k].act.c))
  {
    hide Sim, TakenAt, CoveredAt, PlainlyCovered, IsProtocol;
    ShadowsThroughoutIff(ms, ts, root);
    forall k: nat | k < |ts|
      ensures CoveredAt(ms, ts, root, k) <==> (ts[k].act.Called? ==> PlainlyCovered(ms[k], ts[k].act.c))
    {
      CoveredInProtocol(ms, ts, root, p, k);
    }
  }

  // ---------- Stats ----------

  lemma LinkedPathIsNew(m: MState, c: Call)
    requires c.InitFile? && c.file in m.path2ino.Values && Perform(m, c).status == Ok
    ensures c.path !in m.path2ino
  {
  }

  /** What the machine accepts names paths and inodes as the stats need it. */
  lemma AcceptedCallFits(m: MState, s: Ima, e: Event, h: Hashes, s': Ima, root: Ino, c: Call)
    requires Follows(m, s, e, h, s', root) && EmitsOne(m, root, c, e, h) && Covered(m, root, c)
    requires Perform(m, c).status == Ok
    ensures Fits(m, root, c)
  {
    hide Sim, Stepped, Perform, EmitsLink, CloseArguments, ClosedKeys, ChmodHash, ChownHash, Fake;
    if (c.Open? && c.path !in m.path2ino) || c.Creat? || c.Mkdir? {
      RootHasPath(m, s, root);
      CreationPathIsFree(m, s, e, h, s', root, c.path, c.file, Fake(c.uid, c.gid, c.perms));
    } else if c.Unlink? || c.Rmdir? {
      RootIsNotRemoved(s, e, h, s');
    } else if c.InitFile? {
      LinkedPathIsNew(m, c);
    }
  }

  lemma AcceptedInitFits(m: MState, ss: seq<Ima>, es: seq<ImaEvent>, root: Ino, c: Call)
    requires SteppedRun(ss, es) && (c.InitFolder? || (c.InitFile? && c.file !in m.path2ino.Values))
    requires Emits(m, root, c, es) && Covered(m, root, c) && Sim(m, ss[0], root)
    ensures Fits(m, root, c)
  {
    hide Sim, Stepped, EmitsFolder, EmitsFile, Perform;
    InitHasFour(m, root, c, es);
    CreationEmitted(m, root, c, es);
    assert SteppedAt(ss, es, 0);
    CreationPathIsFree(m, ss[0], es[0].e, es[0].h, ss[1], root, c.path, c.file, Fake(0, 0, MODE_0777));
  }

  lemma AcceptedTurnFits(m: MState, root: Ino, t: Turn, m': MState)
    requires TurnTaken(m, root, t, m') && SteppedRun(t.ss, t.es) && TurnCovered(m, root, t)
    requires Sim(m, Start(t), root) && t.act.Called?
    ensures Fits(m, root, t.act.c)
  {
    hide Sim, Stepped, Perform, Covered, IsRun, EmitsFolder, EmitsFile, EmitsOne, Fits;
    var c := t.act.c;
    if c.InitFolder? || (c.InitFile? && c.file !in m.path2ino.Values) {
      AcceptedInitFits(m, t.ss, t.es, root, c);
    } else if c.SetModes? {
      SetModesFits(m, root, c);
    } else {
      assert SteppedAt(t.ss, t.es, 0);
      AcceptedCallFits(m, t.ss[0], t.es[0].e, t.es[0].h, t.ss[1], root, c);
    }
  }

  lemma SetModesFits(m: MState, root: Ino, c: Call)
    requires c.SetModes?
    ensures Fits(m, root, c)
  {
  }

  lemma TurnKeepsStats(m: MState, root: Ino, t: Turn, m': MState)
    requires TurnTaken(m, root, t, m') && TurnCovered(m, root, t) && Sim(m, Start(t), root) && StatsExact(m, root)
    ensures StatsExact(m', root)
  {
    hide Sim, Emits, Perform, Fits, UnrecordedEvent;
    if t.act.Called? {
      RunIsStepped(t.ss, t.es);
      AcceptedTurnFits(m, root, t, m');
      CallKeepsStats(m, root, t.act.c);
    }
  }

  /** Throughout a replay the stats are exactly those of the inodes, the root aside, that a path or a
      descriptor names; in particular exit never fails. */
  lemma {:induction false} StatsExactThroughout(ms: seq<MState>, ts: seq<Turn>, root: Ino, n: nat)
    requires IsReplay(ms, ts, root) && n <= |ts|
    ensures StatsExact(ms[n], root) && StatsCoverDescs(ms[n])
  {
    hide Sim, TurnTaken, TurnCovered, StatsExact, StatsCoverDescs;
    if n == 0 {
      InitialStatsExact(root);
    } else {
      StatsExactThroughout(ms, ts, root, n - 1);
      MediatorShadowsMachine(ms, ts, root, n - 1);
      assert TakenAt(ms, ts, root, n - 1) && CoveredAt(ms, ts, root, n - 1);
      TurnKeepsStats(ms[n - 1], root, ts[n - 1], ms[n]);
    }
    ExitFreesExactly(ms[n], root, 0);
  }
}
