/** Who holds a descriptor: the process of the pid that the mediator keeps it under, and without fork
    nobody else. The translator decides by the numbers of descriptors which of them a close gives up;
    the machine decides by who holds it. */
module Sharing {
  import opened Context
  import opened DacState
  import opened DacEvents
  import opened DacSteps
  import opened Ima
  import opened ImaRuns
  import opened SimFacts
  import opened Mediator
  import opened Translator
  import opened Simulation
  import opened Shadowing
  import opened TraceRuns

  // ---------- One event ----------

  /** The event makes the process let go of the descriptor. */
  predicate LetsGo(e: Event, h: Held) {
    ((e.Close? || e.Execve?) && h.fd in e.fds) || (e.Exit? && h.proc == e.proc)
  }

  /** Descriptors are taken up by opening and let go by close, execve and exit. */
  ghost predicate HoldsStep(d: Descs, e: Event, d': Descs) {
    && (Opens(e) ==> Held(e.proc, e.fd) in d'.procFDs)
    && (forall h :: h in d.procFDs && !LetsGo(e, h) ==> h in d'.procFDs)
    && (forall h :: h in d'.procFDs ==> h in d.procFDs || (Opens(e) && h == Held(e.proc, e.fd)))
  }

  lemma OpeningHolds(s: Dac, e: Event)
    requires DacInv(s) && Opens(e) && FileGuard(s, e)
    ensures HoldsStep(s.descs, e, ApplyFile(s, e).descs)
  {
    hide DacInv;
    OpeningDescs(s, e);
  }

  lemma ProcEventHolds(s: Dac, e: Event)
    requires DacInv(s) && ProcEvent(e) && !e.Fork? && ProcGuard(s, e)
    ensures HoldsStep(s.descs, e, ApplyProc(s, e).descs)
  {
    hide DacInv;
  }

  lemma OtherEventHolds(s: Dac, e: Event)
    requires DacInv(s) && !FileEvent(e) && !ProcEvent(e) && !e.AnyTransition? && Guard(s, e)
    ensures Apply(s, e).descs == s.descs
  {
    hide DacInv;
  }

  lemma SameHolds(d: Descs, e: Event)
    requires !Opens(e)
    ensures HoldsStep(d, e, d)
  {
  }

  /** Every event but fork. */
  lemma EveryEventHolds(s: Dac, e: Event)
    requires DacInv(s) && Guard(s, e) && !e.AnyTransition? && !e.Fork?
    ensures HoldsStep(s.descs, e, Apply(s, e).descs)
  {
    hide DacInv, HoldsStep;
    if Opens(e) {
      OpeningHolds(s, e);
    } else if FileEvent(e) {
      UnopenedDescs(s, e);
      SameHolds(s.descs, e);
    } else if ProcEvent(e) {
      ProcEventHolds(s, e);
    } else {
      OtherEventHolds(s, e);
      SameHolds(s.descs, e);
    }
  }

  /** Processes come by login, if there is no fork. */
  lemma EveryEventProcs(s: Dac, e: Event)
    requires DacInv(s) && Guard(s, e) && !e.AnyTransition? && !e.Fork?
    ensures Apply(s, e).procs.table.Keys <= s.procs.table.Keys + (if e.Login? then {e.proc} else {})
  {
    hide DacInv;
    if FileEvent(e) {
      FileEventProcs(s, e);
    }
  }

  lemma FileEventProcs(s: Dac, e: Event)
    requires DacInv(s) && FileEvent(e) && FileGuard(s, e)
    ensures ApplyFile(s, e).procs == s.procs
  {
    hide DacInv;
  }

  // ---------- Runs ----------

  predicate IsFork(ie: ImaEvent) {
    ie.Sys? && ie.e.Fork?
  }

  predicate NoFork(es: seq<ImaEvent>) {
    forall i :: 0 <= i < |es| ==> !IsFork(es[i])
  }

  /** What a step does to who holds what, and to the processes. */
  ghost predicate HeldAt(ss: seq<Ima>, es: seq<ImaEvent>, i: int)
    requires 0 <= i < |es| < |ss|
  {
    if es[i].Sys? then
      && HoldsStep(ss[i].dac.descs, es[i].e, ss[i + 1].dac.descs)
      && ss[i + 1].dac.procs.table.Keys <= ss[i].dac.procs.table.Keys + (if es[i].e.Login? then {es[i].e.proc} else {})
    else ss[i + 1].dac == ss[i].dac
  }

  ghost predicate HeldRun(ss: seq<Ima>, es: seq<ImaEvent>) {
    && |ss| == |es| + 1
    && (forall i {:trigger HeldAt(ss, es, i)} :: 0 <= i < |es| ==> HeldAt(ss, es, i))
  }

  lemma HeldStep(s: Ima, ie: ImaEvent)
    requires ImaInv(s) && ImaGuard(s, ie) && !ie.AnyImaTransition? && !IsFork(ie)
    ensures
      var s' := ApplyIma(s, ie);
      if ie.Sys? then
        && HoldsStep(s.dac.descs, ie.e, s'.dac.descs)
        && s'.dac.procs.table.Keys <= s.dac.procs.table.Keys + (if ie.e.Login? then {ie.e.proc} else {})
      else s'.dac == s.dac
  {
    hide DacInv, HoldsStep;
    if ie.Sys? {
      EveryEventHolds(s.dac, ie.e);
      EveryEventProcs(s.dac, ie.e);
    }
  }

  lemma RunIsHeldRun(ss: seq<Ima>, es: seq<ImaEvent>)
    requires IsRun(ss, es) && NoFork(es)
    ensures HeldRun(ss, es)
  {
    hide ImaInv, HoldsStep;
    forall i | 0 <= i < |es|
      ensures HeldAt(ss, es, i)
    {
      assert StepAt(ss, es, i);
      HeldStep(ss[i], es[i]);
    }
  }

  lemma FourAreNoFork(es: seq<ImaEvent>)
    requires |es| == 4 && !IsFork(es[0]) && !IsFork(es[1]) && !IsFork(es[2]) && !IsFork(es[3])
    ensures NoFork(es)
  {
  }

  lemma FolderIsNoFork(m: MState, root: Ino, c: Call, es: seq<ImaEvent>)
    requires c.InitFolder? && EmitsFolder(m, root, c, es)
    ensures NoFork(es)
  {
    hide EmitsCreation, NoFork;
    FourAreNoFork(es);
  }

  lemma FileIsNoFork(m: MState, root: Ino, c: Call, es: seq<ImaEvent>)
    requires c.InitFile? && EmitsFile(m, root, c, es)
    ensures NoFork(es)
  {
    hide EmitsCreation, NoFork;
    FourAreNoFork(es);
  }

  lemma OneIsNoFork(m: MState, root: Ino, c: Call, e: Event, h: Hashes)
    requires EmitsOne(m, root, c, e, h)
    ensures !e.Fork?
  {
  }

  lemma EmitsNoFork(m: MState, root: Ino, c: Call, es: seq<ImaEvent>)
    requires Emits(m, root, c, es)
    ensures NoFork(es)
  {
    hide EmitsFolder, EmitsFile, EmitsOne;
    if c.InitFolder? {
      FolderIsNoFork(m, root, c, es);
    } else if c.InitFile? && c.file !in m.path2ino.Values {
      FileIsNoFork(m, root, c, es);
    } else if !c.SetModes? {
      OneIsNoFork(m, root, c, es[0].e, es[0].h);
    }
  }

  lemma TurnHasNoFork(m: MState, root: Ino, t: Turn, m': MState)
    requires TurnTaken(m, root, t, m')
    ensures IsRun(t.ss, t.es) && NoFork(t.es)
  {
    hide Emits, Perform;
    if t.act.Called? {
      EmitsNoFork(m, root, t.act.c, t.es);
    }
  }

  // ---------- The holder ----------

  /** What the mediator has open under a pid, the process of that pid holds. */
  ghost predicate HolderKnown(fds: map<ProcFD, Ino>, d: Descs) {
    forall k :: k in fds ==> Held(ProcOf(k.proc), FdOf(k)) in d.procFDs
  }

  /** The descriptors after a call. */
  predicate FdsAfter(m: MState, c: Call, m': MState) {
    if c.Open? || c.Creat? then
      m'.fd2ino.Keys == m.fd2ino.Keys + {ProcFD(c.pid, c.fd)}
    else if c.Close? then m'.fd2ino.Keys == m.fd2ino.Keys - {ProcFD(c.pid, c.fd)}
    else if c.Exit? then m'.fd2ino.Keys == m.fd2ino.Keys - FdsOf(m, c.pid)
    else m'.fd2ino.Keys == m.fd2ino.Keys
  }

  lemma OpeningFds(m: MState, c: Call)
    requires (c.Open? || c.Creat?) && Perform(m, c).status == Ok
    ensures FdsAfter(m, c, Perform(m, c).m)
  {
  }

  lemma FolderFds(m: MState, c: Call)
    requires c.InitFolder? && Perform(m, c).status == Ok
    ensures FdsAfter(m, c, Perform(m, c).m)
  {
    hide Perform;
    FolderMadeEnters(m, c);
    FolderOutcome(m, c);
  }

  lemma LinkedFds(m: MState, c: Call)
    requires c.InitFile? && c.file in m.path2ino.Values && Perform(m, c).status == Ok
    ensures FdsAfter(m, c, Perform(m, c).m)
  {
  }

  lemma FileFds(m: MState, c: Call)
    requires c.InitFile? && c.file !in m.path2ino.Values && Perform(m, c).status == Ok
    ensures FdsAfter(m, c, Perform(m, c).m)
    ensures ProcFD(0, 3) !in m.fd2ino
  {
    DescriptorIsFree(m, c);
    hide Perform;
    FileOutcome(m, c);
    assert m.fd2ino.Keys + {ProcFD(0, 3)} - {ProcFD(0, 3)} == m.fd2ino.Keys;
  }

  lemma DescriptorIsFree(m: MState, c: Call)
    requires c.InitFile? && c.file !in m.path2ino.Values && Perform(m, c).status == Ok
    ensures ProcFD(0, 3) !in m.fd2ino
  {
    hide DoClose;
  }

  lemma OtherFds(m: MState, c: Call)
    requires !c.Open? && !c.Creat? && !c.InitFolder? && !c.InitFile? && Perform(m, c).status == Ok
    ensures FdsAfter(m, c, Perform(m, c).m)
  {
  }

  lemma CallFds(m: MState, c: Call)
    requires Perform(m, c).status == Ok
    ensures FdsAfter(m, c, Perform(m, c).m)
  {
    hide Perform, FdsAfter;
    if c.Open? || c.Creat? {
      OpeningFds(m, c);
    } else if c.InitFolder? {
      FolderFds(m, c);
    } else if c.InitFile? && c.file in m.path2ino.Values {
      LinkedFds(m, c);
    } else if c.InitFile? {
      FileFds(m, c);
    } else {
      OtherFds(m, c);
    }
  }

  lemma OneKeepsHolder(m: MState, root: Ino, c: Call, e: Event, h: Hashes, m': MState, d: Descs, d': Descs)
    requires EmitsOne(m, root, c, e, h) && SentBy(c, e) && FdsAfter(m, c, m')
    requires HolderKnown(m.fd2ino, d) && HoldsStep(d, e, d')
    ensures HolderKnown(m'.fd2ino, d')
  {
    forall k | k in m'.fd2ino
      ensures Held(ProcOf(k.proc), FdOf(k)) in d'.procFDs
    {
      if k in m.fd2ino {
        KeptByOne(m, root, c, e, h, m', k);
      } else {
        OpenedByOne(m, root, c, e, h, m', k);
      }
    }
  }

  lemma KeptByOne(m: MState, root: Ino, c: Call, e: Event, h: Hashes, m': MState, k: ProcFD)
    requires EmitsOne(m, root, c, e, h) && SentBy(c, e) && FdsAfter(m, c, m') && k in m.fd2ino && k in m'.fd2ino
    ensures !LetsGo(e, Held(ProcOf(k.proc), FdOf(k)))
  {
    if c.Close? || c.Exit? {
      KeptByClosing(m, root, c, e, h, m', k);
    } else {
      OnlyClosingCloses(m, root, c, e, h);
    }
  }

  lemma KeptByClosing(m: MState, root: Ino, c: Call, e: Event, h: Hashes, m': MState, k: ProcFD)
    requires c.Close? || c.Exit?
    requires EmitsOne(m, root, c, e, h) && SentBy(c, e) && FdsAfter(m, c, m') && k in m.fd2ino && k in m'.fd2ino
    ensures !LetsGo(e, Held(ProcOf(k.proc), FdOf(k)))
  {
    hide CloseArguments;
  }

  lemma OnlyClosingCloses(m: MState, root: Ino, c: Call, e: Event, h: Hashes)
    requires EmitsOne(m, root, c, e, h) && !c.Close? && !c.Exit?
    ensures !e.Close? && !e.Exit? && !e.Execve?
  {
    hide EmitsCreation, ChmodHash, ChownHash;
  }

  lemma OpenedByOne(m: MState, root: Ino, c: Call, e: Event, h: Hashes, m': MState, k: ProcFD)
    requires EmitsOne(m, root, c, e, h) && SentBy(c, e) && FdsAfter(m, c, m') && k !in m.fd2ino && k in m'.fd2ino
    ensures Opens(e) && Held(ProcOf(k.proc), FdOf(k)) == Held(e.proc, e.fd)
  {
    hide EmitsCreation, ClosedKeys, CloseArguments, ChmodHash, ChownHash;
    assert c.Open? || c.Creat?;
  }

  // ---------- The holder, over turns ----------

  /** No event makes the process let go of the descriptor. */
  predicate Keeps(es: seq<ImaEvent>, h: Held) {
    forall i :: 0 <= i < |es| && es[i].Sys? ==> !LetsGo(es[i].e, h)
  }

  lemma {:induction false} HeldAlong(ss: seq<Ima>, es: seq<ImaEvent>, h: Held, n: nat)
    requires HeldRun(ss, es) && Keeps(es, h) && n <= |es| && h in ss[0].dac.descs.procFDs
    ensures h in ss[n].dac.descs.procFDs
  {
    if n > 0 {
      HeldAlong(ss, es, h, n - 1);
      assert HeldAt(ss, es, n - 1);
    }
  }

  lemma FourKeep(es: seq<ImaEvent>, h: Held)
    requires |es| == 4 && (es[0].Sys? ==> !LetsGo(es[0].e, h)) && (es[1].Sys? ==> !LetsGo(es[1].e, h))
    requires (es[2].Sys? ==> !LetsGo(es[2].e, h)) && (es[3].Sys? ==> !LetsGo(es[3].e, h))
    ensures Keeps(es, h)
  {
  }

  lemma FolderKeeps(m: MState, root: Ino, c: Call, es: seq<ImaEvent>, h: Held)
    requires c.InitFolder? && EmitsFolder(m, root, c, es)
    ensures Keeps(es, h)
  {
    hide EmitsCreation, Keeps;
    FourKeep(es, h);
  }

  lemma FileKeeps(m: MState, root: Ino, c: Call, es: seq<ImaEvent>, h: Held)
    requires c.InitFile? && EmitsFile(m, root, c, es) && h.fd != FD(0, 3)
    ensures Keeps(es, h)
  {
    hide EmitsCreation, Keeps;
    FourKeep(es, h);
  }

  lemma UnrecordedKeeps(es: seq<ImaEvent>, h: Held)
    requires |es| == 1 && UnrecordedEvent(es[0])
    ensures Keeps(es, h)
  {
  }

  /** More than one event, or an unrecorded one. */
  predicate Several(m: MState, a: Act) {
    a.Called? ==> a.c.InitFolder? || a.c.SetModes? || (a.c.InitFile? && a.c.file !in m.path2ino.Values)
  }

  lemma SeveralKeep(m: MState, root: Ino, t: Turn, m': MState, k: ProcFD)
    requires TurnTaken(m, root, t, m') && Several(m, t.act) && k in m.fd2ino
    ensures Keeps(t.es, Held(ProcOf(k.proc), FdOf(k)))
  {
    hide Perform, IsRun, EmitsFolder, EmitsFile, EmitsOne, UnrecordedEvent;
    var h := Held(ProcOf(k.proc), FdOf(k));
    if t.act.Unrecorded? {
      UnrecordedKeeps(t.es, h);
    } else if t.act.c.InitFolder? {
      FolderKeeps(m, root, t.act.c, t.es, h);
    } else if t.act.c.InitFile? {
      FileFds(m, t.act.c);
      FileKeeps(m, root, t.act.c, t.es, h);
    }
  }

  lemma TurnFds(m: MState, root: Ino, t: Turn, m': MState)
    requires TurnTaken(m, root, t, m')
    ensures if t.act.Called? then FdsAfter(m, t.act.c, m') else m'.fd2ino == m.fd2ino
  {
    hide Perform, IsRun, Emits, UnrecordedEvent, FdsAfter;
    if t.act.Called? {
      CallFds(m, t.act.c);
    }
  }

  lemma SeveralFds(m: MState, root: Ino, t: Turn, m': MState)
    requires TurnTaken(m, root, t, m') && Several(m, t.act)
    ensures m'.fd2ino.Keys == m.fd2ino.Keys
  {
    hide TurnTaken;
    TurnFds(m, root, t, m');
  }

  lemma SeveralKeepHolder(m: MState, root: Ino, t: Turn, m': MState)
    requires TurnTaken(m, root, t, m') && Several(m, t.act) && HeldRun(t.ss, t.es)
    requires HolderKnown(m.fd2ino, Start(t).dac.descs)
    ensures HolderKnown(m'.fd2ino, End(t).dac.descs)
  {
    hide TurnTaken, Several, Keeps, HeldAt;
    SeveralFds(m, root, t, m');
    forall k | k in m'.fd2ino
      ensures Held(ProcOf(k.proc), FdOf(k)) in End(t).dac.descs.procFDs
    {
      SeveralKeep(m, root, t, m', k);
      HeldAlong(t.ss, t.es, Held(ProcOf(k.proc), FdOf(k)), |t.es|);
    }
  }

  lemma OneTurnKeepsHolder(m: MState, root: Ino, t: Turn, m': MState)
    requires TurnTaken(m, root, t, m') && !Several(m, t.act) && HeldRun(t.ss, t.es)
    requires HolderKnown(m.fd2ino, Start(t).dac.descs)
    ensures HolderKnown(m'.fd2ino, End(t).dac.descs)
  {
    hide Perform, IsRun, EmitsFolder, EmitsFile, EmitsOne, UnrecordedEvent, HolderKnown, HoldsStep, SentBy, FdsAfter;
    TurnFds(m, root, t, m');
    assert HeldAt(t.ss, t.es, 0);
    OneKeepsHolder(m, root, t.act.c, t.es[0].e, t.es[0].h, m', t.ss[0].dac.descs, t.ss[1].dac.descs);
  }

  lemma TurnKeepsHolder(m: MState, root: Ino, t: Turn, m': MState)
    requires TurnTaken(m, root, t, m') && HolderKnown(m.fd2ino, Start(t).dac.descs)
    ensures HolderKnown(m'.fd2ino, End(t).dac.descs)
  {
    hide Perform, Emits, UnrecordedEvent, HolderKnown, Several;
    TurnHasNoFork(m, root, t, m');
    RunIsHeldRun(t.ss, t.es);
    if Several(m, t.act) {
      SeveralKeepHolder(m, root, t, m');
    } else {
      OneTurnKeepsHolder(m, root, t, m');
    }
  }

  /** In every replay that the machine accepts, what the mediator has open under a pid, the process of
      that pid holds in the machine. */
  lemma {:induction false} ReplayHolderKnown(ms: seq<MState>, ts: seq<Turn>, root: Ino, n: nat)
    requires IsAccepted(ms, ts, root) && n <= |ts|
    ensures HolderKnown(ms[n].fd2ino, MachineAfter(ts, n).dac.descs)
  {
    hide TurnTaken;
    if n > 0 {
      ReplayHolderKnown(ms, ts, root, n - 1);
      assert TakenAt(ms, ts, root, n - 1);
      TurnKeepsHolder(ms[n - 1], root, ts[n - 1], ms[n]);
    }
  }

  // ---------- Nobody else holds it ----------

  ghost predicate Unshared(d: Descs) {
    forall a, b :: a in d.procFDs && b in d.procFDs && a.fd == b.fd ==> a.proc == b.proc
  }

  /** What is opened was not open before. */
  lemma OpensFresh(s: Dac, e: Event)
    requires DacInv(s) && Opens(e) && FileGuard(s, e)
    ensures forall h :: h in s.descs.procFDs ==> h.fd != e.fd
  {
    OpenedFresh(s, e);
  }

  lemma HoldsStepUnshared(d: Descs, e: Event, d': Descs)
    requires HoldsStep(d, e, d') && Unshared(d) && (Opens(e) ==> forall h :: h in d.procFDs ==> h.fd != e.fd)
    ensures Unshared(d')
  {
  }

  /** Only fork makes two processes hold one descriptor. */
  lemma EveryEventUnshared(s: Dac, e: Event)
    requires DacInv(s) && Guard(s, e) && !e.AnyTransition? && !e.Fork? && Unshared(s.descs)
    ensures Unshared(Apply(s, e).descs)
  {
    hide DacInv, Unshared, HoldsStep;
    EveryEventHolds(s, e);
    if Opens(e) {
      OpensFresh(s, e);
    }
    HoldsStepUnshared(s.descs, e, Apply(s, e).descs);
  }

  lemma StepUnshared(s: Ima, ie: ImaEvent)
    requires ImaInv(s) && ImaGuard(s, ie) && !ie.AnyImaTransition? && !IsFork(ie)
    requires Unshared(s.dac.descs)
    ensures Unshared(ApplyIma(s, ie).dac.descs)
  {
    hide DacInv, Unshared;
    if ie.Sys? {
      EveryEventUnshared(s.dac, ie.e);
    }
  }

  lemma {:induction false} RunUnshared(ss: seq<Ima>, es: seq<ImaEvent>, n: nat)
    requires IsRun(ss, es) && NoFork(es) && n <= |es| && Unshared(ss[0].dac.descs)
    ensures Unshared(ss[n].dac.descs)
  {
    hide Unshared, ImaInv;
    if n > 0 {
      RunUnshared(ss, es, n - 1);
      assert StepAt(ss, es, n - 1);
      StepUnshared(ss[n - 1], es[n - 1]);
    }
  }

  /** The translator emits no fork: in no accepted replay do two processes share a descriptor. */
  lemma {:induction false} ReplayUnshared(ms: seq<MState>, ts: seq<Turn>, root: Ino, n: nat)
    requires IsAccepted(ms, ts, root) && n <= |ts|
    ensures Unshared(MachineAfter(ts, n).dac.descs)
  {
    hide TurnTaken;
    if n > 0 {
      ReplayUnshared(ms, ts, root, n - 1);
      assert TakenAt(ms, ts, root, n - 1);
      TurnHasNoFork(ms[n - 1], root, ts[n - 1], ms[n]);
      RunUnshared(ts[n - 1].ss, ts[n - 1].es, |ts[n - 1].es|);
    }
  }

  lemma InvariantsAfter(ms: seq<MState>, ts: seq<Turn>, root: Ino, n: nat)
    requires IsAccepted(ms, ts, root) && n <= |ts|
    ensures ImaInv(MachineAfter(ts, n))
  {
    hide ImaInv, Emits, Perform;
    if n == 0 {
      InitialImaHolds();
    } else {
      assert TakenAt(ms, ts, root, n - 1);
      TurnsHaveEvents(ms[n - 1], root, ts[n - 1], ms[n]);
      InvariantsAfterRun(ts[n - 1].ss, ts[n - 1].es);
    }
  }

  lemma InvariantsAfterRun(ss: seq<Ima>, es: seq<ImaEvent>)
    requires IsRun(ss, es) && |es| > 0
    ensures ImaInv(ss[|es|])
  {
    hide ImaInv;
    assert StepAt(ss, es, |es| - 1);
    EveryImaEventKeeps(ss[|es| - 1], es[|es| - 1]);
  }

  // ---------- The descriptors that close and exit give up ----------

  /** The close event of a descriptor, as far as grd1 to grd5 are concerned. */
  predicate ClosesKey(m: MState, k: ProcFD, e: Event) {
    && e.Close? && e.proc == ProcOf(k.proc) && e.fd == FdOf(k)
    && e.fds == FdsOfKeys(ClosedKeys(m, {k}))
  }

  lemma ClosedKeyOf(m: MState, k: ProcFD)
    ensures FdsOfKeys(ClosedKeys(m, {k})) == if LastOfItsNumber(m, k) then {FdOf(k)} else {}
  {
    assert LastOfItsNumber(m, k) ==> k in ClosedKeys(m, {k});
  }

  /** The guards on the closed descriptors are met exactly if "no other process has this number open" and
      "no other process holds this descriptor" say the same. */
  lemma CloseFdsMeetGuardIff(m: MState, s: Dac, k: ProcFD, e: Event)
    requires DacInv(s) && HolderKnown(m.fd2ino, s.descs) && k in m.fd2ino && ClosesKey(m, k, e)
    ensures CloseGuard(s, e) <==> (LastOfItsNumber(m, k) <==> !SharedDescriptor(s.descs, e.proc, e.fd))
  {
    hide LastOfItsNumber, SharedDescriptor, ClosedKeys, FdsOfKeys;
    ClosedKeyOf(m, k);
    HolderHolds(s, ProcOf(k.proc), FdOf(k));
  }

  lemma HolderHolds(s: Dac, proc: Proc, fd: FD)
    requires DacInv(s) && Held(proc, fd) in s.descs.procFDs
    ensures Holds(s, proc, fd) && fd in s.descs.open
  {
  }

  lemma UnsharedIsOwn(d: Descs, proc: Proc, fd: FD)
    requires Unshared(d) && Held(proc, fd) in d.procFDs
    ensures !SharedDescriptor(d, proc, fd)
  {
  }

  /** So in a replay the close meets these guards exactly if no other process has a descriptor of the
      same number open. */
  lemma ReplayedCloseFdsIff(ms: seq<MState>, ts: seq<Turn>, root: Ino, n: nat, k: ProcFD, e: Event)
    requires IsAccepted(ms, ts, root) && n <= |ts| && k in ms[n].fd2ino && ClosesKey(ms[n], k, e)
    ensures DacInv(MachineAfter(ts, n).dac)
    ensures CloseGuard(MachineAfter(ts, n).dac, e) <==> LastOfItsNumber(ms[n], k)
  {
    hide DacInv, TakenAt, Unshared, SharedDescriptor, LastOfItsNumber, ClosedKeys, FdsOfKeys;
    InvariantsAfter(ms, ts, root, n);
    ReplayHolderKnown(ms, ts, root, n);
    ReplayUnshared(ms, ts, root, n);
    CloseFdsMeetGuardIff(ms[n], MachineAfter(ts, n).dac, k, e);
    UnsharedIsOwn(MachineAfter(ts, n).dac.descs, e.proc, e.fd);
  }

  lemma ExitFdsMeetGuard(m: MState, s: Dac, pid: int, e: Event)
    requires DacInv(s) && HolderKnown(m.fd2ino, s.descs) && Unshared(s.descs)
    requires e.Exit? && e.proc == ProcOf(pid) && e.fds <= FdsOfKeys(FdsOf(m, pid))
    ensures ExitGuard(s, e) <==> pid != 0 && e.proc in s.procs.table
  {
    hide DacInv;
    forall fd | fd in e.fds
      ensures fd in HeldBy(s.descs, e.proc)
    {
      var k :| k in FdsOf(m, pid) && FdOf(k) == fd;
      assert Held(ProcOf(k.proc), fd) in s.descs.procFDs;
    }
  }

  /** What exit gives up meets its guards in every replay; only the process itself can be refused. */
  lemma ReplayedExitMeetsGuardIff(ms: seq<MState>, ts: seq<Turn>, root: Ino, n: nat, pid: int, e: Event)
    requires IsAccepted(ms, ts, root) && n <= |ts|
    requires e.Exit? && e.proc == ProcOf(pid) && e.fds == FdsOfKeys(ClosedKeys(ms[n], FdsOf(ms[n], pid)))
    ensures DacInv(MachineAfter(ts, n).dac)
    ensures ExitGuard(MachineAfter(ts, n).dac, e) <==> pid != 0 && e.proc in MachineAfter(ts, n).dac.procs.table
  {
    hide DacInv, TakenAt, Unshared, HolderKnown, ExitGuard;
    InvariantsAfter(ms, ts, root, n);
    ReplayHolderKnown(ms, ts, root, n);
    ReplayUnshared(ms, ts, root, n);
    ExitFdsMeetGuard(ms[n], MachineAfter(ts, n).dac, pid, e);
  }

  // ---------- One login ----------

  /** Whoever logs in is p, and what is opened, is not opened by process 0. */
  predicate OnlyLogin(t: Turn, p: Proc) {
    && (forall i :: 0 <= i < |t.es| && t.es[i].Sys? && t.es[i].e.Login? ==> t.es[i].e.proc == p)
    && (t.act.Called? && (t.act.c.Open? || t.act.c.Creat?) ==> t.act.c.pid != 0)
  }

  /** _replay_login logs in one process. */
  predicate OneLogin(ts: seq<Turn>, p: Proc) {
    forall k {:trigger OnlyLogin(ts[k], p)} :: 0 <= k < |ts| ==> OnlyLogin(ts[k], p)
  }

  lemma {:induction false} ProcsAlong(ss: seq<Ima>, es: seq<ImaEvent>, p: Proc, n: nat)
    requires HeldRun(ss, es) && n <= |es| && ss[0].dac.procs.table.Keys <= {INIT, p}
    requires forall i :: 0 <= i < |es| && es[i].Sys? && es[i].e.Login? ==> es[i].e.proc == p
    ensures ss[n].dac.procs.table.Keys <= {INIT, p}
  {
    hide HoldsStep;
    if n > 0 {
      ProcsAlong(ss, es, p, n - 1);
      assert HeldAt(ss, es, n - 1);
    }
  }

  lemma TurnProcs(m: MState, root: Ino, t: Turn, m': MState, p: Proc)
    requires TurnTaken(m, root, t, m') && OnlyLogin(t, p) && Start(t).dac.procs.table.Keys <= {INIT, p}
    ensures End(t).dac.procs.table.Keys <= {INIT, p}
  {
    hide Perform, Emits, UnrecordedEvent, HeldAt;
    TurnHasNoFork(m, root, t, m');
    RunIsHeldRun(t.ss, t.es);
    ProcsAlong(t.ss, t.es, p, |t.es|);
  }

  lemma TurnKeys(m: MState, root: Ino, t: Turn, m': MState, p: Proc)
    requires TurnTaken(m, root, t, m') && OnlyLogin(t, p) && forall k :: k in m.fd2ino ==> k.proc != 0
    ensures forall k :: k in m'.fd2ino ==> k.proc != 0
  {
    hide TurnTaken;
    TurnFds(m, root, t, m');
  }

  /** The only processes are INIT and p, and INIT has nothing open. */
  lemma {:induction false} ReplayProcs(ms: seq<MState>, ts: seq<Turn>, root: Ino, p: Proc, n: nat)
    requires IsAccepted(ms, ts, root) && OneLogin(ts, p) && n <= |ts|
    ensures MachineAfter(ts, n).dac.procs.table.Keys <= {INIT, p}
    ensures forall k :: k in ms[n].fd2ino ==> k.proc != 0
  {
    hide TurnTaken, OnlyLogin;
    if n > 0 {
      ReplayProcs(ms, ts, root, p, n - 1);
      assert TakenAt(ms, ts, root, n - 1) && OnlyLogin(ts[n - 1], p);
      TurnProcs(ms[n - 1], root, ts[n - 1], ms[n], p);
      TurnKeys(ms[n - 1], root, ts[n - 1], ms[n], p);
    }
  }

  lemma HolderIsThere(fds: map<ProcFD, Ino>, s: Dac, k: ProcFD, p: Proc)
    requires DacInv(s) && HolderKnown(fds, s.descs) && s.procs.table.Keys <= {INIT, p} && k in fds && k.proc != 0
    ensures Proc(k.proc) == p
  {
  }

  /** With one login every descriptor is the last of its number, so in every replay the close meets its
      guards, and it closes exactly the descriptor. */
  lemma ReplayedCloseMeetsGuard(ms: seq<MState>, ts: seq<Turn>, root: Ino, p: Proc, n: nat, k: ProcFD, e: Event)
    requires IsAccepted(ms, ts, root) && OneLogin(ts, p) && n <= |ts|
    requires k in ms[n].fd2ino && ClosesKey(ms[n], k, e)
    ensures DacInv(MachineAfter(ts, n).dac) && CloseGuard(MachineAfter(ts, n).dac, e) && e.fds == {e.fd}
  {
    hide DacInv, TakenAt, HolderKnown, CloseGuard, OneLogin;
    ReplayedCloseFdsIff(ms, ts, root, n, k, e);
    ReplayHolderKnown(ms, ts, root, n);
    ReplayProcs(ms, ts, root, p, n);
    forall j | j in ms[n].fd2ino
      ensures Proc(j.proc) == p
    {
      HolderIsThere(ms[n].fd2ino, MachineAfter(ts, n).dac, j, p);
    }
    ClosedKeyOf(ms[n], k);
  }
}
