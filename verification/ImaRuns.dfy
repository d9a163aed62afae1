/** Runs of the refinement, and what an appraising kernel guarantees over whole segments of a run. */
module ImaRuns {
  import opened Context
  import opened DacState
  import opened DacEvents
  import opened TableInvariants
  import opened DacSafety
  import opened DacSteps
  import opened Ima

  ghost predicate Step(s: Ima, ie: ImaEvent, s': Ima) {
    ImaInv(s) && ImaGuard(s, ie) && s' == ApplyIma(s, ie)
  }

  ghost predicate StepAt(ss: seq<Ima>, es: seq<ImaEvent>, i: int)
    requires 0 <= i < |es| < |ss|
  {
    Step(ss[i], es[i], ss[i + 1]) && !es[i].AnyImaTransition?
  }

  /** es leads through the states ss; arbitrary transitions are not taken. */
  ghost predicate IsRun(ss: seq<Ima>, es: seq<ImaEvent>) {
    && |ss| == |es| + 1
    && (forall i {:trigger StepAt(ss, es, i)} :: 0 <= i < |es| ==> StepAt(ss, es, i))
  }

  // ---------- What one step tells ----------

  ghost predicate SysFacts(s: Ima, e: Event, h: Hashes, s': Ima) {
    && ImaSysGuard(s, e, h)
    && DacStep(s.dac, e, s'.dac)
    && s'.content == ContentAfter(s, e, h)
    && s'.meta == MetaAfter(s, e, h)
    && s'.imaHash == ImaHashAfter(s, e, h)
    && s'.evmHash == EvmHashAfter(s, e, h)
    && s'.immutable == ImmutableAfter(s, e)
    && s'.imaMode == s.imaMode && s'.evmMode == s.evmMode
  }

  /** Every table that is total on Files has that domain. */
  ghost predicate Shaped(s: Ima) {
    ImaTypes(s) && s.dac.attrs.meta.Keys == s.Files()
  }

  /** The facts about one step that the safety arguments use. */
  ghost predicate StepFacts(s: Ima, ie: ImaEvent, s': Ima) {
    && Shaped(s) && Shaped(s') && OneModeEach(s.dac.descs)
    && match ie
       case Sys(e, h) => SysFacts(s, e, h, s')
       case SwitchImaMode(mode) => s' == s.(imaMode := mode)
       case SwitchEvmMode(mode) => s' == s.(evmMode := mode)
       case MarkImmutable(file) => s' == s.(immutable := s.immutable + {file})
       case UnmarkImmutable(file) =>
         s.imaMode != ENFORCE && s.evmMode != ENFORCE && s' == s.(immutable := s.immutable - {file})
       case AnyImaTransition(_) => false
       case ForceSetHashes(file, ima, evm) =>
         s' == s.(imaHash := s.imaHash[file := ima], evmHash := s.evmHash[file := evm])
  }

  ghost predicate FactsAt(ss: seq<Ima>, es: seq<ImaEvent>, i: int)
    requires 0 <= i < |es| < |ss|
  {
    StepFacts(ss[i], es[i], ss[i + 1])
  }

  ghost predicate FactRun(ss: seq<Ima>, es: seq<ImaEvent>) {
    && |ss| == |es| + 1
    && (forall i {:trigger FactsAt(ss, es, i)} :: 0 <= i < |es| ==> FactsAt(ss, es, i))
  }

  lemma GoodIsShaped(s: Ima)
    requires ImaInv(s)
    ensures Shaped(s)
    ensures Strength(s.dac) ==> OneModeEach(s.dac.descs)
  {
  }

  lemma SysHasFacts(s: Ima, e: Event, h: Hashes)
    requires ImaInv(s) && ImaGuard(s, Sys(e, h))
    ensures SysFacts(s, e, h, ApplyIma(s, Sys(e, h)))
  {
    hide DacInv;
    EveryEventSteps(s.dac, e);
  }

  lemma StepHasFacts(s: Ima, ie: ImaEvent, s': Ima)
    requires Step(s, ie, s') && !ie.AnyImaTransition? && Strength(s.dac)
    ensures StepFacts(s, ie, s') && ImaInv(s') && Strength(s'.dac)
  {
    hide DacInv, Strength;
    EveryImaEventKeeps(s, ie);
    GoodIsShaped(s);
    GoodIsShaped(s');
    if ie.Sys? {
      SysHasFacts(s, ie.e, ie.h);
    }
  }

  /** State i satisfies all invariants, declared and strengthened. */
  ghost predicate GoodAt(ss: seq<Ima>, i: int)
    requires 0 <= i < |ss|
  {
    ImaInv(ss[i]) && Strength(ss[i].dac)
  }

  ghost predicate GoodUpTo(ss: seq<Ima>, n: int)
    requires 0 <= n < |ss|
  {
    forall i {:trigger GoodAt(ss, i)} :: 0 <= i <= n ==> GoodAt(ss, i)
  }

  lemma GoodStep(ss: seq<Ima>, es: seq<ImaEvent>, i: nat)
    requires i < |es| < |ss| && StepAt(ss, es, i) && GoodAt(ss, i)
    ensures GoodAt(ss, i + 1) && FactsAt(ss, es, i)
  {
    StepHasFacts(ss[i], es[i], ss[i + 1]);
  }

  lemma NextGood(ss: seq<Ima>, es: seq<ImaEvent>, n: nat)
    requires IsRun(ss, es) && n < |es| && GoodUpTo(ss, n)
    ensures GoodAt(ss, n + 1)
  {
    assert StepAt(ss, es, n) && GoodAt(ss, n);
    GoodStep(ss, es, n);
  }

  lemma {:induction false} RunStaysGood(ss: seq<Ima>, es: seq<ImaEvent>, n: nat)
    requires IsRun(ss, es) && GoodUpTo(ss, 0) && n < |ss|
    ensures GoodUpTo(ss, n)
  {
    hide GoodAt, StepAt;
    if n > 0 {
      RunStaysGood(ss, es, n - 1);
      NextGood(ss, es, n - 1);
    }
  }

  /** Every state of a run satisfies all invariants, declared and strengthened. */
  lemma RunKeepsInvariants(ss: seq<Ima>, es: seq<ImaEvent>)
    requires IsRun(ss, es) && GoodUpTo(ss, 0)
    ensures GoodUpTo(ss, |ss| - 1)
    ensures FactRun(ss, es)
  {
    RunStaysGood(ss, es, |es|);
    forall i | 0 <= i < |es|
      ensures FactsAt(ss, es, i)
    {
      assert StepAt(ss, es, i) && GoodAt(ss, i);
      GoodStep(ss, es, i);
    }
  }

  /** In particular every reachable state does. */
  lemma ReachableStatesAreGood(ss: seq<Ima>, es: seq<ImaEvent>)
    requires IsRun(ss, es) && ss[0] == InitialIma()
    ensures GoodUpTo(ss, |ss| - 1) && FactRun(ss, es)
  {
    InitialImaHolds();
    assert GoodAt(ss, 0);
    RunKeepsInvariants(ss, es);
  }

  predicate NoForcedHashes(es: seq<ImaEvent>) {
    forall i :: 0 <= i < |es| ==> !es[i].ForceSetHashes?
  }

  // ---------- Frozen content ----------

  ghost predicate NoWriter(s: Ima, f: File) {
    forall fd :: fd in s.dac.descs.open && s.dac.descs.open[fd].file == f
      ==> !WriteCapable(s.dac.descs.open[fd].flags)
  }

  ghost predicate SameMeasured(s: Ima, s': Ima, f: File) {
    && f in s.content && f in s'.content && s'.content[f] == s.content[f]
    && (f in s'.imaHash <==> f in s.imaHash)
    && (f in s.imaHash ==> s'.imaHash[f] == s.imaHash[f])
  }

  /** No event opens the existing file f for writing. */
  predicate OpensReadOnly(e: Event, f: File) {
    Opens(e) && e.file == f ==> !WriteCapable(e.flags)
  }

  lemma GuardKeepsReadOnly(s: Ima, e: Event, h: Hashes, f: File)
    requires ImaSysGuard(s, e, h) && (s.imaMode == ENFORCE || f in s.immutable)
    requires Creates(e) ==> CreatedFile(e) != f
    ensures OpensReadOnly(e, f)
  {
  }

  lemma NoWriterAppears(s: Ima, e: Event, s': Ima, f: File)
    requires DescsStep(s.dac, e, s'.dac) && NoWriter(s, f) && OpensReadOnly(e, f)
    ensures NoWriter(s', f)
  {
  }

  /** Without a writer, a close cannot bring a new content hash. */
  lemma ContentStays(s: Ima, e: Event, h: Hashes, f: File)
    requires ImaTypes(s) && OneModeEach(s.dac.descs) && f in s.Files() && f in FilesAfter(s.dac.tree, e)
    requires (e.Close? ==> ImaClose(s, e.fd, h)) && (Creates(e) ==> CreatedFile(e) != f) && NoWriter(s, f)
    ensures f in ContentAfter(s, e, h) && ContentAfter(s, e, h)[f] == s.content[f]
  {
  }

  lemma FrozenSysStep(s: Ima, e: Event, h: Hashes, s': Ima, f: File)
    requires StepFacts(s, Sys(e, h), s') && (s.imaMode == ENFORCE || f in s.immutable)
    requires f in s.Files() && f in s'.Files() && NoWriter(s, f)
    ensures NoWriter(s', f) && s'.content[f] == s.content[f]
  {
    hide NoWriter, XattrsStep, DescsStep;
    GuardKeepsReadOnly(s, e, h, f);
    NoWriterAppears(s, e, s', f);
    ContentStays(s, e, h, f);
  }

  /** Under ENFORCE the table of measured hashes changes only with the set of files. */
  lemma MeasuredSysStep(s: Ima, e: Event, h: Hashes, f: File)
    requires s.imaMode == ENFORCE && ImaTypes(s)
    ensures f in ImaHashAfter(s, e, h) ==> f in s.imaHash && ImaHashAfter(s, e, h)[f] == s.imaHash[f]
    ensures f in s.imaHash && f in FilesAfter(s.dac.tree, e) ==> f in ImaHashAfter(s, e, h)
  {
  }

  /** One step under IMA ENFORCE. */
  lemma FrozenStep(s: Ima, ie: ImaEvent, s': Ima, f: File)
    requires StepFacts(s, ie, s') && s.imaMode == ENFORCE && !ie.ForceSetHashes?
    requires f in s.Files() && f in s'.Files() && NoWriter(s, f)
    ensures SameMeasured(s, s', f) && NoWriter(s', f)
  {
    if ie.Sys? {
      FrozenSysStep(s, ie.e, ie.h, s', f);
      MeasuredSysStep(s, ie.e, ie.h, f);
    }
  }

  lemma {:induction false} FrozenOverFacts(ss: seq<Ima>, es: seq<ImaEvent>, f: File, n: nat)
    requires FactRun(ss, es) && NoForcedHashes(es) && n < |ss|
    requires forall i :: 0 <= i < n ==> ss[i].imaMode == ENFORCE
    requires forall i :: 0 <= i <= n ==> f in ss[i].Files()
    requires ImaTypes(ss[0]) && NoWriter(ss[0], f)
    ensures SameMeasured(ss[0], ss[n], f) && NoWriter(ss[n], f)
  {
    if n > 0 {
      FrozenOverFacts(ss, es, f, n - 1);
      assert FactsAt(ss, es, n - 1);
      FrozenStep(ss[n - 1], es[n - 1], ss[n], f);
    }
  }

  /** While IMA stays in ENFORCE, a file that nobody has open for writing keeps its content and its
      measured hash for as long as it exists, and nobody gets to open it for writing. */
  lemma EnforceFreezesContent(ss: seq<Ima>, es: seq<ImaEvent>, f: File, n: nat)
    requires IsRun(ss, es) && GoodUpTo(ss, 0) && NoForcedHashes(es) && n < |ss|
    requires forall i :: 0 <= i < n ==> ss[i].imaMode == ENFORCE
    requires forall i :: 0 <= i <= n ==> f in ss[i].Files()
    requires NoWriter(ss[0], f)
    ensures SameMeasured(ss[0], ss[n], f) && NoWriter(ss[n], f)
  {
    RunKeepsInvariants(ss, es);
    assert GoodAt(ss, 0);
    FrozenOverFacts(ss, es, f, n);
  }

  // ---------- The measured baseline ----------

  /** The file an event asks the kernel to appraise. */
  function AppraisedFile(ie: ImaEvent): Option<File> {
    if ie.Sys? && (ie.e.OpenExists? || ie.e.OpenatExists?) then Some(ie.e.file)
    else if ie.Sys? && ie.e.Execve? then Some(ie.e.exeFile)
    else None
  }

  /** Under ENFORCE the table of measured hashes only shrinks. */
  lemma BaselineStep(s: Ima, ie: ImaEvent, s': Ima, f: File)
    requires StepFacts(s, ie, s') && s.imaMode == ENFORCE && !ie.ForceSetHashes? && f in s'.imaHash
    ensures f in s.imaHash && s.imaHash[f] == s'.imaHash[f]
    ensures ie.Sys? && Creates(ie.e) ==> CreatedFile(ie.e) != f
  {
    if ie.Sys? {
      MeasuredSysStep(s, ie.e, ie.h, f);
    }
  }

  lemma {:induction false} BaselineReachesBack(ss: seq<Ima>, es: seq<ImaEvent>, f: File, i: nat, n: nat)
    requires FactRun(ss, es) && NoForcedHashes(es) && i <= n < |ss|
    requires forall j :: 0 <= j < n ==> ss[j].imaMode == ENFORCE
    requires f in ss[n].imaHash
    ensures f in ss[i].imaHash && ss[i].imaHash[f] == ss[n].imaHash[f]
    ensures i < n ==> f in ss[i].Files() && !(es[i].Sys? && Creates(es[i].e) && CreatedFile(es[i].e) == f)
    decreases n - i
  {
    if i < n {
      BaselineReachesBack(ss, es, f, i + 1, n);
      assert FactsAt(ss, es, i);
      BaselineStep(ss[i], es[i], ss[i + 1], f);
    }
  }

  lemma GuardAppraises(s: Ima, e: Event, h: Hashes, f: File)
    requires ImaSysGuard(s, e, h) && AppraisedFile(Sys(e, h)) == Some(f)
    ensures Appraised(s, f)
  {
  }

  lemma AdmittedOverFacts(ss: seq<Ima>, es: seq<ImaEvent>, f: File, n: nat)
    requires FactRun(ss, es) && NoForcedHashes(es) && n < |es|
    requires forall i :: 0 <= i <= n ==> ss[i].imaMode == ENFORCE
    requires AppraisedFile(es[n]) == Some(f)
    ensures f in ss[0].imaHash && f in ss[n].content && ss[n].content[f] == ss[0].imaHash[f]
    ensures forall i :: 0 <= i <= n ==> f in ss[i].Files()
    ensures forall i :: 0 <= i < n ==> !(es[i].Sys? && Creates(es[i].e) && CreatedFile(es[i].e) == f)
  {
    assert FactsAt(ss, es, n);
    GuardAppraises(ss[n], es[n].e, es[n].h, f);
    BaselineReachesBack(ss, es, f, 0, n);
    forall i | 0 <= i < n
      ensures f in ss[i].Files() && !(es[i].Sys? && Creates(es[i].e) && CreatedFile(es[i].e) == f)
    {
      BaselineReachesBack(ss, es, f, i, n);
    }
  }

  /** In an ENFORCE-only segment, a file that event n opens or runs was measured when the segment
      began, has existed throughout, and its content is still what was measured then. A file created
      in the segment is therefore never admitted. */
  lemma AdmittedFilesMatchBaseline(ss: seq<Ima>, es: seq<ImaEvent>, f: File, n: nat)
    requires IsRun(ss, es) && GoodUpTo(ss, 0) && NoForcedHashes(es) && n < |es|
    requires forall i :: 0 <= i <= n ==> ss[i].imaMode == ENFORCE
    requires AppraisedFile(es[n]) == Some(f)
    ensures f in ss[0].imaHash && f in ss[n].content && ss[n].content[f] == ss[0].imaHash[f]
    ensures forall i :: 0 <= i <= n ==> f in ss[i].Files()
    ensures forall i :: 0 <= i < n ==> !(es[i].Sys? && Creates(es[i].e) && CreatedFile(es[i].e) == f)
  {
    RunKeepsInvariants(ss, es);
    AdmittedOverFacts(ss, es, f, n);
  }

  // ---------- Immutability ----------

  predicate SomeEnforce(s: Ima) {
    s.imaMode == ENFORCE || s.evmMode == ENFORCE
  }

  function EntriesOf(t: Tree, f: File): set<Entry> {
    set e | e in t.entries && e.file == f
  }

  function EntriesIn(t: Tree, d: File): set<Entry> {
    set e | e in t.entries && e.parent == d
  }

  /** What an immutable file keeps from one state to a later one. */
  ghost predicate ImmutableKept(s: Ima, s': Ima, f: File) {
    && Shaped(s) && Shaped(s') && f in s.Files() && f in s'.Files()
    && f in s'.immutable
    && EntriesOf(s.dac.tree, f) <= EntriesOf(s'.dac.tree, f)
    && EntriesIn(s.dac.tree, f) <= EntriesIn(s'.dac.tree, f)
    && s'.dac.attrs.meta[f].xattrs == s.dac.attrs.meta[f].xattrs
    && (NoWriter(s, f) ==> NoWriter(s', f) && s'.content[f] == s.content[f])
  }

  /** An entry that appears in an immutable folder was put there by link. */
  ghost predicate GrowsByLinkOnly(s: Ima, ie: ImaEvent, s': Ima, f: File) {
    forall n :: n in EntriesIn(s'.dac.tree, f) && n !in EntriesIn(s.dac.tree, f) ==>
      ie.Sys? && ie.e.Link? && n == Entry(ie.e.file, f, ie.e.newName)
  }

  lemma ImmutableNames(s: Ima, e: Event, h: Hashes, s': Ima, f: File)
    requires FilesStep(s.dac, e, s'.dac) && ImaSysGuard(s, e, h) && f in s.immutable
    ensures EntriesOf(s.dac.tree, f) <= EntriesOf(s'.dac.tree, f)
    ensures EntriesIn(s.dac.tree, f) <= EntriesIn(s'.dac.tree, f)
    ensures GrowsByLinkOnly(s, Sys(e, h), s', f)
  {
  }

  lemma ImmutableSysStep(s: Ima, e: Event, h: Hashes, s': Ima, f: File)
    requires StepFacts(s, Sys(e, h), s') && f in s.immutable
    ensures ImmutableKept(s, s', f) && GrowsByLinkOnly(s, Sys(e, h), s', f)
  {
    ImmutableNames(s, e, h, s', f);
    assert f in s'.immutable;
    if NoWriter(s, f) {
      FrozenSysStep(s, e, h, s', f);
    }
  }

  lemma ImmutableStep(s: Ima, ie: ImaEvent, s': Ima, f: File)
    requires StepFacts(s, ie, s') && SomeEnforce(s) && f in s.immutable
    ensures ImmutableKept(s, s', f) && GrowsByLinkOnly(s, ie, s', f)
  {
    if ie.Sys? {
      ImmutableSysStep(s, ie.e, ie.h, s', f);
    }
  }

  lemma ImmutableKeptCompose(a: Ima, b: Ima, c: Ima, f: File)
    requires ImmutableKept(a, b, f) && ImmutableKept(b, c, f)
    ensures ImmutableKept(a, c, f)
  {
  }

  lemma {:induction false} ImmutableOverFacts(ss: seq<Ima>, es: seq<ImaEvent>, f: File, n: nat)
    requires FactRun(ss, es) && n < |ss| && Shaped(ss[0]) && f in ss[0].immutable
    requires forall i :: 0 <= i < n ==> SomeEnforce(ss[i])
    ensures ImmutableKept(ss[0], ss[n], f)
    ensures forall i :: 0 <= i < n ==> GrowsByLinkOnly(ss[i], es[i], ss[i + 1], f)
  {
    if n > 0 {
      ImmutableOverFacts(ss, es, f, n - 1);
      assert FactsAt(ss, es, n - 1);
      ImmutableStep(ss[n - 1], es[n - 1], ss[n], f);
      ImmutableKeptCompose(ss[0], ss[n - 1], ss[n], f);
    }
  }

  /** While at least one of the modes is ENFORCE in every state, an immutable file stays immutable
      and in the system, loses no name, keeps its extended attributes and, if nobody had it open for
      writing, its content; an immutable folder loses no entry and gains entries only through link. */
  lemma ImmutableStaysSo(ss: seq<Ima>, es: seq<ImaEvent>, f: File, n: nat)
    requires IsRun(ss, es) && GoodUpTo(ss, 0) && n < |ss| && f in ss[0].immutable
    requires forall i :: 0 <= i < n ==> SomeEnforce(ss[i])
    ensures ImmutableKept(ss[0], ss[n], f)
    ensures forall i :: 0 <= i < n ==> GrowsByLinkOnly(ss[i], es[i], ss[i + 1], f)
  {
    RunKeepsInvariants(ss, es);
    assert GoodAt(ss, 0);
    ImmutableOverFacts(ss, es, f, n);
  }

  // ---------- EVM locks out tampered metadata ----------

  predicate BothEnforce(s: Ima) {
    s.imaMode == ENFORCE && s.evmMode == ENFORCE
  }

  /** The recorded EVM hash, if any, is not that of the current metadata. */
  predicate LockedOut(s: Ima, f: File) {
    f in s.evmHash && f in s.meta ==> s.evmHash[f] != s.meta[f]
  }

  predicate ChmodFamily(e: Event) {
    e.Chmod? || e.Fchmod? || e.Fchmodat?
  }

  /** The call changes what it is meant to change: the mode, or owner or group. */
  predicate ChangesMetadata(s: Dac, e: Event) {
    && MetaTarget(s, e).Some? && MetaTarget(s, e).value in s.attrs.meta
    && var m := s.attrs.meta[MetaTarget(s, e).value];
    && if ChmodFamily(e) then m.perms != e.perms else m.user != e.owner || m.group != e.group
  }

  predicate Touches(s: Dac, ie: ImaEvent, f: File) {
    ie.Sys? && MetaTarget(s, ie.e) == Some(f)
  }

  lemma TamperingLocksOut(s: Ima, e: Event, h: Hashes, s': Ima, f: File)
    requires ImaSysGuard(s, e, h) && s'.meta == MetaAfter(s, e, h) && s'.evmHash == EvmHashAfter(s, e, h)
    requires MetaTarget(s.dac, e) == Some(f) && ChangesMetadata(s.dac, e)
    requires f in s.evmHash && f in s.meta && s.evmHash[f] == s.meta[f]
    ensures LockedOut(s', f)
  {
  }

  lemma LockoutSysStep(s: Ima, e: Event, h: Hashes, f: File)
    requires ImaTypes(s) && ImaSysGuard(s, e, h) && BothEnforce(s)
    requires Creates(e) ==> CreatedFile(e) !in s.Files()
    requires LockedOut(s, f) && MetaTarget(s.dac, e) != Some(f)
    ensures f in EvmHashAfter(s, e, h) && f in MetaAfter(s, e, h) ==> EvmHashAfter(s, e, h)[f] != MetaAfter(s, e, h)[f]
    ensures AppraisedFile(Sys(e, h)) != Some(f)
  {
  }

  lemma LockoutStep(s: Ima, ie: ImaEvent, s': Ima, f: File)
    requires StepFacts(s, ie, s') && BothEnforce(s) && !ie.ForceSetHashes?
    requires LockedOut(s, f) && !Touches(s.dac, ie, f)
    ensures LockedOut(s', f)
    ensures AppraisedFile(ie) != Some(f)
  {
    if ie.Sys? {
      LockoutSysStep(s, ie.e, ie.h, f);
    }
  }

  lemma {:induction false} LockedOverFacts(ss: seq<Ima>, es: seq<ImaEvent>, f: File, n: nat)
    requires FactRun(ss, es) && NoForcedHashes(es) && 0 < n < |ss|
    requires forall i :: 0 <= i < |es| ==> BothEnforce(ss[i])
    requires es[0].Sys? && MetaTarget(ss[0].dac, es[0].e) == Some(f) && ChangesMetadata(ss[0].dac, es[0].e)
    requires f in ss[0].evmHash && f in ss[0].meta && ss[0].evmHash[f] == ss[0].meta[f]
    requires forall i :: 0 < i < |es| ==> !Touches(ss[i].dac, es[i], f)
    ensures LockedOut(ss[n], f)
    ensures n < |es| ==> AppraisedFile(es[n]) != Some(f)
  {
    assert FactsAt(ss, es, n - 1);
    if n == 1 {
      TamperingLocksOut(ss[0], es[0].e, es[0].h, ss[1], f);
    } else {
      LockedOverFacts(ss, es, f, n - 1);
      LockoutStep(ss[n - 1], es[n - 1], ss[n], f);
    }
    if n < |es| {
      assert FactsAt(ss, es, n);
      LockoutStep(ss[n], es[n], ss[n + 1], f);
    }
  }

  /** Under IMA and EVM ENFORCE, after a call of the chmod or chown family that changes a file whose
      EVM hash matched, the file can neither be opened through *_exists nor executed until another
      such call touches it. */
  lemma TamperedFilesStayLocked(ss: seq<Ima>, es: seq<ImaEvent>, f: File, n: nat)
    requires IsRun(ss, es) && GoodUpTo(ss, 0) && NoForcedHashes(es) && 0 < n < |ss|
    requires forall i :: 0 <= i < |es| ==> BothEnforce(ss[i])
    requires es[0].Sys? && MetaTarget(ss[0].dac, es[0].e) == Some(f) && ChangesMetadata(ss[0].dac, es[0].e)
    requires f in ss[0].evmHash && f in ss[0].meta && ss[0].evmHash[f] == ss[0].meta[f]
    requires forall i :: 0 < i < |es| ==> !Touches(ss[i].dac, es[i], f)
    ensures LockedOut(ss[n], f)
    ensures n < |es| ==> AppraisedFile(es[n]) != Some(f)
  {
    RunKeepsInvariants(ss, es);
    LockedOverFacts(ss, es, f, n);
  }

  // ---------- Descriptors over a run ----------

  lemma {:induction false} StableOverFacts(ss: seq<Ima>, es: seq<ImaEvent>, fd: FD, i: nat, j: nat)
    requires FactRun(ss, es) && i <= j < |ss|
    requires forall n :: i <= n <= j ==> fd in ss[n].dac.descs.open
    ensures ss[j].dac.descs.open[fd] == ss[i].dac.descs.open[fd]
    ensures ss[i].dac.descs.open[fd].file !in ss[i].Files() ==> ss[i].dac.descs.open[fd].file !in ss[j].Files()
    decreases j - i
  {
    if i < j {
      assert FactsAt(ss, es, i);
      DescriptorStep(ss[i], es[i], ss[i + 1], fd);
      StableOverFacts(ss, es, fd, i + 1, j);
    }
  }

  /** A descriptor that stays open keeps its file, flags and number; and once its file has left
      Files, that file does not come back while the descriptor is open. */
  lemma OpenDescriptorIsStable(ss: seq<Ima>, es: seq<ImaEvent>, fd: FD, i: nat, j: nat)
    requires IsRun(ss, es) && GoodUpTo(ss, 0) && i <= j < |ss|
    requires forall n :: i <= n <= j ==> fd in ss[n].dac.descs.open
    ensures ss[j].dac.descs.open[fd] == ss[i].dac.descs.open[fd]
    ensures ss[i].dac.descs.open[fd].file !in ss[i].Files() ==> ss[i].dac.descs.open[fd].file !in ss[j].Files()
  {
    RunKeepsInvariants(ss, es);
    StableOverFacts(ss, es, fd, i, j);
  }

  lemma DescriptorStep(s: Ima, ie: ImaEvent, s': Ima, fd: FD)
    requires StepFacts(s, ie, s') && fd in s.dac.descs.open && fd in s'.dac.descs.open
    ensures s'.dac.descs.open[fd] == s.dac.descs.open[fd]
    ensures s.dac.descs.open[fd].file !in s.Files() ==> s.dac.descs.open[fd].file !in s'.Files()
  {
    assert s.dac.descs.open[fd].file in s.dac.descs.Files();
  }
}
