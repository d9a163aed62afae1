/** translate_file_flags and translate_fd of mediator/builder.py: which guards on the flags and on the
    starting directory of openat the translated arguments can meet. */
module Builder {
  import opened Context
  import opened DacState
  import opened DacEvents
  import opened DacSteps
  import opened Ima
  import opened ImaRuns
  import opened Mediator
  import opened FakeHash
  import opened Translator
  import opened Simulation
  import opened Shadowing
  import opened TraceRuns
  import opened Sharing

  // ---------- Flags ----------

  /** The flags of mediator/enums.py besides the access modes. */
  const TABLE_FLAGS: set<OpenFlag> :=
    {O_CREAT, O_EXCL, O_NOCTTY, O_TRUNC, O_APPEND, O_NOBLOCK, O_DSYNC, O_DIRECT, O_DIRECTORY, O_NOFOLLOW, O_NOATIME,
     O_CLOEXEC, O_PATH, O_TMPFILE}

  /** The bits of a flag on Linux; O_TMPFILE has a bit of its own and that of O_DIRECTORY. */
  function BitsOf(f: OpenFlag): set<nat>
    requires f in TABLE_FLAGS
  {
    match f
    case O_CREAT => {6}
    case O_EXCL => {7}
    case O_NOCTTY => {8}
    case O_TRUNC => {9}
    case O_APPEND => {10}
    case O_NOBLOCK => {11}
    case O_DSYNC => {12}
    case O_DIRECT => {14}
    case O_DIRECTORY => {16}
    case O_NOFOLLOW => {17}
    case O_NOATIME => {18}
    case O_CLOEXEC => {19}
    case O_PATH => {21}
    case O_TMPFILE => {16, 22}
  }

  /** The bits below the highest one that no entry of the table has. */
  const UNKNOWN_BITS: set<nat> := {2, 3, 4, 5, 13, 15, 20}

  const FLAGS_END: nat := 8388608

  predicate AllBits(n: nat, bits: set<nat>) {
    forall k :: k in bits ==> Bit(n, k)
  }

  /** O_RDWR wins over O_WRONLY, and without either the file is opened for reading. */
  function AccessMode(flags: nat): OpenFlag {
    if Bit(flags, 1) then O_RDWR else if Bit(flags, 0) then O_WRONLY else O_RDONLY
  }

  /** None stands for the AssertionError of an unknown bit. The access mode is taken out of the flags
      before the others are looked up. */
  function TranslateFlags(flags: int): Option<set<OpenFlag>> {
    if flags < 0 || flags >= FLAGS_END || exists k :: k in UNKNOWN_BITS && Bit(flags, k) then None
    else
      var rest := flags - flags % 4;
      Some({AccessMode(flags)} + set f | f in TABLE_FLAGS && AllBits(rest, BitsOf(f)))
  }

  lemma BitShifts(n: nat, k: nat)
    requires k >= 2
    ensures Bit(n, k) == Bit(n / 4, k - 2)
  {
    assert n / 2 / 2 == n / 4;
  }

  lemma RestHasBit(n: nat, k: nat)
    requires k >= 2
    ensures Bit(n - n % 4, k) == Bit(n, k)
  {
    BitShifts(n, k);
    BitShifts(n - n % 4, k);
    assert (n - n % 4) / 4 == n / 4;
  }

  lemma FlagIn(flags: int, f: OpenFlag)
    requires TranslateFlags(flags).Some? && f in TABLE_FLAGS
    ensures f in TranslateFlags(flags).value <==> AllBits(flags, BitsOf(f))
  {
    forall k | k in BitsOf(f)
      ensures Bit(flags - flags % 4, k) == Bit(flags, k)
    {
      RestHasBit(flags, k);
    }
  }

  /** The flags that are looked up hold exactly one access mode; a word with both writing bits opens for
      reading and writing. */
  lemma FlagsHaveOneMode(flags: int)
    requires TranslateFlags(flags).Some?
    ensures OneAccessMode(TranslateFlags(flags).value)
    ensures O_RDWR in TranslateFlags(flags).value <==> Bit(flags, 1)
    ensures O_WRONLY in TranslateFlags(flags).value <==> Bit(flags, 0) && !Bit(flags, 1)
  {
  }

  lemma FlagIsBit(flags: int, f: OpenFlag, k: nat)
    requires TranslateFlags(flags).Some? && f in TABLE_FLAGS && BitsOf(f) == {k}
    ensures f in TranslateFlags(flags).value <==> Bit(flags, k)
  {
    FlagIn(flags, f);
  }

  lemma TmpfileIsBits(flags: int)
    requires TranslateFlags(flags).Some?
    ensures O_TMPFILE in TranslateFlags(flags).value <==> Bit(flags, 16) && Bit(flags, 22)
  {
    FlagIn(flags, O_TMPFILE);
    assert 16 in BitsOf(O_TMPFILE) && 22 in BitsOf(O_TMPFILE);
  }

  /** grd17 to grd21 of openat_create, on the bits of the word. */
  lemma CreateFlagsIff(flags: int)
    requires TranslateFlags(flags).Some?
    ensures CreateFlags(TranslateFlags(flags).value) <==>
      && (Bit(flags, 6) || (Bit(flags, 16) && Bit(flags, 22)))
      && (Bit(flags, 16) && Bit(flags, 22) ==> Bit(flags, 0) || Bit(flags, 1))
      && !Bit(flags, 21)
  {
    hide TranslateFlags;
    FlagsHaveOneMode(flags);
    FlagIsBit(flags, O_CREAT, 6);
    FlagIsBit(flags, O_PATH, 21);
    TmpfileIsBits(flags);
  }

  /** O_TMPFILE brings O_DIRECTORY with it, and open_exists wants O_RDONLY for that: a temporary file,
      which must be opened for writing, is refused in every existing directory. */
  lemma TmpfileIsRefused(flags: int, t: Tree, dir: File)
    requires TranslateFlags(flags).Some? && O_TMPFILE in TranslateFlags(flags).value
    requires (Bit(flags, 0) || Bit(flags, 1)) && !Bit(flags, 21)
    ensures !ExistsFlags(t, dir, TranslateFlags(flags).value)
  {
    hide TranslateFlags;
    FlagsHaveOneMode(flags);
    FlagIsBit(flags, O_PATH, 21);
    FlagIsBit(flags, O_DIRECTORY, 16);
    TmpfileIsBits(flags);
  }

  // ---------- Descriptors ----------

  const AT_FDCWD_NUMBER: int := -100

  /** Only the pair of the initialisation stands for AT_FDCWD. */
  function TranslateFd(pid: int, fd: int): DirFD {
    if pid == 0 && fd == 0 then AT_FDCWD else Dir(FD(pid, fd))
  }

  /** Descriptors that have been opened have natural numbers. */
  ghost predicate NaturalNumbers(d: Descs) {
    forall h :: h in d.procFDs ==> h.fd.num >= 0
  }

  /** Whatever the event opens has a natural number. */
  predicate OpensNatural(ie: ImaEvent) {
    ie.Sys? && Opens(ie.e) ==> ie.e.fd.num >= 0
  }

  predicate AllNatural(es: seq<ImaEvent>) {
    forall i :: 0 <= i < |es| ==> OpensNatural(es[i])
  }

  lemma OneIsNatural(m: MState, root: Ino, c: Call, e: Event, h: Hashes)
    requires EmitsOne(m, root, c, e, h) && SentBy(c, e)
    ensures Opens(e) ==> e.fd.num >= 0
  {
    hide CloseArguments, ClosedKeys, ChmodHash, ChownHash;
    assert Opens(e) ==> c.Open? || c.Creat?;
  }

  lemma FourAreNatural(es: seq<ImaEvent>)
    requires |es| == 4 && OpensNatural(es[0]) && OpensNatural(es[1]) && OpensNatural(es[2]) && OpensNatural(es[3])
    ensures AllNatural(es)
  {
  }

  lemma FolderIsNatural(m: MState, root: Ino, c: Call, es: seq<ImaEvent>)
    requires c.InitFolder? && EmitsFolder(m, root, c, es)
    ensures AllNatural(es)
  {
    hide AllNatural;
    FourAreNatural(es);
  }

  lemma FileIsNatural(m: MState, root: Ino, c: Call, es: seq<ImaEvent>)
    requires c.InitFile? && EmitsFile(m, root, c, es)
    ensures AllNatural(es)
  {
    hide AllNatural, EmitsCreation;
    FourAreNatural(es);
  }

  lemma EmitsAreNatural(m: MState, root: Ino, c: Call, es: seq<ImaEvent>)
    requires Emits(m, root, c, es)
    ensures AllNatural(es)
  {
    hide EmitsFolder, EmitsFile, EmitsOne, SentBy;
    if c.InitFolder? {
      FolderIsNatural(m, root, c, es);
    } else if c.InitFile? && c.file !in m.path2ino.Values {
      FileIsNatural(m, root, c, es);
    } else if !c.SetModes? {
      OneIsNatural(m, root, c, es[0].e, es[0].h);
    }
  }

  lemma TurnIsNatural(m: MState, root: Ino, t: Turn, m': MState)
    requires TurnTaken(m, root, t, m')
    ensures AllNatural(t.es)
  {
    hide Emits, Perform, IsRun;
    if t.act.Called? {
      EmitsAreNatural(m, root, t.act.c, t.es);
    }
  }

  lemma {:induction false} NumbersAlong(ss: seq<Ima>, es: seq<ImaEvent>, n: nat)
    requires HeldRun(ss, es) && AllNatural(es) && n <= |es| && NaturalNumbers(ss[0].dac.descs)
    ensures NaturalNumbers(ss[n].dac.descs)
  {
    if n > 0 {
      NumbersAlong(ss, es, n - 1);
      assert HeldAt(ss, es, n - 1) && OpensNatural(es[n - 1]);
    }
  }

  lemma {:induction false} ReplayNumbers(ms: seq<MState>, ts: seq<Turn>, root: Ino, n: nat)
    requires IsAccepted(ms, ts, root) && n <= |ts|
    ensures NaturalNumbers(MachineAfter(ts, n).dac.descs)
  {
    hide TurnTaken, NaturalNumbers, HeldRun;
    if n == 0 {
      NothingIsOpen();
    } else {
      ReplayNumbers(ms, ts, root, n - 1);
      assert TakenAt(ms, ts, root, n - 1);
      TurnHasNoFork(ms[n - 1], root, ts[n - 1], ms[n]);
      RunIsHeldRun(ts[n - 1].ss, ts[n - 1].es);
      TurnIsNatural(ms[n - 1], root, ts[n - 1], ms[n]);
      NumbersAlong(ts[n - 1].ss, ts[n - 1].es, |ts[n - 1].es|);
    }
  }

  lemma NothingIsOpen()
    ensures NaturalNumbers(InitialIma().dac.descs)
  {
  }

  /** openat relative to AT_FDCWD is refused at every point of every accepted replay, whatever the other
      arguments: its number is translated like that of a descriptor, which nobody holds. */
  lemma RelativeOpenIsRefused(ms: seq<MState>, ts: seq<Turn>, root: Ino, n: nat, pid: int, e: Event)
    requires IsAccepted(ms, ts, root) && n <= |ts|
    requires (e.OpenatCreate? || e.OpenatExists?) && e.dirfd == TranslateFd(pid, AT_FDCWD_NUMBER)
    ensures DacInv(MachineAfter(ts, n).dac) && !Guard(MachineAfter(ts, n).dac, e)
  {
    hide TakenAt, DacInv;
    InvariantsAfter(ms, ts, root, n);
    ReplayNumbers(ms, ts, root, n);
    NoNegativeStart(MachineAfter(ts, n).dac, e);
  }

  lemma NoNegativeStart(s: Dac, e: Event)
    requires DacInv(s) && NaturalNumbers(s.descs) && (e.OpenatCreate? || e.OpenatExists?)
    requires e.dirfd.Dir? && e.dirfd.fd.num < 0
    ensures !Guard(s, e)
  {
    hide DacInv;
  }

  lemma HeldStart(m: MState, s: Ima, root: Ino, k: ProcFD)
    requires Sim(m, s, root) && DacInv(s.dac) && HolderKnown(m.fd2ino, s.dac.descs) && k in m.fd2ino
    ensures ProcOf(k.proc) in s.dac.procs.table
    ensures StartsAt(s.dac, ProcOf(k.proc), TranslateFd(k.proc, k.fd), FileOf(root, m.fd2ino[k])) <==>
      && FileOf(root, m.fd2ino[k]) in s.dac.tree.folders
      && (k == ProcFD(0, 0) ==> FileOf(root, m.fd2ino[k]) == s.dac.procs.table[INIT].cwd)
  {
    assert DescShadowed(m.fd2ino, s.dac.descs, s.dac.tree.symLinks, root, k);
    assert Held(ProcOf(k.proc), FdOf(k)) in s.dac.descs.procFDs;
  }

  /** From an open descriptor openat starts in the directory that the mediator has for it, exactly if that
      is still a directory; only descriptor 0 of process 0 is taken for the working directory. */
  lemma ReplayedDirfdMeetsGuardIff(ms: seq<MState>, ts: seq<Turn>, root: Ino, n: nat, k: ProcFD)
    requires IsReplay(ms, ts, root) && n <= |ts| && k in ms[n].fd2ino
    ensures
      var s := MachineAfter(ts, n).dac;
      var dir := FileOf(root, ms[n].fd2ino[k]);
      && DacInv(s) && ProcOf(k.proc) in s.procs.table.Keys && INIT in s.procs.table
      && (StartsAt(s, ProcOf(k.proc), TranslateFd(k.proc, k.fd), dir) <==>
            dir in s.tree.folders && (k == ProcFD(0, 0) ==> dir == s.procs.table[INIT].cwd))
  {
    hide Sim, TakenAt, CoveredAt, HolderKnown, StartsAt, DacInv;
    InvariantsAfter(ms, ts, root, n);
    MediatorShadowsMachine(ms, ts, root, n);
    ReplayHolderKnown(ms, ts, root, n);
    InitIsThere(MachineAfter(ts, n).dac);
    HeldStart(ms[n], MachineAfter(ts, n), root, k);
  }

  lemma InitIsThere(s: Dac)
    requires DacInv(s)
    ensures INIT in s.procs.table
  {
  }
}
