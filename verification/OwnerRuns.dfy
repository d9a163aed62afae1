/** The owners that the mediator stores against those of the machine, along whole replays. The machine
    takes the owner of a new file from the process, which the translator does not emit; everything else
    about owners it does emit. */
module OwnerRuns {
  import opened Context
  import opened DacState
  import opened DacEvents
  import opened DacSteps
  import opened Ima
  import opened ImaRuns
  import opened Owners
  import opened Mediator
  import opened FakeHash
  import opened Translator
  import opened Simulation
  import opened Shadowing
  import opened TraceRuns
  import opened ModeRuns

  // ---------- The relation ----------

  /** The owner that the stored ids stand for. */
  function StoredOwner(stat: FileStat, rootUid: int, rootGid: int): Owner {
    Owner(UserOf(rootUid, stat.uid), GroupOf(rootGid, stat.gid))
  }

  predicate PlainFile(s: Dac, f: File) {
    f in s.attrs.meta && f !in s.tree.symLinks
  }

  predicate Owned(stats: map<Ino, FileStat>, s: Dac, i: Ino, rootUid: int, rootGid: int) {
    var f := Inode(i.dev, i.ino);
    i in stats && PlainFile(s, f) ==> OwnerOf(s.attrs, f) == StoredOwner(stats[i], rootUid, rootGid)
  }

  /** Symbolic links aside, the owner and the group of every file are the stored ones. */
  ghost predicate SimOwners(stats: map<Ino, FileStat>, s: Dac, root: Ino, rootUid: int, rootGid: int) {
    forall i {:trigger Owned(stats, s, i, rootUid, rootGid)} :: i != root ==> Owned(stats, s, i, rootUid, rootGid)
  }

  // ---------- Machine ----------

  /** The file that an event gives an owner, and the owner. */
  function OwnedFile(s: Dac, ie: ImaEvent): Option<File> {
    if !ie.Sys? || ie.e.Symlink? then None
    else if Creates(ie.e) then Some(CreatedFile(ie.e))
    else if Chowns(ie.e) then MetaTarget(s, ie.e)
    else None
  }

  function GivenOwner(s: Dac, ie: ImaEvent): Owner {
    if ie.Sys? && Creates(ie.e) && !ie.e.Symlink? && ie.e.proc in s.procs.table
    then Owner(s.procs.table[ie.e.proc].user, ie.e.group)
    else if ie.Sys? && Chowns(ie.e) then Owner(ie.e.owner, ie.e.group)
    else Owner(ROOT_USER, ROOT_GROUP)
  }

  /** What happens to the owners: one file gets the given one, the others keep theirs. */
  ghost predicate OwnersMoved(s: Dac, s': Dac, subject: Option<File>, owner: Owner) {
    forall f {:trigger PlainFile(s', f)} :: PlainFile(s', f) ==>
      if subject == Some(f) then OwnerOf(s'.attrs, f) == owner
      else PlainFile(s, f) && OwnerOf(s'.attrs, f) == OwnerOf(s.attrs, f)
  }

  /** The owner that an event leaves to an existing file other than its own. */
  lemma OwnerOfOthers(s: Dac, e: Event, h: Hashes, a: Attrs, f: File)
    requires OwnersStep(s, e, a) && f in a.meta && f in s.attrs.meta
    requires OwnedFile(s, Sys(e, h)) != Some(f) && !(Creates(e) && CreatedFile(e) == f)
    ensures OwnerOf(a, f) == OwnerOf(s.attrs, f)
  {
    hide MetaTarget;
  }

  lemma OwnerOfSubject(s: Dac, e: Event, h: Hashes, a: Attrs, f: File)
    requires OwnersStep(s, e, a) && f in a.meta && OwnedFile(s, Sys(e, h)) == Some(f)
    ensures OwnerOf(a, f) == GivenOwner(s, Sys(e, h))
  {
    hide MetaTarget;
  }

  lemma SysOwnersMoved(s: Ima, e: Event, h: Hashes, s': Ima)
    requires Stepped(s, e, h, s') && Shaped(s) && Shaped(s') && OwnersStep(s.dac, e, s'.dac.attrs)
    ensures OwnersMoved(s.dac, s'.dac, OwnedFile(s.dac, Sys(e, h)), GivenOwner(s.dac, Sys(e, h)))
  {
    hide HashesStep, FilesStep, OwnersStep, GivenOwner, MetaTarget;
    assert e.Symlink? ==> e.file in s'.dac.tree.symLinks;
    forall f | PlainFile(s'.dac, f)
      ensures
        if OwnedFile(s.dac, Sys(e, h)) == Some(f) then OwnerOf(s'.dac.attrs, f) == GivenOwner(s.dac, Sys(e, h))
        else PlainFile(s.dac, f) && OwnerOf(s'.dac.attrs, f) == OwnerOf(s.dac.attrs, f)
    {
      if OwnedFile(s.dac, Sys(e, h)) == Some(f) {
        OwnerOfSubject(s.dac, e, h, s'.dac.attrs, f);
      } else {
        StaysPlain(s.dac, e, s'.dac, f);
        OwnerOfOthers(s.dac, e, h, s'.dac.attrs, f);
      }
    }
  }

  lemma OwnersMovedAt(ss: seq<Ima>, es: seq<ImaEvent>, i: nat)
    requires SteppedRun(ss, es) && OwnersRun(ss, es) && i < |es|
    ensures OwnersMoved(ss[i].dac, ss[i + 1].dac, OwnedFile(ss[i].dac, es[i]), GivenOwner(ss[i].dac, es[i]))
  {
    hide Stepped, OwnersStep, Shaped;
    assert SteppedAt(ss, es, i) && OwnersAt(ss, es, i);
    if es[i].Sys? {
      SysOwnersMoved(ss[i], es[i].e, es[i].h, ss[i + 1]);
    }
  }

  /** Created, owned, and then let alone. */
  lemma FourOwners(ss: seq<Ima>, es: seq<ImaEvent>, f: File)
    requires SteppedRun(ss, es) && OwnersRun(ss, es) && |es| == 4
    requires OwnedFile(ss[0].dac, es[0]) == Some(f) && OwnedFile(ss[1].dac, es[1]) == Some(f)
    requires OwnedFile(ss[2].dac, es[2]) == None && OwnedFile(ss[3].dac, es[3]) == None
    ensures OwnersMoved(ss[0].dac, ss[4].dac, Some(f), GivenOwner(ss[1].dac, es[1]))
  {
    OwnersMovedAt(ss, es, 0);
    OwnersMovedAt(ss, es, 1);
    OwnersMovedAt(ss, es, 2);
    OwnersMovedAt(ss, es, 3);
    hide SteppedRun, OwnersRun, OwnedFile, GivenOwner, PlainFile;
  }

  // ---------- Mediator ----------

  /** The inode whose owner a call stores. */
  function OwnedIno(m: MState, c: Call): Option<Ino> {
    if c.Chmod? || c.Fchmod? then None else ModeSubject(m, c)
  }

  function CallUid(c: Call): int
    requires SetsMode(c) && !c.Chmod? && !c.Fchmod?
  {
    if c.Chown? || c.Fchown? then c.owner else c.uid
  }

  function CallGid(c: Call): int
    requires SetsMode(c) && !c.Chmod? && !c.Fchmod?
  {
    if c.Chown? || c.Fchown? then c.group else c.gid
  }

  ghost predicate OwnersAfter(m: MState, c: Call, m': MState) {
    forall i :: i in m'.stats ==>
      if OwnedIno(m, c) == Some(i)
      then SetsMode(c) && m'.stats[i].uid == CallUid(c) && m'.stats[i].gid == CallGid(c)
      else i in m.stats && m'.stats[i].uid == m.stats[i].uid && m'.stats[i].gid == m.stats[i].gid
  }

  lemma OpeningOwners(m: MState, c: Call)
    requires (c.Open? || c.Creat? || c.Mkdir?) && Perform(m, c).status == Ok
    ensures OwnersAfter(m, c, Perform(m, c).m)
  {
    hide Fake;
  }

  lemma FolderOwners(m: MState, c: Call)
    requires c.InitFolder? && Perform(m, c).status == Ok
    ensures OwnersAfter(m, c, Perform(m, c).m)
  {
  }

  lemma NewFileOwners(m: MState, c: Call)
    requires c.InitFile? && c.file !in m.path2ino.Values && Perform(m, c).status == Ok
    ensures OwnersAfter(m, c, Perform(m, c).m)
  {
    hide Fake;
    FileOutcome(m, c);
  }

  lemma FileOwners(m: MState, c: Call)
    requires c.InitFile? && Perform(m, c).status == Ok
    ensures OwnersAfter(m, c, Perform(m, c).m)
  {
    hide InitNewFile;
    if c.file !in m.path2ino.Values {
      NewFileOwners(m, c);
    }
  }

  lemma ChangingOwners(m: MState, c: Call)
    requires (c.Chmod? || c.Fchmod? || c.Chown? || c.Fchown?) && Perform(m, c).status == Ok
    ensures OwnersAfter(m, c, Perform(m, c).m)
  {
  }

  lemma OtherOwners(m: MState, c: Call)
    requires c.Link? || c.Close? || c.Exit? || c.Unlink? || c.Rmdir? || c.Chdir? || c.SetModes?
    requires Perform(m, c).status == Ok
    ensures OwnersAfter(m, c, Perform(m, c).m)
  {
  }

  lemma CallOwners(m: MState, c: Call)
    requires Perform(m, c).status == Ok
    ensures OwnersAfter(m, c, Perform(m, c).m)
  {
    hide Perform, OwnersAfter;
    if c.Open? || c.Creat? || c.Mkdir? {
      OpeningOwners(m, c);
    } else if c.InitFolder? {
      FolderOwners(m, c);
    } else if c.InitFile? {
      FileOwners(m, c);
    } else if c.Chmod? || c.Fchmod? || c.Chown? || c.Fchown? {
      ChangingOwners(m, c);
    } else {
      OtherOwners(m, c);
    }
  }

  // ---------- Turns ----------

  /** The event that settles the owner: of the four for an initial file or folder the second. */
  function OwnerSettling(c: Call): nat {
    if c.InitFolder? || c.InitFile? then 1 else 0
  }

  ghost predicate CallOwned(m: MState, root: Ino, c: Call, ss: seq<Ima>, es: seq<ImaEvent>)
    requires |ss| == |es| + 1
  {
    && (OwnedIno(m, c).Some? ==> OwnerSettling(c) < |es| && OwnedIno(m, c).value != root)
    && var k := OwnerSettling(c);
       OwnersMoved(ss[0].dac, ss[|es|].dac, FileIfAny(root, OwnedIno(m, c)),
                   if k < |es| then GivenOwner(ss[k].dac, es[k]) else Owner(ROOT_USER, ROOT_GROUP))
  }

  lemma FolderOwned(m: MState, ss: seq<Ima>, es: seq<ImaEvent>, root: Ino, c: Call)
    requires SteppedRun(ss, es) && c.InitFolder? && EmitsFolder(m, root, c, es)
    ensures |es| == 4 && OwnedFile(ss[0].dac, es[0]) == Some(FileOf(root, c.file))
    ensures OwnedFile(ss[1].dac, es[1]) == Some(FileOf(root, c.file))
    ensures OwnedFile(ss[2].dac, es[2]) == None && OwnedFile(ss[3].dac, es[3]) == None
  {
    hide SteppedAt;
  }

  lemma OpenedByFirst(s: Ima, e: Event, h: Hashes, s': Ima)
    requires Stepped(s, e, h, s') && Opens(e)
    ensures DescFile(s'.dac, e.fd) == Some(e.file)
  {
    hide HashesStep;
  }

  lemma FileEmitted(m: MState, root: Ino, c: Call, es: seq<ImaEvent>)
    requires c.InitFile? && EmitsFile(m, root, c, es)
    ensures |es| == 4 && es[0].Sys? && es[1].Sys? && es[2].Sys? && es[3].Sys?
    ensures es[0].e.OpenCreate? && es[0].e.fd == FD(0, 3) && es[0].e.file == FileOf(root, c.file)
    ensures es[1].e.Fchown? && es[1].e.fd == FD(0, 3) && es[2].e.Fchmod? && es[3].e.Close?
  {
    hide InitHashes;
  }

  lemma FileOwned(m: MState, ss: seq<Ima>, es: seq<ImaEvent>, root: Ino, c: Call)
    requires SteppedRun(ss, es) && c.InitFile? && EmitsFile(m, root, c, es)
    ensures |es| == 4 && OwnedFile(ss[0].dac, es[0]) == Some(FileOf(root, c.file))
    ensures OwnedFile(ss[1].dac, es[1]) == Some(FileOf(root, c.file))
    ensures OwnedFile(ss[2].dac, es[2]) == None && OwnedFile(ss[3].dac, es[3]) == None
  {
    hide Stepped, EmitsFile;
    FileEmitted(m, root, c, es);
    assert SteppedAt(ss, es, 0);
    OpenedByFirst(ss[0], es[0].e, es[0].h, ss[1]);
  }

  lemma CreationIsNoChange(m: MState, root: Ino, c: Call, e: Event, h: Hashes)
    requires EmitsOne(m, root, c, e, h) && (c.Open? || c.Creat? || c.Mkdir?)
    ensures Creates(e) || e.OpenExists? || e.OpenatExists?
  {
  }

  /** Calls of the chmod and chown families emit events of these families, and other calls do not. */
  lemma FamilyEmitted(m: MState, root: Ino, c: Call, e: Event, h: Hashes)
    requires EmitsOne(m, root, c, e, h)
    ensures c.Chown? || c.Fchown? <==> Chowns(e)
    ensures c.Chmod? || c.Fchmod? <==> e.Chmod? || e.Fchmod? || e.Fchmodat?
  {
    hide EmitsCreation, CloseArguments, ClosedKeys, ChmodHash, ChownHash;
    if c.Open? || c.Creat? || c.Mkdir? {
      CreationIsNoChange(m, root, c, e, h);
    }
  }

  lemma OneSubjectOwned(m: MState, s: Ima, e: Event, h: Hashes, s': Ima, root: Ino, c: Call)
    requires Follows(m, s, e, h, s', root) && EmitsOne(m, root, c, e, h) && Covered(m, root, c)
    requires Perform(m, c).status == Ok
    ensures OwnedFile(s.dac, Sys(e, h)) == FileIfAny(root, OwnedIno(m, c))
    ensures OwnedIno(m, c).Some? ==> OwnedIno(m, c).value != root
  {
    hide Sim, Stepped, Perform, Covered, EmitsOne, Follows;
    OneSubject(m, s, e, h, s', root, c);
    FamilyEmitted(m, root, c, e, h);
  }

  lemma OneCallOwned(m: MState, ss: seq<Ima>, es: seq<ImaEvent>, root: Ino, c: Call)
    requires SteppedRun(ss, es) && OwnersRun(ss, es) && |es| == 1 && es[0].Sys?
    requires EmitsOne(m, root, c, es[0].e, es[0].h) && Covered(m, root, c) && Perform(m, c).status == Ok
    requires Sim(m, ss[0], root) && (c.InitFolder? || c.InitFile? ==> OwnedIno(m, c) == None)
    ensures CallOwned(m, root, c, ss, es)
  {
    hide Sim, Stepped, Perform, Covered, EmitsOne, OwnersMoved, OwnersRun, OwnedFile, GivenOwner, OwnedIno;
    assert SteppedAt(ss, es, 0);
    OneSubjectOwned(m, ss[0], es[0].e, es[0].h, ss[1], root, c);
    OwnersMovedAt(ss, es, 0);
    if c.InitFolder? || c.InitFile? {
      NoSubject(ss[0].dac, ss[1].dac, GivenOwner(ss[0].dac, es[0]), Owner(ROOT_USER, ROOT_GROUP));
    }
  }

  lemma NoSubject(s: Dac, s': Dac, a: Owner, b: Owner)
    requires OwnersMoved(s, s', None, a)
    ensures OwnersMoved(s, s', None, b)
  {
  }

  lemma InitOwned(m: MState, ss: seq<Ima>, es: seq<ImaEvent>, root: Ino, c: Call)
    requires SteppedRun(ss, es) && OwnersRun(ss, es) && Sim(m, ss[0], root) && Covered(m, root, c)
    requires c.InitFolder? || (c.InitFile? && c.file !in m.path2ino.Values)
    requires if c.InitFolder? then EmitsFolder(m, root, c, es) else EmitsFile(m, root, c, es)
    ensures CallOwned(m, root, c, ss, es)
  {
    hide Sim, SteppedAt, OwnersRun, OwnersMoved, OwnedFile, GivenOwner, EmitsFolder, EmitsFile, EmitsCreation, Shaped;
    CreationEmitted(m, root, c, es);
    EntryFollows(ss, es, m, root, c);
    if c.InitFolder? {
      FolderOwned(m, ss, es, root, c);
    } else {
      FileOwned(m, ss, es, root, c);
    }
    FourOwners(ss, es, FileOf(root, c.file));
  }

  lemma ModesOwned(m: MState, ss: seq<Ima>, es: seq<ImaEvent>, root: Ino, c: Call)
    requires SteppedRun(ss, es) && c.SetModes? && es == [SwitchImaMode(c.mode), SwitchEvmMode(c.mode)]
    ensures CallOwned(m, root, c, ss, es)
  {
    ModesTurnMoves(ss, es, root, c.mode);
  }

  lemma CalledOwned(m: MState, ss: seq<Ima>, es: seq<ImaEvent>, root: Ino, c: Call)
    requires SteppedRun(ss, es) && OwnersRun(ss, es) && Emits(m, root, c, es) && Covered(m, root, c)
    requires Perform(m, c).status == Ok && Sim(m, ss[0], root)
    ensures CallOwned(m, root, c, ss, es)
  {
    hide Sim, SteppedAt, OwnersAt, Perform, Covered, EmitsFolder, EmitsFile, EmitsOne, CallOwned;
    if c.InitFolder? || (c.InitFile? && c.file !in m.path2ino.Values) {
      InitOwned(m, ss, es, root, c);
    } else if c.SetModes? {
      ModesOwned(m, ss, es, root, c);
    } else {
      OneCallOwned(m, ss, es, root, c);
    }
  }

  lemma OwnersMove(m: MState, root: Ino, c: Call, m': MState, s: Dac, s': Dac, owner: Owner, rootUid: int, rootGid: int)
    requires SimOwners(m.stats, s, root, rootUid, rootGid) && OwnersAfter(m, c, m')
    requires OwnersMoved(s, s', FileIfAny(root, OwnedIno(m, c)), owner)
    requires OwnedIno(m, c).Some? ==> SetsMode(c) && OwnedIno(m, c).value != root
    requires OwnedIno(m, c).Some? ==> owner == Owner(UserOf(rootUid, CallUid(c)), GroupOf(rootGid, CallGid(c)))
    ensures SimOwners(m'.stats, s', root, rootUid, rootGid)
  {
    forall i | i != root
      ensures Owned(m'.stats, s', i, rootUid, rootGid)
    {
      assert Owned(m.stats, s, i, rootUid, rootGid);
      assert OwnedIno(m, c) == Some(i) <==> FileIfAny(root, OwnedIno(m, c)) == Some(Inode(i.dev, i.ino));
    }
  }

  /** The ids that the translator emits: those of the call, and for -1 the stored one. */
  function EmittedOwner(m: MState, c: Call, rootUid: int, rootGid: int): Owner
    requires SetsMode(c) && !c.Chmod? && !c.Fchmod?
  {
    if (c.Chown? || c.Fchown?) && OwnedIno(m, c).Some? && OwnedIno(m, c).value in m.stats then
      var i := OwnedIno(m, c).value;
      Owner(UserOf(rootUid, NewUid(m, i, c.owner)), GroupOf(rootGid, NewGid(m, i, c.group)))
    else Owner(UserOf(rootUid, CallUid(c)), GroupOf(rootGid, CallGid(c)))
  }

  /** The settling event carries the emitted ids: owner and group at a chown, the group at a creation. */
  ghost predicate EmitsOwners(m: MState, c: Call, es: seq<ImaEvent>, rootUid: int, rootGid: int) {
    var k := OwnerSettling(c);
    OwnedIno(m, c).Some? && SetsMode(c) && k < |es| && es[k].Sys? ==>
      var owner := EmittedOwner(m, c, rootUid, rootGid);
      && (Chowns(es[k].e) ==> es[k].e.owner == owner.user && es[k].e.group == owner.group)
      && (Creates(es[k].e) && !es[k].e.Symlink? ==> es[k].e.group == owner.group)
  }

  predicate EntersNew(m: MState, c: Call) {
    ((c.Open? || c.Creat?) && c.path !in m.path2ino) || c.Mkdir?
  }

  /** A file that the trace creates has the uid of the process that creates it. */
  predicate CallersOwn(m: MState, c: Call, s: Dac, es: seq<ImaEvent>, rootUid: int) {
    EntersNew(m, c) && |es| > 0 && es[0].Sys? && Creates(es[0].e) ==>
      && es[0].e.proc in s.procs.table
      && s.procs.table[es[0].e.proc].user == UserOf(rootUid, c.uid)
  }

  lemma CreatedIsPlain(s: Ima, e: Event, h: Hashes, s': Ima)
    requires Stepped(s, e, h, s') && Shaped(s') && Creates(e) && !e.Symlink?
    ensures PlainFile(s'.dac, CreatedFile(e))
  {
    hide HashesStep;
  }

  lemma CreatorIsThere(s: Dac, e: Event, a: Attrs)
    requires OwnersStep(s, e, a) && Creates(e) && CreatedFile(e) in a.meta
    ensures e.proc in s.procs.table
  {
  }

  lemma EnteredHasStat(m: MState, c: Call)
    requires EntersNew(m, c) && Perform(m, c).status == Ok
    ensures c.Open? || c.Creat? || c.Mkdir?
    ensures c.file in Perform(m, c).m.stats && OwnedIno(m, c) == Some(c.file)
  {
  }

  lemma EntersEmitted(m: MState, root: Ino, c: Call, e: Event, h: Hashes)
    requires EntersNew(m, c) && EmitsOne(m, root, c, e, h)
    ensures Creates(e) && !e.Symlink? && CreatedFile(e) == FileOf(root, c.file)
  {
  }

  /** What the settling event of a chown, or of an initial file or folder, gives. */
  lemma ChangeGives(m: MState, root: Ino, c: Call, s: Dac, ie: ImaEvent, es: seq<ImaEvent>, rootUid: int, rootGid: int)
    requires OwnedIno(m, c).Some? && SetsMode(c) && !EntersNew(m, c) && NoMinusOne(c)
    requires OwnerSettling(c) < |es| && ie == es[OwnerSettling(c)] && ie.Sys? && Chowns(ie.e)
    requires EmitsOwners(m, c, es, rootUid, rootGid)
    ensures GivenOwner(s, ie) == Owner(UserOf(rootUid, CallUid(c)), GroupOf(rootGid, CallGid(c)))
  {
  }

  lemma SettlingChowns(m: MState, root: Ino, c: Call, es: seq<ImaEvent>)
    requires Emits(m, root, c, es) && OwnedIno(m, c).Some? && !EntersNew(m, c)
    ensures OwnerSettling(c) < |es| && es[OwnerSettling(c)].Sys? && Chowns(es[OwnerSettling(c)].e)
    ensures SetsMode(c)
  {
    hide EmitsCreation, InitHashes;
    if c.Chown? || c.Fchown? {
      FamilyEmitted(m, root, c, es[0].e, es[0].h);
    }
  }

  lemma ChangedOwners(m: MState, ss: seq<Ima>, es: seq<ImaEvent>, root: Ino, c: Call, rootUid: int, rootGid: int)
    requires |ss| == |es| + 1 && CallOwned(m, root, c, ss, es) && Emits(m, root, c, es) && !EntersNew(m, c)
    requires NoMinusOne(c) && EmitsOwners(m, c, es, rootUid, rootGid) && Perform(m, c).status == Ok
    requires SimOwners(m.stats, ss[0].dac, root, rootUid, rootGid)
    ensures SimOwners(Perform(m, c).m.stats, ss[|es|].dac, root, rootUid, rootGid)
  {
    hide Perform, Emits, EmitsOwners, OwnersAfter, OwnersMoved, SimOwners, EntersNew, OwnedIno, GivenOwner;
    CallOwners(m, c);
    var k := OwnerSettling(c);
    var owner := if k < |es| then GivenOwner(ss[k].dac, es[k]) else Owner(ROOT_USER, ROOT_GROUP);
    if OwnedIno(m, c).Some? {
      SettlingChowns(m, root, c, es);
      ChangeGives(m, root, c, ss[k].dac, es[k], es, rootUid, rootGid);
    }
    OwnersMove(m, root, c, Perform(m, c).m, ss[0].dac, ss[|es|].dac, owner, rootUid, rootGid);
  }

  lemma EnteredGives(m: MState, root: Ino, c: Call, s: Dac, es: seq<ImaEvent>, rootUid: int, rootGid: int)
    requires EntersNew(m, c) && |es| == 1 && es[0].Sys? && Creates(es[0].e) && !es[0].e.Symlink?
    requires EmitsOwners(m, c, es, rootUid, rootGid) && es[0].e.proc in s.procs.table
    ensures GivenOwner(s, es[0]) == Owner(UserOf(rootUid, CallUid(c)), GroupOf(rootGid, CallGid(c))) <==>
      CallersOwn(m, c, s, es, rootUid)
  {
  }

  lemma StoredIsGiven(m': MState, s: Dac, s': Dac, root: Ino, i: Ino, owner: Owner, rootUid: int, rootGid: int)
    requires SimOwners(m'.stats, s', root, rootUid, rootGid) && i != root && i in m'.stats
    requires PlainFile(s', FileOf(root, i)) && OwnersMoved(s, s', Some(FileOf(root, i)), owner)
    ensures owner == StoredOwner(m'.stats[i], rootUid, rootGid)
  {
    assert Owned(m'.stats, s', i, rootUid, rootGid);
  }

  /** A creation keeps the stored owners those of the machine exactly if it carries the caller's uid. */
  lemma EnteredOwnersIff(m: MState, ss: seq<Ima>, es: seq<ImaEvent>, root: Ino, c: Call, rootUid: int, rootGid: int)
    requires SteppedRun(ss, es) && OwnersRun(ss, es) && |es| == 1 && es[0].Sys?
    requires CallOwned(m, root, c, ss, es) && EmitsOne(m, root, c, es[0].e, es[0].h) && EntersNew(m, c)
    requires EmitsOwners(m, c, es, rootUid, rootGid) && Perform(m, c).status == Ok
    requires SimOwners(m.stats, ss[0].dac, root, rootUid, rootGid)
    ensures SimOwners(Perform(m, c).m.stats, ss[1].dac, root, rootUid, rootGid) <==>
      CallersOwn(m, c, ss[0].dac, es, rootUid)
  {
    hide Perform, EmitsOne, EmitsOwners, OwnersMoved, SimOwners, EntersNew, OwnedIno, GivenOwner, CallersOwn, Stepped,
      OwnersStep, Shaped, PlainFile;
    var e, m' := es[0].e, Perform(m, c).m;
    assert SteppedAt(ss, es, 0) && OwnersAt(ss, es, 0);
    EntersEmitted(m, root, c, e, es[0].h);
    EnteredHasStat(m, c);
    CreatedIsPlain(ss[0], e, es[0].h, ss[1]);
    PlainHasMeta(ss[1].dac, CreatedFile(e));
    CreatorIsThere(ss[0].dac, e, ss[1].dac.attrs);
    EnteredGives(m, root, c, ss[0].dac, es, rootUid, rootGid);
    CallOwners(m, c);
    if SimOwners(m'.stats, ss[1].dac, root, rootUid, rootGid) {
      StoredIsGiven(m', ss[0].dac, ss[1].dac, root, c.file, GivenOwner(ss[0].dac, es[0]), rootUid, rootGid);
    } else if CallersOwn(m, c, ss[0].dac, es, rootUid) {
      OwnersMove(m, root, c, m', ss[0].dac, ss[1].dac, GivenOwner(ss[0].dac, es[0]), rootUid, rootGid);
    }
  }

  lemma PlainHasMeta(s: Dac, f: File)
    requires PlainFile(s, f)
    ensures f in s.attrs.meta
  {
  }

  lemma CalledOwnersIff(m: MState, ss: seq<Ima>, es: seq<ImaEvent>, root: Ino, c: Call, rootUid: int, rootGid: int)
    requires SteppedRun(ss, es) && OwnersRun(ss, es) && Emits(m, root, c, es) && Covered(m, root, c)
    requires Perform(m, c).status == Ok && Sim(m, ss[0], root) && NoMinusOne(c)
    requires EmitsOwners(m, c, es, rootUid, rootGid) && SimOwners(m.stats, ss[0].dac, root, rootUid, rootGid)
    ensures SimOwners(Perform(m, c).m.stats, ss[|es|].dac, root, rootUid, rootGid) <==>
      CallersOwn(m, c, ss[0].dac, es, rootUid)
  {
    hide Sim, SteppedAt, OwnersAt, Perform, Covered, EmitsFolder, EmitsFile, EmitsOne, CallOwned, EmitsOwners,
      SimOwners;
    CalledOwned(m, ss, es, root, c);
    if EntersNew(m, c) {
      EnteredOwnersIff(m, ss, es, root, c, rootUid, rootGid);
    } else {
      ChangedOwners(m, ss, es, root, c, rootUid, rootGid);
    }
  }

  // ---------- Unrecorded events ----------

  lemma UnrecordedOwned(s: Dac, ie: ImaEvent)
    requires UnrecordedEvent(ie)
    ensures OwnedFile(s, ie) == None
  {
  }

  lemma OwnersStay(stats: map<Ino, FileStat>, s: Dac, s': Dac, root: Ino, owner: Owner, rootUid: int, rootGid: int)
    requires SimOwners(stats, s, root, rootUid, rootGid) && OwnersMoved(s, s', None, owner)
    ensures SimOwners(stats, s', root, rootUid, rootGid)
  {
    forall i | i != root
      ensures Owned(stats, s', i, rootUid, rootGid)
    {
      assert Owned(stats, s, i, rootUid, rootGid);
    }
  }

  lemma UnrecordedOwners(ss: seq<Ima>, es: seq<ImaEvent>, stats: map<Ino, FileStat>, root: Ino, rootUid: int,
                         rootGid: int)
    requires SteppedRun(ss, es) && OwnersRun(ss, es) && |es| == 1 && UnrecordedEvent(es[0])
    requires SimOwners(stats, ss[0].dac, root, rootUid, rootGid)
    ensures SimOwners(stats, ss[1].dac, root, rootUid, rootGid)
  {
    hide SteppedAt, OwnersAt, OwnersMoved, SimOwners, OwnedFile, GivenOwner, UnrecordedEvent;
    UnrecordedOwned(ss[0].dac, es[0]);
    OwnersMovedAt(ss, es, 0);
    OwnersStay(stats, ss[0].dac, ss[1].dac, root, GivenOwner(ss[0].dac, es[0]), rootUid, rootGid);
  }

  // ---------- Replays ----------

  /** The turn emits owners as the translator does. */
  ghost predicate TurnEmitsOwners(m: MState, t: Turn, rootUid: int, rootGid: int) {
    t.act.Called? ==> NoMinusOne(t.act.c) && EmitsOwners(m, t.act.c, t.es, rootUid, rootGid)
  }

  /** ... and what it creates carries the uid of its caller. */
  ghost predicate TurnCallersOwn(m: MState, t: Turn, rootUid: int)
    requires |t.ss| > 0
  {
    t.act.Called? ==> CallersOwn(m, t.act.c, Start(t).dac, t.es, rootUid)
  }

  lemma TurnOwnersIff(m: MState, root: Ino, t: Turn, m': MState, rootUid: int, rootGid: int)
    requires TurnFrom(m, root, t, m') && TurnEmitsOwners(m, t, rootUid, rootGid) && Sim(m, Start(t), root)
    requires SimOwners(m.stats, Start(t).dac, root, rootUid, rootGid)
    ensures SimOwners(m'.stats, End(t).dac, root, rootUid, rootGid) <==> TurnCallersOwn(m, t, rootUid)
  {
    hide Sim, SimOwners, Emits, Perform, UnrecordedEvent, EmitsOwners, CallersOwn, Covered;
    RunIsStepped(t.ss, t.es);
    RunIsOwnersRun(t.ss, t.es);
    hide SteppedRun, OwnersRun, IsRun;
    if t.act.Called? {
      CalledOwnersIff(m, t.ss, t.es, root, t.act.c, rootUid, rootGid);
    } else {
      UnrecordedOwners(t.ss, t.es, m.stats, root, rootUid, rootGid);
    }
  }

  ghost predicate EmitsOwnersAt(ms: seq<MState>, ts: seq<Turn>, k: int, rootUid: int, rootGid: int)
    requires 0 <= k < |ts| < |ms|
  {
    TurnEmitsOwners(ms[k], ts[k], rootUid, rootGid)
  }

  ghost predicate CallersOwnAt(ms: seq<MState>, ts: seq<Turn>, k: int, rootUid: int)
    requires 0 <= k < |ts| < |ms|
  {
    |ts[k].ss| > 0 && TurnCallersOwn(ms[k], ts[k], rootUid)
  }

  /** A covered replay without -1 arguments in which owners are emitted as the translator does. */
  ghost predicate OwnerReplay(ms: seq<MState>, ts: seq<Turn>, root: Ino, rootUid: int, rootGid: int) {
    && IsReplay(ms, ts, root)
    && forall k {:trigger EmitsOwnersAt(ms, ts, k, rootUid, rootGid)} :: 0 <= k < |ts| ==>
         EmitsOwnersAt(ms, ts, k, rootUid, rootGid)
  }

  /** Every creation carries the uid of its caller. */
  ghost predicate AllCallersOwn(ms: seq<MState>, ts: seq<Turn>, rootUid: int)
    requires |ms| == |ts| + 1
  {
    forall k {:trigger CallersOwnAt(ms, ts, k, rootUid)} :: 0 <= k < |ts| ==> CallersOwnAt(ms, ts, k, rootUid)
  }

  lemma NextOwnersIff(ms: seq<MState>, ts: seq<Turn>, root: Ino, k: nat, rootUid: int, rootGid: int)
    requires OwnerReplay(ms, ts, root, rootUid, rootGid) && k < |ts|
    requires SimOwners(ms[k].stats, MachineAfter(ts, k).dac, root, rootUid, rootGid)
    ensures SimOwners(ms[k + 1].stats, MachineAfter(ts, k + 1).dac, root, rootUid, rootGid) <==>
      CallersOwnAt(ms, ts, k, rootUid)
  {
    hide Sim, SimOwners, TurnTaken, TurnCovered, TurnEmitsOwners, TurnCallersOwn;
    MediatorShadowsMachine(ms, ts, root, k);
    assert TakenAt(ms, ts, root, k) && CoveredAt(ms, ts, root, k) && EmitsOwnersAt(ms, ts, k, rootUid, rootGid);
    TurnOwnersIff(ms[k], root, ts[k], ms[k + 1], rootUid, rootGid);
  }

  lemma InitialOwners(root: Ino, rootUid: int, rootGid: int)
    ensures SimOwners(InitialMediator(root).stats, InitialIma().dac, root, rootUid, rootGid)
  {
  }

  lemma {:induction false} OwnersAreCurrent(ms: seq<MState>, ts: seq<Turn>, root: Ino, n: nat, rootUid: int, rootGid: int)
    requires OwnerReplay(ms, ts, root, rootUid, rootGid) && AllCallersOwn(ms, ts, rootUid) && n <= |ts|
    ensures SimOwners(ms[n].stats, MachineAfter(ts, n).dac, root, rootUid, rootGid)
  {
    hide SimOwners, TakenAt, CoveredAt, EmitsOwnersAt, CallersOwnAt;
    if n == 0 {
      InitialOwners(root, rootUid, rootGid);
    } else {
      OwnersAreCurrent(ms, ts, root, n - 1, rootUid, rootGid);
      assert CallersOwnAt(ms, ts, n - 1, rootUid);
      NextOwnersIff(ms, ts, root, n - 1, rootUid, rootGid);
    }
  }

  /** In such a replay owner and group of every file are the stored ones throughout exactly if every
      creation carries the uid of its caller. */
  lemma OwnersThroughoutIff(ms: seq<MState>, ts: seq<Turn>, root: Ino, rootUid: int, rootGid: int)
    requires OwnerReplay(ms, ts, root, rootUid, rootGid)
    ensures (forall n: nat :: n <= |ts| ==> SimOwners(ms[n].stats, MachineAfter(ts, n).dac, root, rootUid, rootGid)) <==>
      AllCallersOwn(ms, ts, rootUid)
  {
    hide SimOwners, TakenAt, CoveredAt, EmitsOwnersAt, CallersOwnAt;
    if AllCallersOwn(ms, ts, rootUid) {
      forall n: nat | n <= |ts|
        ensures SimOwners(ms[n].stats, MachineAfter(ts, n).dac, root, rootUid, rootGid)
      {
        OwnersAreCurrent(ms, ts, root, n, rootUid, rootGid);
      }
    }
    if forall n: nat :: n <= |ts| ==> SimOwners(ms[n].stats, MachineAfter(ts, n).dac, root, rootUid, rootGid) {
      forall k: nat | k < |ts|
        ensures CallersOwnAt(ms, ts, k, rootUid)
      {
        assert SimOwners(ms[k].stats, MachineAfter(ts, k).dac, root, rootUid, rootGid);
        assert SimOwners(ms[k + 1].stats, MachineAfter(ts, k + 1).dac, root, rootUid, rootGid);
        NextOwnersIff(ms, ts, root, k, rootUid, rootGid);
      }
    }
  }

  lemma OwnedIsShadowed(m: MState, s: Ima, root: Ino, i: Ino, rootUid: int, rootGid: int)
    requires Sim(m, s, root) && SimOwners(m.stats, s.dac, root, rootUid, rootGid) && Shaped(s) && i in m.stats
    requires FileOf(root, i) in s.Files() && FileOf(root, i) !in s.dac.tree.symLinks
    ensures OwnerShadowed(m, s.dac, root, i, rootUid, rootGid)
  {
    assert Owned(m.stats, s.dac, i, rootUid, rootGid);
  }

  /** So there, at any point and for every existing file with a fake stored hash, the hash that chown or
      fchown sends meets the guard precisely if owner or group change or the permissions stay. */
  lemma ReplayedChownGuardIff(ms: seq<MState>, ts: seq<Turn>, root: Ino, n: nat, i: Ino, owner: int, group: int,
                              perms: int, given: Option<Hash>, rootUid: int, rootGid: int)
    requires HonestReplay(ms, ts, root) && OwnerReplay(ms, ts, root, rootUid, rootGid)
    requires AllCallersOwn(ms, ts, rootUid) && n <= |ts| && i in ms[n].stats
    requires
      var s := MachineAfter(ts, n);
      && FileOf(root, i) in s.Files() && FileOf(root, i) !in s.dac.tree.symLinks
      && IsHashFake(ms[n].RealOf(i).meta) && NoHash(given)
    ensures FileOf(root, i) in MachineAfter(ts, n).dac.attrs.meta
    ensures
      var s := MachineAfter(ts, n);
      var f := FileOf(root, i);
      HashFollowsOwner(s, Some(f), UserOf(rootUid, NewUid(ms[n], i, owner)), GroupOf(rootGid, NewGid(ms[n], i, group)),
                       ChownHash(ms[n], i, owner, group, perms, given)) <==>
        (NewUid(ms[n], i, owner) == ms[n].stats[i].uid && NewGid(ms[n], i, group) == ms[n].stats[i].gid ==>
           s.dac.attrs.meta[f].perms == TranslateMode(perms))
  {
    hide Sim, SimModesOf, SimOwners, TakenAt, CoveredAt, HonestTurn, FakesCurrent, TranslateMode, HashFollowsOwner,
      ChownHash, AllCallersOwn, EmitsOwnersAt, Shaped;
    ModesAndFakesAreCurrent(ms, ts, root, n);
    MediatorShadowsMachine(ms, ts, root, n);
    OwnersAreCurrent(ms, ts, root, n, rootUid, rootGid);
    ShapedAtTurn(ms, ts, root, n);
    OwnedIsShadowed(ms[n], MachineAfter(ts, n), root, i, rootUid, rootGid);
    ChownHashMeetsGuardIff(ms[n], MachineAfter(ts, n), root, i, owner, group, perms, given, rootUid, rootGid);
  }
}
