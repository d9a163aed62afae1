/** Concrete inputs. Two replays that the machine accepts up to a point where mediator and machine part:
    a file with two names loses one of them, and a chown to the same owner clears a set-uid bit. A chown
    with -1 after which the stored fake hash is stale. A run in which mode and group of an immutable
    file change. */
module Witnesses {
  import opened Context
  import opened PosixPath
  import opened DacState
  import opened DacEvents
  import opened Ima
  import opened ImaRuns
  import opened Mediator
  import opened FakeHash
  import opened Translator
  import opened Simulation
  import opened Shadowing
  import opened TraceRuns
  import opened ImmutableMeta

  const ROOT_INO := Ino(0, 2)
  const FILE_INO := Ino(0, 7)
  const THE_FILE := Inode(0, 7)

  /** There is room for one more file, and the two names are not the one of INIT_EXE. */
  predicate Roomy() {
    MAX_FILES >= 3 && INIT_NAME != "a" && INIT_NAME != "b"
  }

  lemma OneLetterPath(c: char)
    requires c != '/'
    ensures Dirname(['/', c]) == "/" && Basename(['/', c]) == [c]
  {
    var p := ['/', c];
    assert p[..1] == "/";
    assert AfterLastSlash(p[..1]) == 1;
    assert p[1..] == [c];
  }

  // ---------- creat("/a") by the root user ----------

  function CreatCall(perms: int): Call {
    Call.Creat("/a", 0, 3, FILE_INO, 0, 0, perms)
  }

  function CreatEvent(perms: int): Event {
    OpenCreate(INIT, ROOT, THE_FILE, "a", {O_CREAT, O_TRUNC, O_WRONLY}, TranslateMode(perms), FD(0, 3), 3, ROOT_GROUP,
               TranslateMode(perms))
  }

  function CreatHashes(perms: int): Hashes {
    Hashes("", Fake(0, 0, perms), "", "")
  }

  function DacAfterCreat(perms: int): Dac {
    CreateEffect(Initial(), INIT, ROOT, THE_FILE, "a", {O_CREAT, O_TRUNC, O_WRONLY}, FD(0, 3), 3, ROOT_GROUP,
                 TranslateMode(perms))
  }

  function AfterCreat(perms: int): Ima {
    var s := InitialIma();
    s.(dac := DacAfterCreat(perms), content := s.content[THE_FILE := ""], meta := s.meta[THE_FILE := Fake(0, 0, perms)])
  }

  lemma CreatGuard(perms: int)
    requires Roomy() && DacInv(Initial())
    ensures OpenCreateGuard(Initial(), CreatEvent(perms))
  {
    hide DacInv, TranslateMode;
    var s := Initial();
    assert HeldBy(s.descs, INIT) == {} && HeldFDs(s.descs) == {};
    assert |s.tree.files| == 2;
    assert s.procs.table[INIT].umask == {};
  }

  lemma CreatStep(perms: int)
    requires Roomy()
    ensures Step(InitialIma(), Sys(CreatEvent(perms), CreatHashes(perms)), AfterCreat(perms))
  {
    hide DacInv, TranslateMode, OpenCreateGuard;
    InitialImaHolds();
    CreatGuard(perms);
  }

  // ---------- link("/a", "/b") and unlink("/a") ----------

  const LINK_EVENT := Event.Link(INIT, ROOT, ROOT, THE_FILE, "a", "b")
  const UNLINK_EVENT := Event.Unlink(INIT, ROOT, THE_FILE, "a", {})
  const ANY_HASHES := Hashes("", "", "", "")

  function AfterLink(perms: int): Ima {
    var s := AfterCreat(perms);
    s.(dac := s.dac.(tree := AddName(s.dac.tree, THE_FILE, ROOT, "b")))
  }

  lemma LinkGuarded(perms: int)
    requires Roomy() && DacInv(AfterCreat(perms).dac)
    ensures LinkGuard(AfterCreat(perms).dac, LINK_EVENT)
  {
    hide DacInv, TranslateMode;
  }

  lemma LinkApplied(s: Ima)
    requires ImaInv(s) && ImaGuard(s, Sys(LINK_EVENT, ANY_HASHES))
    ensures ApplyIma(s, Sys(LINK_EVENT, ANY_HASHES)) ==
      s.(dac := s.dac.(tree := AddName(s.dac.tree, THE_FILE, ROOT, "b")))
  {
    hide DacInv, Guard;
  }

  lemma LinkTaken(perms: int)
    requires Roomy() && ImaInv(AfterCreat(perms))
    ensures Step(AfterCreat(perms), Sys(LINK_EVENT, ANY_HASHES), AfterLink(perms))
  {
    hide DacInv, ImaTypes, LinkGuard, AfterCreat;
    LinkGuarded(perms);
    LinkApplied(AfterCreat(perms));
  }

  lemma UnlinkGuarded(perms: int)
    requires Roomy() && ImaInv(AfterLink(perms))
    ensures ImaGuard(AfterLink(perms), Sys(UNLINK_EVENT, ANY_HASHES))
  {
    hide DacInv, TranslateMode;
    assert Entry(THE_FILE, ROOT, "b") in AfterLink(perms).dac.tree.entries;
  }

  /** The states of the machine after the three calls satisfy all invariants. */
  lemma StatesAreGood(perms: int)
    requires Roomy()
    ensures ImaInv(AfterCreat(perms)) && ImaInv(AfterLink(perms))
  {
    hide DacInv, ImaInv, TranslateMode, AfterCreat, AfterLink;
    CreatStep(perms);
    StepKeeps(InitialIma(), Sys(CreatEvent(perms), CreatHashes(perms)), AfterCreat(perms));
    LinkTaken(perms);
    StepKeeps(AfterCreat(perms), Sys(LINK_EVENT, ANY_HASHES), AfterLink(perms));
  }

  lemma StepKeeps(s: Ima, ie: ImaEvent, s': Ima)
    requires Step(s, ie, s')
    ensures ImaInv(s')
  {
    EveryImaEventKeeps(s, ie);
  }

  // ---------- A file with two names loses one ----------

  const LINK_CALL := Call.Link("/a", "/b")
  const UNLINK_CALL := Call.Unlink("/a")

  function Mediator0(): MState {
    InitialMediator(ROOT_INO)
  }

  function Mediator1(perms: int): MState {
    MState(map[], map["/" := ROOT_INO, "/a" := FILE_INO], map[ProcFD(0, 3) := FILE_INO],
           map[FILE_INO := FileStat(0, 0, perms, 1, RegularFile)], OFF, OFF,
           map[FILE_INO := FileHash("", Fake(0, 0, perms))], map[])
  }

  function Mediator2(perms: int): MState {
    Mediator1(perms).(path2ino := map["/" := ROOT_INO, "/a" := FILE_INO, "/b" := FILE_INO],
                      stats := map[FILE_INO := FileStat(0, 0, perms, 2, RegularFile)])
  }

  /** The mediator has forgotten the hashes of a file that still has a name. */
  function Mediator3(perms: int): MState {
    Mediator2(perms).(path2ino := map["/" := ROOT_INO, "/b" := FILE_INO], realHashes := map[])
  }

  lemma CreatPerformed(perms: int)
    ensures Perform(Mediator0(), CreatCall(perms)) == Result(Mediator1(perms), Ok)
  {
    hide Fake;
    OneLetterPath('a');
  }

  lemma LinkPerformed(perms: int)
    ensures Perform(Mediator1(perms), LINK_CALL) == Result(Mediator2(perms), Ok)
  {
    hide Fake;
    OneLetterPath('a');
    OneLetterPath('b');
  }

  const NEXT_CALL := Call.Unlink("/b")
  const NEXT_EVENT := Event.Unlink(INIT, ROOT, THE_FILE, "b", {})

  /** The stored link count is still two, so the next unlink is sent as that of a file with another name. */
  lemma NextEmitted(perms: int, e: Event, h: Hashes)
    ensures EmitsOne(Mediator3(perms), ROOT_INO, NEXT_CALL, NEXT_EVENT, ANY_HASHES)
    ensures EmitsOne(Mediator3(perms), ROOT_INO, NEXT_CALL, e, h) ==>
      e.Unlink? && e.file == THE_FILE && e.parent == ROOT && e.name == "b" && e.files == {}
  {
    hide Fake;
    OneLetterPath('b');
  }

  lemma OneNameLeft(perms: int)
    requires INIT_NAME != "a" && INIT_NAME != "b"
    ensures !OtherNames(RemoveName(AfterLink(perms).dac.tree, THE_FILE, ROOT, "a", {}), THE_FILE, ROOT, "b")
  {
    hide TranslateMode, Fake;
  }

  lemma UnlinkApplied(s: Ima)
    requires ImaInv(s) && ImaGuard(s, Sys(UNLINK_EVENT, ANY_HASHES))
    ensures ApplyIma(s, Sys(UNLINK_EVENT, ANY_HASHES)).dac.tree == RemoveName(s.dac.tree, THE_FILE, ROOT, "a", {})
  {
    hide DacInv, Guard;
  }

  lemma WrongFilesAreRefused(s: Ima, e: Event, h: Hashes)
    requires ImaInv(s) && e.Unlink? && e.files == {} && !OtherNames(s.dac.tree, e.file, e.parent, e.name)
    ensures !ImaGuard(s, Sys(e, h))
  {
    hide DacInv;
  }

  lemma NextIsRefused(perms: int, gone: Ima, e: Event, h: Hashes)
    requires Roomy() && Step(AfterLink(perms), Sys(UNLINK_EVENT, ANY_HASHES), gone)
    requires EmitsOne(Mediator3(perms), ROOT_INO, NEXT_CALL, e, h)
    ensures ImaInv(gone) && !ImaGuard(gone, Sys(e, h))
  {
    hide ImaInv, ImaGuard, AfterLink, Mediator3, EmitsOne, OtherNames;
    NextEmitted(perms, e, h);
    UnlinkApplied(AfterLink(perms));
    OneNameLeft(perms);
    StepKeeps(AfterLink(perms), Sys(UNLINK_EVENT, ANY_HASHES), gone);
    WrongFilesAreRefused(gone, e, h);
  }

  lemma UnlinkPerformed(perms: int)
    ensures Perform(Mediator2(perms), UNLINK_CALL) == Result(Mediator3(perms), Ok)
  {
    hide Fake;
    OneLetterPath('a');
    var m := Mediator2(perms);
    assert (m.path2ino - {"/a"})["/b"] in (m.path2ino - {"/a"}).Values;
    assert m.path2ino - {"/a"} == Mediator3(perms).path2ino;
    assert m.realHashes - {FILE_INO} == map[];
  }

  lemma CreatEmitted(perms: int)
    ensures EmitsOne(Mediator0(), ROOT_INO, CreatCall(perms), CreatEvent(perms), CreatHashes(perms))
  {
    hide Fake, TranslateMode;
    OneLetterPath('a');
  }

  lemma LinkEmitted(perms: int)
    ensures EmitsOne(Mediator1(perms), ROOT_INO, LINK_CALL, LINK_EVENT, ANY_HASHES)
  {
    hide Fake;
    OneLetterPath('a');
    OneLetterPath('b');
  }

  lemma UnlinkEmitted(perms: int)
    ensures EmitsOne(Mediator2(perms), ROOT_INO, UNLINK_CALL, UNLINK_EVENT, ANY_HASHES)
  {
    hide Fake;
    OneLetterPath('a');
  }

  function OneEvent(c: Call, e: Event, h: Hashes, s: Ima, s': Ima): Turn {
    Turn(Called(c), [Sys(e, h)], [s, s'])
  }

  /** A turn of one event. */
  lemma OneEventTurn(m: MState, root: Ino, c: Call, e: Event, h: Hashes, s: Ima, s': Ima, m': MState)
    requires Step(s, Sys(e, h), s') && EmitsOne(m, root, c, e, h) && SentBy(c, e) && Perform(m, c) == Result(m', Ok)
    ensures TurnTaken(m, root, OneEvent(c, e, h, s, s'), m')
  {
    hide Step, Perform;
    var t := OneEvent(c, e, h, s, s');
    forall i | 0 <= i < |t.es|
      ensures StepAt(t.ss, t.es, i)
    {
    }
    assert !c.InitFolder? && !c.SetModes? && !(c.InitFile? && c.file !in m.path2ino.Values);
  }

  lemma ThreeTurns(ms: seq<MState>, ts: seq<Turn>, root: Ino)
    requires |ms| == 4 && |ts| == 3 && ms[0] == InitialMediator(root)
    requires TurnTaken(ms[0], root, ts[0], ms[1]) && TurnTaken(ms[1], root, ts[1], ms[2])
    requires TurnTaken(ms[2], root, ts[2], ms[3])
    requires |ts[0].ss| > 0 && |ts[1].ss| > 0 && |ts[2].ss| > 0
    requires Start(ts[0]) == InitialIma() && Start(ts[1]) == End(ts[0]) && Start(ts[2]) == End(ts[1])
    ensures IsAccepted(ms, ts, root)
  {
    hide TurnTaken, InitialIma, InitialMediator;
    forall k | 0 <= k < |ts|
      ensures TakenAt(ms, ts, root, k) && |ts[k].ss| > 0
    {
      assert k == 0 || k == 1 || k == 2;
    }
  }

  lemma TurnsAreTaken(perms: int, gone: Ima)
    requires Roomy() && Step(AfterLink(perms), Sys(UNLINK_EVENT, ANY_HASHES), gone)
    ensures TurnTaken(Mediator0(), ROOT_INO, OneEvent(CreatCall(perms), CreatEvent(perms), CreatHashes(perms),
                                                      InitialIma(), AfterCreat(perms)), Mediator1(perms))
    ensures TurnTaken(Mediator1(perms), ROOT_INO, OneEvent(LINK_CALL, LINK_EVENT, ANY_HASHES, AfterCreat(perms),
                                                           AfterLink(perms)), Mediator2(perms))
    ensures TurnTaken(Mediator2(perms), ROOT_INO, OneEvent(UNLINK_CALL, UNLINK_EVENT, ANY_HASHES, AfterLink(perms),
                                                           gone), Mediator3(perms))
  {
    hide Step, Perform, TurnTaken, EmitsOne, AfterCreat, AfterLink, ImaInv, InitialIma, OneEvent;
    StatesAreGood(perms);
    CreatStep(perms);
    LinkTaken(perms);
    CreatPerformed(perms);
    LinkPerformed(perms);
    UnlinkPerformed(perms);
    CreatEmitted(perms);
    LinkEmitted(perms);
    UnlinkEmitted(perms);
    OneEventTurn(Mediator0(), ROOT_INO, CreatCall(perms), CreatEvent(perms), CreatHashes(perms), InitialIma(),
                 AfterCreat(perms), Mediator1(perms));
    OneEventTurn(Mediator1(perms), ROOT_INO, LINK_CALL, LINK_EVENT, ANY_HASHES, AfterCreat(perms), AfterLink(perms),
                 Mediator2(perms));
    OneEventTurn(Mediator2(perms), ROOT_INO, UNLINK_CALL, UNLINK_EVENT, ANY_HASHES, AfterLink(perms), gone,
                 Mediator3(perms));
  }

  lemma SimBreaksAtUnlink(perms: int, gone: Ima)
    requires Roomy() && Step(AfterLink(perms), Sys(UNLINK_EVENT, ANY_HASHES), gone)
    ensures Sim(Mediator1(perms), AfterCreat(perms), ROOT_INO) && Sim(Mediator2(perms), AfterLink(perms), ROOT_INO)
    ensures !Sim(Mediator3(perms), gone, ROOT_INO)
  {
    hide Step, Perform, Sim, TurnTaken, EmitsOne, AfterCreat, AfterLink, ImaInv, InitialIma;
    TurnsAreTaken(perms, gone);
    InitialSim(ROOT_INO);
    TurnKeepsSimIff(Mediator0(), ROOT_INO, OneEvent(CreatCall(perms), CreatEvent(perms), CreatHashes(perms),
                                                    InitialIma(), AfterCreat(perms)), Mediator1(perms));
    TurnKeepsSimIff(Mediator1(perms), ROOT_INO, OneEvent(LINK_CALL, LINK_EVENT, ANY_HASHES, AfterCreat(perms),
                                                         AfterLink(perms)), Mediator2(perms));
    TurnKeepsSimIff(Mediator2(perms), ROOT_INO, OneEvent(UNLINK_CALL, UNLINK_EVENT, ANY_HASHES, AfterLink(perms), gone),
                    Mediator3(perms));
  }

  /** The machine accepts creat, link and unlink of the first name; up to the link the mediator shadows
      it, and after the unlink it does not, and the machine refuses the unlink of the second name that
      is sent next. */
  lemma UnlinkingOneOfTwoNamesParts(perms: int) returns (ms: seq<MState>, ts: seq<Turn>)
    requires Roomy()
    ensures IsAccepted(ms, ts, ROOT_INO) && |ts| == 3
    ensures ts[0].act == Called(CreatCall(perms)) && ts[1].act == Called(LINK_CALL) && ts[2].act == Called(UNLINK_CALL)
    ensures Sim(ms[2], MachineAfter(ts, 2), ROOT_INO) && !Sim(ms[3], MachineAfter(ts, 3), ROOT_INO)
    ensures ImaInv(MachineAfter(ts, 3)) && EmitsOne(ms[3], ROOT_INO, NEXT_CALL, NEXT_EVENT, ANY_HASHES)
    ensures forall e, h :: EmitsOne(ms[3], ROOT_INO, NEXT_CALL, e, h) ==> !ImaGuard(MachineAfter(ts, 3), Sys(e, h))
  {
    hide EmitsOne, ImaInv, Sim, TurnTaken, AfterCreat, AfterLink, InitialIma, ImaGuard, ApplyIma, IsAccepted, Mediator1,
      Mediator2, Mediator3;
    var gone := UnlinkIsAccepted(perms);
    TurnsAreTaken(perms, gone);
    SimBreaksAtUnlink(perms, gone);
    ms := [Mediator0(), Mediator1(perms), Mediator2(perms), Mediator3(perms)];
    ts := [OneEvent(CreatCall(perms), CreatEvent(perms), CreatHashes(perms), InitialIma(), AfterCreat(perms)),
           OneEvent(LINK_CALL, LINK_EVENT, ANY_HASHES, AfterCreat(perms), AfterLink(perms)),
           OneEvent(UNLINK_CALL, UNLINK_EVENT, ANY_HASHES, AfterLink(perms), gone)];
    ThreeTurns(ms, ts, ROOT_INO);
    NextEmitted(perms, NEXT_EVENT, ANY_HASHES);
    StepKeeps(AfterLink(perms), Sys(UNLINK_EVENT, ANY_HASHES), gone);
    forall e, h | EmitsOne(Mediator3(perms), ROOT_INO, NEXT_CALL, e, h)
      ensures !ImaGuard(gone, Sys(e, h))
    {
      NextIsRefused(perms, gone, e, h);
    }
  }

  lemma UnlinkIsAccepted(perms: int) returns (gone: Ima)
    requires Roomy()
    ensures Step(AfterLink(perms), Sys(UNLINK_EVENT, ANY_HASHES), gone)
  {
    hide ImaInv, AfterCreat, AfterLink;
    StatesAreGood(perms);
    UnlinkGuarded(perms);
    gone := ApplyIma(AfterLink(perms), Sys(UNLINK_EVENT, ANY_HASHES));
  }

  // ---------- A chown to the same owner clears the set-uid bit ----------

  const MODE_04755: int := 2541
  const MODE_0755: int := 493

  const CHOWN_CALL := Call.Chown("/a", 0, 0, MODE_0755, None)

  function ChownEvent(): Event {
    Event.Chown(INIT, ROOT, THE_FILE, "a", ROOT_USER, ROOT_GROUP, TranslateMode(MODE_0755))
  }

  function SentHashes(): Hashes {
    Hashes("", Fake(0, 0, MODE_0755), "", "")
  }

  lemma BitsOf0755()
    ensures Bit(493, 0) && !Bit(493, 1) && Bit(493, 2) && Bit(493, 3) && !Bit(493, 4) && Bit(493, 5)
    ensures Bit(493, 6) && Bit(493, 7) && Bit(493, 8) && !Bit(493, 9) && !Bit(493, 10) && !Bit(493, 11)
  {
  }

  lemma BitsOf04755()
    ensures Bit(2541, 0) && !Bit(2541, 1) && Bit(2541, 2) && Bit(2541, 3) && !Bit(2541, 4) && Bit(2541, 5)
    ensures Bit(2541, 6) && Bit(2541, 7) && Bit(2541, 8) && !Bit(2541, 9) && !Bit(2541, 10) && Bit(2541, 11)
  {
  }

  lemma Mode0755()
    ensures TranslateMode(MODE_0755) == DEF_FOLDER_PERMS
  {
    hide Bit;
    BitsOf0755();
    assert SIMode(MODE_0755) == 493;
  }

  lemma Mode04755()
    ensures TranslateMode(MODE_04755) == DEF_FOLDER_PERMS + {SET_UID}
  {
    hide Bit;
    BitsOf04755();
    assert SIMode(MODE_04755) == 2541;
  }

  /** DAC accepts the chown: the root user, and the set-uid bit goes. */
  lemma ChownIsGranted()
    requires Roomy() && DacInv(AfterCreat(MODE_04755).dac)
    ensures AttrGuard(AfterCreat(MODE_04755).dac, ChownEvent())
  {
    hide DacInv, TranslateMode;
    Mode0755();
    Mode04755();
    assert DEF_FOLDER_PERMS + {SET_UID} - {SET_UID, SET_GID} == DEF_FOLDER_PERMS;
  }

  /** After creat with mode 04755 by root, chown to root: the machine DAC accepts it, the mediator sends
      a new fake hash, and the guard of IMA on that hash refuses it. */
  lemma ChownToSameOwnerIsRefused()
    requires Roomy()
    ensures
      var m, s := Mediator1(MODE_04755), AfterCreat(MODE_04755);
      && ImaInv(s) && Sim(m, s, ROOT_INO) && Guard(s.dac, ChownEvent())
      && Perform(m, CHOWN_CALL).status == Ok && EmitsOne(m, ROOT_INO, CHOWN_CALL, ChownEvent(), SentHashes())
      && !HashFollowsOwner(s, Some(THE_FILE), ROOT_USER, ROOT_GROUP, SentHashes().meta)
      && !ImaSysGuard(s, ChownEvent(), SentHashes())
  {
    hide ImaInv, Sim, Perform, EmitsOne, Step, AfterCreat, AfterLink;
    StatesAreGood(MODE_04755);
    var gone := UnlinkIsAccepted(MODE_04755);
    SimBreaksAtUnlink(MODE_04755, gone);
    ChownIsAccepted();
    ChownIsEmitted();
    SentHashIsRefused();
  }

  lemma ChownIsAccepted()
    requires Roomy() && ImaInv(AfterCreat(MODE_04755))
    ensures Guard(AfterCreat(MODE_04755).dac, ChownEvent())
  {
    hide AttrGuard, AfterCreat, DacInv;
    ChownIsGranted();
  }

  lemma ChownIsEmitted()
    ensures Perform(Mediator1(MODE_04755), CHOWN_CALL).status == Ok
    ensures EmitsOne(Mediator1(MODE_04755), ROOT_INO, CHOWN_CALL, ChownEvent(), SentHashes())
  {
    hide Fake, IsHashFake, TranslateMode;
    OneLetterPath('a');
    FakesAreFake(0, 0, MODE_04755);
  }

  lemma SentHashIsRefused()
    ensures !HashFollowsOwner(AfterCreat(MODE_04755), Some(THE_FILE), ROOT_USER, ROOT_GROUP, SentHashes().meta)
    ensures !ImaSysGuard(AfterCreat(MODE_04755), ChownEvent(), SentHashes())
  {
    hide Fake, TranslateMode;
    FakeIsInjective(0, 0, MODE_04755, 0, 0, MODE_0755);
    assert SIMode(MODE_04755) != SIMode(MODE_0755);
    assert AfterCreat(MODE_04755).dac.attrs.meta[THE_FILE].user == ROOT_USER;
  }

  // ---------- A chown with -1 ----------

  /** chown("/a", -1, 0) after the creat: the stored owner becomes -1, the fake hash does not. */
  lemma ChownMinusOneBreaksFake(perms: int)
    ensures FakesCurrent(Mediator1(perms))
    ensures
      var r := Perform(Mediator1(perms), Call.Chown("/a", -1, 0, perms, None));
      r.status == Ok && !FakesCurrent(r.m)
  {
    hide Fake;
    OneLetterPath('a');
    var m := Mediator1(perms);
    assert FakesCurrent(m);
    FakesAreFake(0, 0, perms);
    ChownKeepsFakesIff(m, FILE_INO, -1, 0, perms, None);
  }

  // ---------- Mode and group of an immutable file ----------

  const THE_GROUP := Group(1)
  const FCHMOD_EVENT := Event.Fchmod(INIT, FD(0, 3), DEF_FOLDER_PERMS, DEF_FOLDER_PERMS)
  const FCHOWN_EVENT := Event.Fchown(INIT, FD(0, 3), ROOT_USER, THE_GROUP, DEF_FOLDER_PERMS)

  function Hashed(uid: int, gid: int): Hashes {
    Hashes("", Fake(uid, gid, MODE_0755), "", "")
  }

  /** After the creat of a file with mode 04755 and create_group. */
  function Grouped(): Ima {
    var s := AfterCreat(MODE_04755);
    s.(dac := s.dac.(accts := s.dac.accts.(groups := s.dac.accts.groups + {THE_GROUP})))
  }

  function Enforcing(): Ima {
    Grouped().(immutable := {THE_FILE}, imaMode := ENFORCE)
  }

  function Chmodded(): Ima {
    var s := Enforcing();
    s.(dac := s.dac.(attrs := ChmodAttrs(s.dac.attrs, THE_FILE, DEF_FOLDER_PERMS, DEF_FOLDER_PERMS)),
       meta := s.meta[THE_FILE := Fake(0, 0, MODE_0755)])
  }

  lemma GroupApplied(s: Ima)
    requires ImaInv(s) && ImaGuard(s, Sys(CreateGroup(THE_GROUP), ANY_HASHES))
    ensures ApplyIma(s, Sys(CreateGroup(THE_GROUP), ANY_HASHES)) ==
      s.(dac := s.dac.(accts := s.dac.accts.(groups := s.dac.accts.groups + {THE_GROUP})))
  {
    hide DacInv, Guard;
  }

  lemma GroupStep()
    requires ImaInv(AfterCreat(MODE_04755))
    ensures Step(AfterCreat(MODE_04755), Sys(CreateGroup(THE_GROUP), ANY_HASHES), Grouped())
  {
    hide DacInv, AfterCreat, ApplyIma;
    GroupIsNew();
    GroupApplied(AfterCreat(MODE_04755));
  }

  lemma GroupIsNew()
    ensures THE_GROUP !in AfterCreat(MODE_04755).dac.accts.groups
  {
    hide TranslateMode, Fake;
  }

  lemma MarkStep()
    requires ImaInv(Grouped())
    ensures Step(Grouped(), MarkImmutable(THE_FILE), Grouped().(immutable := {THE_FILE}))
  {
    hide DacInv, TranslateMode, Fake;
  }

  lemma SwitchStep()
    requires ImaInv(Grouped().(immutable := {THE_FILE}))
    ensures Step(Grouped().(immutable := {THE_FILE}), SwitchImaMode(ENFORCE), Enforcing())
  {
    hide DacInv, Grouped;
  }

  lemma FchmodGranted()
    requires DacInv(Enforcing().dac)
    ensures AttrGuard(Enforcing().dac, FCHMOD_EVENT)
  {
    hide DacInv, TranslateMode, Fake;
  }

  lemma FchmodHashFollows()
    ensures ImaSysGuard(Enforcing(), FCHMOD_EVENT, Hashed(0, 0))
  {
    hide TranslateMode, Fake;
    Mode04755();
    FakeIsInjective(0, 0, MODE_04755, 0, 0, MODE_0755);
    assert SIMode(MODE_04755) != SIMode(MODE_0755);
  }

  lemma FchmodApplied(s: Ima)
    requires ImaInv(s) && ImaGuard(s, Sys(FCHMOD_EVENT, Hashed(0, 0))) && DescFile(s.dac, FD(0, 3)) == Some(THE_FILE)
    requires THE_FILE in s.dac.attrs.meta
    ensures ApplyIma(s, Sys(FCHMOD_EVENT, Hashed(0, 0))) ==
      s.(dac := s.dac.(attrs := ChmodAttrs(s.dac.attrs, THE_FILE, DEF_FOLDER_PERMS, DEF_FOLDER_PERMS)),
         meta := s.meta[THE_FILE := Fake(0, 0, MODE_0755)])
  {
    hide DacInv, Fake, ChmodAttrs;
  }

  lemma FchmodStep()
    requires ImaInv(Enforcing())
    ensures Step(Enforcing(), Sys(FCHMOD_EVENT, Hashed(0, 0)), Chmodded())
  {
    hide DacInv, TranslateMode, Fake, AttrGuard, ApplyIma, ImaSysGuard, ChmodAttrs;
    FchmodGranted();
    FchmodHashFollows();
    FchmodApplied(Enforcing());
  }

  lemma FchownGranted()
    requires DacInv(Chmodded().dac)
    ensures AttrGuard(Chmodded().dac, FCHOWN_EVENT)
  {
    hide DacInv, TranslateMode, Fake;
    assert DEF_FOLDER_PERMS - {SET_UID, SET_GID} == DEF_FOLDER_PERMS;
  }

  lemma FchownGuarded()
    requires ImaInv(Chmodded())
    ensures ImaGuard(Chmodded(), Sys(FCHOWN_EVENT, Hashed(0, 1)))
  {
    hide DacInv, TranslateMode, Fake, AttrGuard;
    FchownGranted();
    FakeIsInjective(0, 0, MODE_0755, 0, 1, MODE_0755);
  }

  lemma RewritingIsGood()
    requires Roomy()
    ensures ImaInv(Grouped()) && ImaInv(Grouped().(immutable := {THE_FILE})) && ImaInv(Enforcing()) && ImaInv(Chmodded())
  {
    hide ImaInv, Step, AfterCreat, Grouped, Enforcing, Chmodded;
    StatesAreGood(MODE_04755);
    GroupStep();
    StepKeeps(AfterCreat(MODE_04755), Sys(CreateGroup(THE_GROUP), ANY_HASHES), Grouped());
    MarkStep();
    StepKeeps(Grouped(), MarkImmutable(THE_FILE), Grouped().(immutable := {THE_FILE}));
    SwitchStep();
    StepKeeps(Grouped().(immutable := {THE_FILE}), SwitchImaMode(ENFORCE), Enforcing());
    FchmodStep();
    StepKeeps(Enforcing(), Sys(FCHMOD_EVENT, Hashed(0, 0)), Chmodded());
  }

  lemma StepsMakeRun(ss: seq<Ima>, es: seq<ImaEvent>)
    requires |es| == 6 && |ss| == 7 && forall i :: 0 <= i < 6 ==> !es[i].AnyImaTransition?
    requires Step(ss[0], es[0], ss[1]) && Step(ss[1], es[1], ss[2]) && Step(ss[2], es[2], ss[3])
    requires Step(ss[3], es[3], ss[4]) && Step(ss[4], es[4], ss[5]) && Step(ss[5], es[5], ss[6])
    ensures IsRun(ss, es)
  {
    hide Step;
    forall i | 0 <= i < |es|
      ensures StepAt(ss, es, i)
    {
      assert i == 0 || i == 1 || i == 2 || i == 3 || i == 4 || i == 5;
    }
  }

  lemma RewritesBoth()
    ensures THE_FILE in Enforcing().immutable && THE_FILE in Chmodded().immutable
    ensures SomeEnforce(Enforcing()) && SomeEnforce(Chmodded())
    ensures RewritesPerms(Enforcing().dac, Sys(FCHMOD_EVENT, Hashed(0, 0)), THE_FILE)
    ensures RewritesOwner(Chmodded().dac, Sys(FCHOWN_EVENT, Hashed(0, 1)), THE_FILE)
  {
    hide TranslateMode, Fake;
    Mode04755();
  }

  /** A run from the initial state in which, under ENFORCE, fchmod changes the mode of an immutable file
      and then fchown its group, both through the descriptor of its creation. */
  lemma ImmutableIsRewritten() returns (ss: seq<Ima>, es: seq<ImaEvent>)
    requires Roomy()
    ensures IsRun(ss, es) && ss[0] == InitialIma() && |es| == 6
    ensures THE_FILE in ss[4].immutable && THE_FILE in ss[5].immutable && SomeEnforce(ss[4]) && SomeEnforce(ss[5])
    ensures RewritesPerms(ss[4].dac, es[4], THE_FILE) && RewritesOwner(ss[5].dac, es[5], THE_FILE)
  {
    hide ImaInv, AfterCreat, Grouped, Enforcing, Chmodded, InitialIma, ImaGuard, ApplyIma, RewritesPerms,
      RewritesOwner, SomeEnforce, Hashed;
    StatesAreGood(MODE_04755);
    RewritingIsGood();
    CreatStep(MODE_04755);
    GroupStep();
    MarkStep();
    SwitchStep();
    FchmodStep();
    FchownGuarded();
    RewritesBoth();
    var last := ApplyIma(Chmodded(), Sys(FCHOWN_EVENT, Hashed(0, 1)));
    ss := [InitialIma(), AfterCreat(MODE_04755), Grouped(), Grouped().(immutable := {THE_FILE}), Enforcing(), Chmodded(),
           last];
    es := [Sys(CreatEvent(MODE_04755), CreatHashes(MODE_04755)), Sys(CreateGroup(THE_GROUP), ANY_HASHES),
           MarkImmutable(THE_FILE), SwitchImaMode(ENFORCE), Sys(FCHMOD_EVENT, Hashed(0, 0)),
           Sys(FCHOWN_EVENT, Hashed(0, 1))];
    StepsMakeRun(ss, es);
  }
}
