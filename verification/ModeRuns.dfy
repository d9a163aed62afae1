/** The modes that the mediator stores against the permissions of the machine, along whole replays;
    and why the guard on the hash of chmod and fchmod is met where the stored hash is a fake one. */
module ModeRuns {
  import opened Context
  import opened PosixPath
  import opened DacState
  import opened DacEvents
  import opened DacSteps
  import opened Ima
  import opened ImaRuns
  import opened SimFacts
  import opened Permissions
  import opened Mediator
  import opened FakeHash
  import opened Translator
  import opened Simulation
  import opened Shadowing
  import opened Shadows
  import opened TraceRuns

  // ---------- The relation ----------

  /** The file of an inode has the permissions that the stored mode stands for; symbolic links aside. */
  ghost predicate ModeShadowed(stats: map<Ino, FileStat>, s: Dac, i: Ino) {
    var f := Inode(i.dev, i.ino);
    i in stats && f in s.attrs.meta && f !in s.tree.symLinks ==>
      s.attrs.meta[f].perms == TranslateMode(stats[i].mode)
  }

  ghost predicate SimModesOf(stats: map<Ino, FileStat>, s: Dac, root: Ino) {
    forall i :: i != root ==> ModeShadowed(stats, s, i)
  }

  // ---------- Machine ----------

  /** The file whose permissions an event sets, set_acl aside. */
  function EventSubject(s: Dac, ie: ImaEvent): Option<File> {
    if !ie.Sys? then None
    else if Creates(ie.e) then Some(CreatedFile(ie.e))
    else MetaTarget(s, ie.e)
  }

  /** If the file is there afterwards, and no symbolic link, it was before, with the same permissions. */
  ghost predicate Untouched(s: Dac, s': Dac, f: File) {
    f in s'.attrs.meta && f !in s'.tree.symLinks ==>
      f in s.attrs.meta && f !in s.tree.symLinks && s'.attrs.meta[f].perms == s.attrs.meta[f].perms
  }

  lemma StaysPlain(s: Dac, e: Event, s': Dac, f: File)
    requires FilesStep(s, e, s') && s'.tree.symLinks == SymLinksAfter(s.tree, e)
    requires f in s'.tree.files && f !in s'.tree.symLinks && !(Creates(e) && CreatedFile(e) == f)
    ensures f in s.tree.files && f !in s.tree.symLinks
  {
  }

  lemma PermsOfOthers(s: Dac, e: Event, a: Attrs, f: File)
    requires PermsStep(s, e, a) && f in a.meta && f in s.attrs.meta && !e.SetAcl?
    requires !(Creates(e) && CreatedFile(e) == f) && MetaTarget(s, e) != Some(f)
    ensures a.meta[f].perms == s.attrs.meta[f].perms
  {
  }

  lemma SysUntouched(s: Ima, e: Event, h: Hashes, s': Ima, f: File)
    requires Stepped(s, e, h, s') && Shaped(s) && Shaped(s') && PermsStep(s.dac, e, s'.dac.attrs)
    requires EventSubject(s.dac, Sys(e, h)) != Some(f) && !e.SetAcl?
    ensures Untouched(s.dac, s'.dac, f)
  {
    hide PermsStep, FilesStep, MetaTarget, HashesStep;
    if MetaTarget(s.dac, e).Some? {
      TargetedIsPlain(s.dac, e);
    }
    if f in s'.dac.attrs.meta && f !in s'.dac.tree.symLinks {
      StaysPlain(s.dac, e, s'.dac, f);
      PermsOfOthers(s.dac, e, s'.dac.attrs, f);
    }
  }

  lemma UntouchedAt(ss: seq<Ima>, es: seq<ImaEvent>, i: nat, f: File)
    requires SteppedRun(ss, es) && PermRun(ss, es) && i < |es|
    requires EventSubject(ss[i].dac, es[i]) != Some(f) && !(es[i].Sys? && es[i].e.SetAcl?)
    ensures Untouched(ss[i].dac, ss[i + 1].dac, f)
  {
    assert SteppedAt(ss, es, i) && PermAt(ss, es, i);
    if es[i].Sys? {
      SysUntouched(ss[i], es[i].e, es[i].h, ss[i + 1], f);
    }
  }

  lemma SubjectGets(ss: seq<Ima>, es: seq<ImaEvent>, i: nat, f: File)
    requires PermRun(ss, es) && i < |es| && es[i].Sys? && !es[i].e.Symlink?
    requires EventSubject(ss[i].dac, es[i]) == Some(f) && f in ss[i + 1].dac.attrs.meta
    ensures ss[i + 1].dac.attrs.meta[f].perms == es[i].e.perms
  {
    assert PermAt(ss, es, i);
  }

  // ---------- Mediator ----------

  /** The inode whose mode a call sets. */
  function ModeSubject(m: MState, c: Call): Option<Ino> {
    if c.Open? || c.Creat? then (if c.path in m.path2ino then None else Some(c.file))
    else if c.Mkdir? || c.InitFolder? then Some(c.file)
    else if c.InitFile? then (if c.file in m.path2ino.Values then None else Some(c.file))
    else ChangedIno(m, c)
  }

  predicate SetsMode(c: Call) {
    || c.Open? || c.Creat? || c.Mkdir? || c.InitFolder? || c.InitFile?
    || c.Chmod? || c.Fchmod? || c.Chown? || c.Fchown?
  }

  /** Only the subject's mode changes; it becomes the one that the call names. */
  ghost predicate ModesAfter(m: MState, c: Call, m': MState) {
    forall i :: i in m'.stats ==>
      if ModeSubject(m, c) == Some(i)
      then SetsMode(c) && m'.stats[i].mode == c.perms
      else i in m.stats && m'.stats[i].mode == m.stats[i].mode
  }

  lemma OpeningModes(m: MState, c: Call)
    requires (c.Open? || c.Creat? || c.Mkdir?) && Perform(m, c).status == Ok
    ensures ModesAfter(m, c, Perform(m, c).m)
  {
  }

  lemma FolderModes(m: MState, c: Call)
    requires c.InitFolder? && Perform(m, c).status == Ok
    ensures ModesAfter(m, c, Perform(m, c).m)
  {
  }

  lemma FileModes(m: MState, c: Call)
    requires c.InitFile? && Perform(m, c).status == Ok
    ensures ModesAfter(m, c, Perform(m, c).m)
  {
    if c.file !in m.path2ino.Values {
      FileOutcome(m, c);
    }
  }

  lemma ChangingModes(m: MState, c: Call)
    requires (c.Chmod? || c.Fchmod? || c.Chown? || c.Fchown?) && Perform(m, c).status == Ok
    ensures ModesAfter(m, c, Perform(m, c).m)
  {
  }

  lemma CallModes(m: MState, c: Call)
    requires Perform(m, c).status == Ok
    ensures ModesAfter(m, c, Perform(m, c).m)
  {
    if c.Open? || c.Creat? || c.Mkdir? {
      OpeningModes(m, c);
    } else if c.InitFolder? {
      FolderModes(m, c);
    } else if c.InitFile? {
      FileModes(m, c);
    } else if c.Chmod? || c.Fchmod? || c.Chown? || c.Fchown? {
      ChangingModes(m, c);
    }
  }

  // ---------- Turns ----------

  /** The permissions parameter of an event that has one. */
  function PermsOf(ie: ImaEvent): Option<set<Permission>> {
    if ie.Sys? && (Creates(ie.e) && !ie.e.Symlink?) then Some(ie.e.perms)
    else if ie.Sys? && (ie.e.Chmod? || ie.e.Fchmod? || ie.e.Fchmodat? || ie.e.Chown? || ie.e.Fchown? || ie.e.Fchownat?)
    then Some(ie.e.perms)
    else None
  }

  /** The event that settles the permissions: of the four for an initial file or folder the third. */
  function Settling(c: Call): nat {
    if c.InitFolder? || c.InitFile? then 2 else 0
  }

  /** The translator emits the permissions that it stores; set_init_acl emits the stored modes. */
  ghost predicate EmitsPerms(m: MState, root: Ino, t: Turn) {
    match t.act
    case Called(c) =>
      ModeSubject(m, c).Some? && SetsMode(c) && Settling(c) < |t.es| ==>
        PermsOf(t.es[Settling(c)]) == Some(TranslateMode(c.perms))
    case Unrecorded(_) =>
      |t.es| > 0 && t.es[0].Sys? && t.es[0].e.SetAcl? ==>
        forall i :: i in m.stats && i != root && FileOf(root, i) in t.es[0].e.dacPermissions ==>
          t.es[0].e.dacPermissions[FileOf(root, i)] == TranslateMode(m.stats[i].mode)
  }

  /** What a turn does to one file, its subject or another one. */
  ghost predicate PermsMoved(s: Dac, s': Dac, root: Ino, subject: Option<Ino>, perms: set<Permission>) {
    && (subject.Some? ==> subject.value != root)
    && (forall i :: i != root && subject != Some(i) ==> Untouched(s, s', Inode(i.dev, i.ino)))
    && (subject.Some? ==>
          var f := FileOf(root, subject.value);
          f in s'.attrs.meta && f !in s'.tree.symLinks ==> s'.attrs.meta[f].perms == perms)
  }

  lemma ModesMove(m: MState, c: Call, m': MState, s: Dac, s': Dac, root: Ino, perms: set<Permission>)
    requires SimModesOf(m.stats, s, root) && ModesAfter(m, c, m')
    requires PermsMoved(s, s', root, ModeSubject(m, c), perms)
    requires ModeSubject(m, c).Some? && SetsMode(c) ==> perms == TranslateMode(c.perms)
    ensures SimModesOf(m'.stats, s', root)
  {
    forall i | i != root
      ensures ModeShadowed(m'.stats, s', i)
    {
      assert ModeShadowed(m.stats, s, i);
      if ModeSubject(m, c) != Some(i) {
        assert Untouched(s, s', Inode(i.dev, i.ino));
      }
    }
  }

  /** The event is about the file of the call's subject. */
  ghost predicate SubjectsAgree(s: Dac, ie: ImaEvent, root: Ino, subject: Option<Ino>) {
    && ie.Sys? && !ie.e.SetAcl? && !ie.e.Symlink?
    && EventSubject(s, ie) == FileIfAny(root, subject)
    && (subject.Some? ==> subject.value != root)
  }

  lemma EnteringSubject(m: MState, s: Ima, e: Event, h: Hashes, s': Ima, root: Ino, path: string, file: Ino, meta: Hash)
    requires Follows(m, s, e, h, s', root) && EmitsCreation(m, root, path, file, meta, e, h) && path != "/"
    ensures SubjectsAgree(s.dac, Sys(e, h), root, Some(file)) && path !in m.path2ino
  {
    hide Stepped, Sim;
    CreationPathIsFree(m, s, e, h, s', root, path, file, meta);
  }

  lemma ChangingSubject(m: MState, s: Ima, e: Event, h: Hashes, root: Ino, c: Call)
    requires Sim(m, s, root) && EmitsOne(m, root, c, e, h) && Perform(m, c).status == Ok
    requires c.Chmod? || c.Chown? || c.Fchmod? || c.Fchown?
    ensures SubjectsAgree(s.dac, Sys(e, h), root, ChangedIno(m, c))
  {
    hide Sim;
    SubjectIsTarget(m, s, root, c, e, h);
    TargetedIsPlain(s.dac, e);
    SubjectChanges(m, root, c, e, h);
    RootHasNoStats(m, s, root);
  }

  lemma LinkingSubject(m: MState, s: Dac, e: Event, h: Hashes, root: Ino, path: string, newPath: string)
    requires EmitsLink(m, root, path, newPath, e)
    ensures SubjectsAgree(s, Sys(e, h), root, None)
  {
  }

  lemma RemainingSubject(m: MState, s: Dac, e: Event, h: Hashes, root: Ino, c: Call)
    requires EmitsOne(m, root, c, e, h)
    requires c.Close? || c.Exit? || c.Unlink? || c.Rmdir? || c.Chdir? || (c.Open? && c.path in m.path2ino)
    ensures SubjectsAgree(s, Sys(e, h), root, None) && ModeSubject(m, c) == None
  {
  }

  lemma OpeningSubject(m: MState, s: Ima, e: Event, h: Hashes, s': Ima, root: Ino, c: Call)
    requires Follows(m, s, e, h, s', root) && EmitsOne(m, root, c, e, h) && Covered(m, root, c)
    requires (c.Open? && c.path !in m.path2ino) || c.Creat? || c.Mkdir?
    ensures SubjectsAgree(s.dac, Sys(e, h), root, Some(c.file)) && ModeSubject(m, c) == Some(c.file)
  {
    hide Stepped, Sim, SubjectsAgree;
    if c.Open? {
      OpenPathIsNotRoot(m, s, root, c);
    }
    EnteringSubject(m, s, e, h, s', root, c.path, c.file, Fake(c.uid, c.gid, c.perms));
  }

  lemma OneSubject(m: MState, s: Ima, e: Event, h: Hashes, s': Ima, root: Ino, c: Call)
    requires Follows(m, s, e, h, s', root) && EmitsOne(m, root, c, e, h) && Covered(m, root, c)
    requires Perform(m, c).status == Ok
    ensures SubjectsAgree(s.dac, Sys(e, h), root, ModeSubject(m, c))
  {
    hide Stepped, Sim, SubjectsAgree;
    if (c.Open? && c.path !in m.path2ino) || c.Creat? || c.Mkdir? {
      OpeningSubject(m, s, e, h, s', root, c);
    } else if c.Chmod? || c.Chown? || c.Fchmod? || c.Fchown? {
      ChangingSubject(m, s, e, h, root, c);
    } else if c.Link? {
      LinkingSubject(m, s.dac, e, h, root, c.path, c.newPath);
    } else if c.InitFile? {
      LinkingSubject(m, s.dac, e, h, root, PathOf(m, c.file), c.path);
    } else {
      RemainingSubject(m, s.dac, e, h, root, c);
    }
  }

  lemma OpenPathIsNotRoot(m: MState, s: Ima, root: Ino, c: Call)
    requires Sim(m, s, root) && c.Open? && c.path !in m.path2ino
    ensures c.path != "/"
  {
  }

  lemma RootHasNoStats(m: MState, s: Ima, root: Ino)
    requires Sim(m, s, root)
    ensures root !in m.stats
  {
  }

  /** One event. */
  lemma MovedByOne(ss: seq<Ima>, es: seq<ImaEvent>, root: Ino, subject: Option<Ino>, perms: set<Permission>)
    requires SteppedRun(ss, es) && PermRun(ss, es) && |es| == 1 && SubjectsAgree(ss[0].dac, es[0], root, subject)
    requires subject.Some? ==> PermsOf(es[0]) == Some(perms)
    ensures PermsMoved(ss[0].dac, ss[1].dac, root, subject, perms)
  {
    forall i | i != root && subject != Some(i)
      ensures Untouched(ss[0].dac, ss[1].dac, Inode(i.dev, i.ino))
    {
      UntouchedAt(ss, es, 0, Inode(i.dev, i.ino));
    }
    if subject.Some? && FileOf(root, subject.value) in ss[1].dac.attrs.meta {
      SubjectGets(ss, es, 0, FileOf(root, subject.value));
    }
  }

  /** Four events of one subject: created, owned, given its mode, and then closed or measured. */
  lemma MovedByFour(ss: seq<Ima>, es: seq<ImaEvent>, root: Ino, file: Ino, perms: set<Permission>)
    requires SteppedRun(ss, es) && PermRun(ss, es) && |es| == 4
    requires forall k :: 0 <= k < 3 ==> SubjectsAgree(ss[k].dac, es[k], root, Some(file))
    requires EventSubject(ss[3].dac, es[3]) == None && !(es[3].Sys? && es[3].e.SetAcl?)
    requires PermsOf(es[2]) == Some(perms)
    ensures PermsMoved(ss[0].dac, ss[4].dac, root, Some(file), perms)
  {
    assert SubjectsAgree(ss[0].dac, es[0], root, Some(file)) && SubjectsAgree(ss[1].dac, es[1], root, Some(file))
      && SubjectsAgree(ss[2].dac, es[2], root, Some(file));
    hide SteppedRun, PermRun;
    forall i | i != root && i != file
      ensures Untouched(ss[0].dac, ss[4].dac, Inode(i.dev, i.ino))
    {
      var f := Inode(i.dev, i.ino);
      UntouchedAt(ss, es, 0, f);
      UntouchedAt(ss, es, 1, f);
      UntouchedAt(ss, es, 2, f);
      UntouchedAt(ss, es, 3, f);
    }
    var f := FileOf(root, file);
    UntouchedAt(ss, es, 3, f);
    if f in ss[3].dac.attrs.meta {
      SubjectGets(ss, es, 2, f);
    }
  }

  lemma ChangeSubject(m: MState, s: Ima, ie: ImaEvent, root: Ino, file: Ino)
    requires Sim(m, s, root) && ChangesMeta(m.fd2ino, root, ie, file) && file != root
    ensures SubjectsAgree(s.dac, ie, root, Some(file))
  {
  }

  lemma EntryFollows(ss: seq<Ima>, es: seq<ImaEvent>, m: MState, root: Ino, c: Call)
    requires SteppedRun(ss, es) && |es| == 4 && es[0].Sys? && Sim(m, ss[0], root) && (c.InitFolder? || c.InitFile?)
    requires EmitsCreation(m, root, c.path, c.file, Fake(0, 0, MODE_0777), es[0].e, es[0].h) && c.path != "/"
    ensures SubjectsAgree(ss[0].dac, es[0], root, Some(c.file)) && c.file != root && c.path !in m.path2ino
  {
    assert SteppedAt(ss, es, 0);
    EnteringSubject(m, ss[0], es[0].e, es[0].h, ss[1], root, c.path, c.file, Fake(0, 0, MODE_0777));
  }

  lemma EnteredFile(m: MState, c: Call, made: MState)
    requires (c.InitFolder? || c.InitFile?) && MadeFrom(m, c, made)
    ensures c.file in made.stats && c.file in made.realHashes
  {
  }

  lemma LaterSubjects(ss: seq<Ima>, es: seq<ImaEvent>, made: MState, root: Ino, file: Ino)
    requires SteppedRun(ss, es) && |es| == 4 && Sim(made, ss[1], root) && file != root
    requires ChangesMeta(made.fd2ino, root, es[1], file) && ChangesMeta(made.fd2ino, root, es[2], file)
    requires file in made.stats && file in made.realHashes
    ensures SubjectsAgree(ss[1].dac, es[1], root, Some(file)) && SubjectsAgree(ss[2].dac, es[2], root, Some(file))
  {
    hide Sim, SubjectsAgree, SteppedAt;
    ChangeAt(ss, es, 1, made, root, file);
    ChangeSubject(made, ss[1], es[1], root, file);
    ChangeSubject(WithMeta(made, file, es[1].h.meta), ss[2], es[2], root, file);
  }

  /** The subjects of the first three events for an initial file or folder. */
  lemma InitSubjects(ss: seq<Ima>, es: seq<ImaEvent>, m: MState, root: Ino, c: Call, made: MState)
    requires SteppedRun(ss, es) && Sim(m, ss[0], root) && (c.InitFolder? || c.InitFile?)
    requires if c.InitFolder? then EmitsFolder(m, root, c, es) else EmitsFile(m, root, c, es)
    requires c.path != "/" && Dirname(c.path) in m.path2ino && MadeFrom(m, c, made)
    ensures forall k :: 0 <= k < 3 ==> SubjectsAgree(ss[k].dac, es[k], root, Some(c.file))
  {
    hide Sim, SubjectsAgree, SteppedAt, EmitsCreation, ChangesMeta, EmitsFolder, EmitsFile, MadeFrom;
    CreationEmitted(m, root, c, es);
    EnteredFile(m, c, made);
    EntryFollows(ss, es, m, root, c);
    EnteredAt(m, ss, es, root, c, made);
    LaterSubjects(ss, es, made, root, c.file);
  }

  lemma LastSetsNothing(m: MState, root: Ino, c: Call, es: seq<ImaEvent>)
    requires c.InitFolder? || c.InitFile?
    requires if c.InitFolder? then EmitsFolder(m, root, c, es) else EmitsFile(m, root, c, es)
    ensures |es| == 4 && !(es[3].Sys? && es[3].e.SetAcl?) && forall s :: EventSubject(s, es[3]) == None
  {
    hide EmitsCreation, Fake, InitHashes;
  }

  lemma InitTurnMoves(ss: seq<Ima>, es: seq<ImaEvent>, m: MState, root: Ino, c: Call, made: MState, perms: set<Permission>)
    requires SteppedRun(ss, es) && PermRun(ss, es) && Sim(m, ss[0], root) && (c.InitFolder? || c.InitFile?)
    requires if c.InitFolder? then EmitsFolder(m, root, c, es) else EmitsFile(m, root, c, es)
    requires c.path != "/" && Dirname(c.path) in m.path2ino && MadeFrom(m, c, made)
    requires PermsOf(es[2]) == Some(perms)
    ensures PermsMoved(ss[0].dac, ss[4].dac, root, Some(c.file), perms)
  {
    hide Sim, SubjectsAgree, PermsMoved, SteppedAt, PermAt, MadeFrom, EmitsFolder, EmitsFile, PermsOf,
      EventSubject;
    LastSetsNothing(m, root, c, es);
    InitSubjects(ss, es, m, root, c, made);
    MovedByFour(ss, es, root, c.file, perms);
  }

  lemma FolderTurnMoves(ss: seq<Ima>, es: seq<ImaEvent>, m: MState, root: Ino, c: Call)
    requires SteppedRun(ss, es) && PermRun(ss, es) && Sim(m, ss[0], root) && c.InitFolder?
    requires EmitsFolder(m, root, c, es) && Covered(m, root, c) && Perform(m, c).status == Ok
    requires PermsOf(es[2]) == Some(TranslateMode(c.perms))
    ensures PermsMoved(ss[0].dac, ss[4].dac, root, ModeSubject(m, c), TranslateMode(c.perms))
  {
    hide Sim, SteppedRun, PermRun, PermsMoved, EmitsFolder;
    FolderMadeEnters(m, c);
    InitTurnMoves(ss, es, m, root, c, FolderMade(m, c), TranslateMode(c.perms));
  }

  lemma FileTurnMoves(ss: seq<Ima>, es: seq<ImaEvent>, m: MState, root: Ino, c: Call)
    requires SteppedRun(ss, es) && PermRun(ss, es) && Sim(m, ss[0], root) && c.InitFile?
    requires EmitsFile(m, root, c, es) && Covered(m, root, c) && Perform(m, c).status == Ok
    requires c.file !in m.path2ino.Values && PermsOf(es[2]) == Some(TranslateMode(c.perms))
    ensures PermsMoved(ss[0].dac, ss[4].dac, root, ModeSubject(m, c), TranslateMode(c.perms))
  {
    hide Sim, SteppedRun, PermRun, PermsMoved, EmitsFile;
    FileOutcome(m, c);
    InitTurnMoves(ss, es, m, root, c, FileHeld(m, c), TranslateMode(c.perms));
  }

  lemma OneTurnMoves(ss: seq<Ima>, es: seq<ImaEvent>, m: MState, root: Ino, c: Call, perms: set<Permission>)
    requires SteppedRun(ss, es) && PermRun(ss, es) && Sim(m, ss[0], root)
    requires |es| == 1 && es[0].Sys? && EmitsOne(m, root, c, es[0].e, es[0].h)
    requires Covered(m, root, c) && Perform(m, c).status == Ok
    requires ModeSubject(m, c).Some? ==> PermsOf(es[0]) == Some(perms)
    ensures PermsMoved(ss[0].dac, ss[1].dac, root, ModeSubject(m, c), perms)
  {
    hide Sim, PermRun, PermsMoved, EmitsOne, Perform, SubjectsAgree;
    assert SteppedAt(ss, es, 0);
    OneSubject(m, ss[0], es[0].e, es[0].h, ss[1], root, c);
    MovedByOne(ss, es, root, ModeSubject(m, c), perms);
  }

  /** Only calls that set a mode have a subject. */
  lemma SubjectsSetModes(m: MState, c: Call)
    ensures ModeSubject(m, c).Some? ==> SetsMode(c)
  {
  }

  lemma ModesTurnMoves(ss: seq<Ima>, es: seq<ImaEvent>, root: Ino, mode: IntegrityMode)
    requires SteppedRun(ss, es) && es == [SwitchImaMode(mode), SwitchEvmMode(mode)]
    ensures ss[2].dac == ss[0].dac
  {
    assert SteppedAt(ss, es, 0) && SteppedAt(ss, es, 1);
  }

  /** What a call's turn does to permissions. */
  lemma CalledTurnMoves(ss: seq<Ima>, es: seq<ImaEvent>, m: MState, root: Ino, c: Call, perms: set<Permission>)
    requires SteppedRun(ss, es) && PermRun(ss, es) && Sim(m, ss[0], root)
    requires Emits(m, root, c, es) && Covered(m, root, c) && Perform(m, c).status == Ok
    requires SetsMode(c) ==> perms == TranslateMode(c.perms)
    requires ModeSubject(m, c).Some? ==> Settling(c) < |es| && PermsOf(es[Settling(c)]) == Some(perms)
    ensures PermsMoved(ss[0].dac, ss[|es|].dac, root, ModeSubject(m, c), perms)
  {
    hide Sim, PermRun, PermsMoved, EmitsCreation, EmitsOne, Perform;
    if c.InitFolder? {
      FolderTurnMoves(ss, es, m, root, c);
    } else if c.InitFile? && c.file !in m.path2ino.Values {
      FileTurnMoves(ss, es, m, root, c);
    } else if c.SetModes? {
      ModesTurnMoves(ss, es, root, c.mode);
      NothingMoves(ss[0].dac, root, perms);
    } else {
      OneTurnMoves(ss, es, m, root, c, perms);
    }
  }

  lemma NothingMoves(s: Dac, root: Ino, perms: set<Permission>)
    ensures PermsMoved(s, s, root, None, perms)
  {
  }

  // ---------- Unrecorded events ----------

  lemma ModesStay(stats: map<Ino, FileStat>, s: Dac, s': Dac, root: Ino, link: Option<File>)
    requires SimModesOf(stats, s, root) && (link.Some? ==> link.value in s'.tree.symLinks)
    requires forall i :: i != root && link != Some(Inode(i.dev, i.ino)) ==> Untouched(s, s', Inode(i.dev, i.ino))
    ensures SimModesOf(stats, s', root)
  {
    forall i | i != root
      ensures ModeShadowed(stats, s', i)
    {
      assert ModeShadowed(stats, s, i);
      assert link != Some(Inode(i.dev, i.ino)) ==> Untouched(s, s', Inode(i.dev, i.ino));
    }
  }

  lemma AclModes(s: Dac, e: Event, a: Attrs, s': Dac, stats: map<Ino, FileStat>, root: Ino)
    requires e.SetAcl? && PermsStep(s, e, a) && s'.attrs == a && s'.tree.symLinks == s.tree.symLinks
    requires a.meta.Keys == s.attrs.meta.Keys && SimModesOf(stats, s, root)
    requires forall i :: i in stats && i != root && FileOf(root, i) in e.dacPermissions ==>
      e.dacPermissions[FileOf(root, i)] == TranslateMode(stats[i].mode)
    ensures SimModesOf(stats, s', root)
  {
    forall i | i != root
      ensures ModeShadowed(stats, s', i)
    {
      assert ModeShadowed(stats, s, i);
    }
  }

  lemma AclTurn(ss: seq<Ima>, es: seq<ImaEvent>, stats: map<Ino, FileStat>, root: Ino)
    requires SteppedRun(ss, es) && PermRun(ss, es) && |es| == 1 && es[0].Sys? && es[0].e.SetAcl?
    requires SimModesOf(stats, ss[0].dac, root)
    requires forall i :: i in stats && i != root && FileOf(root, i) in es[0].e.dacPermissions ==>
      es[0].e.dacPermissions[FileOf(root, i)] == TranslateMode(stats[i].mode)
    ensures SimModesOf(stats, ss[1].dac, root)
  {
    hide PermsStep, SimModesOf;
    assert SteppedAt(ss, es, 0) && PermAt(ss, es, 0);
    AclModes(ss[0].dac, es[0].e, ss[1].dac.attrs, ss[1].dac, stats, root);
  }

  /** An event without a subject, or with the file of a new symbolic link as its subject. */
  lemma QuietTurn(ss: seq<Ima>, es: seq<ImaEvent>, stats: map<Ino, FileStat>, root: Ino)
    requires SteppedRun(ss, es) && PermRun(ss, es) && |es| == 1
    requires EventSubject(ss[0].dac, es[0]) == None || (es[0].Sys? && es[0].e.Symlink?)
    requires !(es[0].Sys? && es[0].e.SetAcl?) && SimModesOf(stats, ss[0].dac, root)
    ensures SimModesOf(stats, ss[1].dac, root)
  {
    hide PermRun, SimModesOf, Untouched;
    var link := if es[0].Sys? && es[0].e.Symlink? then Some(es[0].e.file) else None;
    assert SteppedAt(ss, es, 0);
    forall i | i != root && link != Some(Inode(i.dev, i.ino))
      ensures Untouched(ss[0].dac, ss[1].dac, Inode(i.dev, i.ino))
    {
      UntouchedAt(ss, es, 0, Inode(i.dev, i.ino));
    }
    ModesStay(stats, ss[0].dac, ss[1].dac, root, link);
  }

  lemma UnrecordedModes(ss: seq<Ima>, es: seq<ImaEvent>, stats: map<Ino, FileStat>, root: Ino)
    requires SteppedRun(ss, es) && PermRun(ss, es) && |es| == 1 && UnrecordedEvent(es[0])
    requires SimModesOf(stats, ss[0].dac, root)
    requires es[0].Sys? && es[0].e.SetAcl? ==>
      forall i :: i in stats && i != root && FileOf(root, i) in es[0].e.dacPermissions ==>
        es[0].e.dacPermissions[FileOf(root, i)] == TranslateMode(stats[i].mode)
    ensures SimModesOf(stats, ss[1].dac, root)
  {
    hide PermRun, SimModesOf;
    if es[0].Sys? && es[0].e.SetAcl? {
      AclTurn(ss, es, stats, root);
    } else {
      if es[0].Sys? && Quiet(es[0].e) {
        QuietTouchesNothing(ss[0].dac, es[0].e);
      }
      QuietTurn(ss, es, stats, root);
    }
  }

  // ---------- Runs ----------

  /** A turn of a trace without forged hashes and without -1 arguments. */
  ghost predicate HonestTurn(m: MState, root: Ino, t: Turn) {
    && EmitsPerms(m, root, t)
    && (t.act.Called? ==> GenuineCall(t.act.c) && NoMinusOne(t.act.c))
  }

  ghost predicate HonestReplay(ms: seq<MState>, ts: seq<Turn>, root: Ino) {
    && IsReplay(ms, ts, root)
    && forall k {:trigger HonestTurn(ms[k], root, ts[k])} :: 0 <= k < |ts| ==> HonestTurn(ms[k], root, ts[k])
  }

  lemma SettlingIsThere(m: MState, root: Ino, c: Call, es: seq<ImaEvent>)
    requires Emits(m, root, c, es) && ModeSubject(m, c).Some?
    ensures Settling(c) < |es|
  {
    hide EmitsOne, EmitsCreation;
  }

  lemma CalledModes(m: MState, ss: seq<Ima>, es: seq<ImaEvent>, root: Ino, c: Call)
    requires SteppedRun(ss, es) && PermRun(ss, es) && Sim(m, ss[0], root)
    requires Emits(m, root, c, es) && Covered(m, root, c) && Perform(m, c).status == Ok
    requires ModeSubject(m, c).Some? && SetsMode(c) && Settling(c) < |es| ==>
      PermsOf(es[Settling(c)]) == Some(TranslateMode(c.perms))
    requires SimModesOf(m.stats, ss[0].dac, root)
    ensures SimModesOf(Perform(m, c).m.stats, ss[|es|].dac, root)
  {
    hide Sim, PermRun, PermsMoved, Emits, Perform, SimModesOf, ModesAfter, PermsOf, TranslateMode;
    var perms := if SetsMode(c) then TranslateMode(c.perms) else {};
    SubjectsSetModes(m, c);
    if ModeSubject(m, c).Some? {
      SettlingIsThere(m, root, c, es);
    }
    CalledTurnMoves(ss, es, m, root, c, perms);
    CallModes(m, c);
    ModesMove(m, c, Perform(m, c).m, ss[0].dac, ss[|es|].dac, root, perms);
  }

  lemma SteppedTurnModes(m: MState, root: Ino, t: Turn, m': MState)
    requires TurnFrom(m, root, t, m') && SteppedRun(t.ss, t.es) && PermRun(t.ss, t.es) && EmitsPerms(m, root, t)
    requires Sim(m, Start(t), root) && SimModesOf(m.stats, Start(t).dac, root)
    ensures SimModesOf(m'.stats, End(t).dac, root)
  {
    hide Sim, PermRun, SimModesOf, Emits, Perform, IsRun, UnrecordedEvent;
    if t.act.Called? {
      CalledModes(m, t.ss, t.es, root, t.act.c);
    } else {
      UnrecordedModes(t.ss, t.es, m.stats, root);
    }
  }

  lemma TurnKeepsModes(m: MState, root: Ino, t: Turn, m': MState)
    requires TurnFrom(m, root, t, m') && EmitsPerms(m, root, t)
    requires Sim(m, Start(t), root) && SimModesOf(m.stats, Start(t).dac, root)
    ensures SimModesOf(m'.stats, End(t).dac, root)
  {
    hide Sim, SimModesOf, Emits, Perform, UnrecordedEvent, EmitsPerms;
    RunIsStepped(t.ss, t.es);
    RunIsPermRun(t.ss, t.es);
    SteppedTurnModes(m, root, t, m');
  }

  lemma TurnKeepsFakes(m: MState, root: Ino, t: Turn, m': MState)
    requires TurnFrom(m, root, t, m') && HonestTurn(m, root, t) && FakesCurrent(m)
    ensures FakesCurrent(m')
  {
    hide Emits, Perform, IsRun, UnrecordedEvent, EmitsPerms;
    if t.act.Called? {
      CallKeepsFakes(m, t.act.c);
    } else {
      FakesFrame(m, m');
    }
  }

  /** In every replay without -1 arguments that the machine accepts, the stored modes are the
      machine's permissions, and the stored fake hashes encode owner, group and mode as stored. */
  lemma {:induction false} ModesAndFakesAreCurrent(ms: seq<MState>, ts: seq<Turn>, root: Ino, n: nat)
    requires HonestReplay(ms, ts, root) && n <= |ts|
    ensures SimModesOf(ms[n].stats, MachineAfter(ts, n).dac, root) && FakesCurrent(ms[n])
  {
    hide Sim, SimModesOf, TurnTaken, TurnCovered, HonestTurn, FakesCurrent;
    if n == 0 {
      InitialModes(root);
    } else {
      ModesAndFakesAreCurrent(ms, ts, root, n - 1);
      MediatorShadowsMachine(ms, ts, root, n - 1);
      assert TakenAt(ms, ts, root, n - 1) && CoveredAt(ms, ts, root, n - 1) && HonestTurn(ms[n - 1], root, ts[n - 1]);
      HonestEmitsPerms(ms[n - 1], root, ts[n - 1]);
      TurnKeepsModes(ms[n - 1], root, ts[n - 1], ms[n]);
      TurnKeepsFakes(ms[n - 1], root, ts[n - 1], ms[n]);
    }
  }

  lemma HonestEmitsPerms(m: MState, root: Ino, t: Turn)
    requires HonestTurn(m, root, t)
    ensures EmitsPerms(m, root, t)
  {
  }

  lemma InitialModes(root: Ino)
    ensures SimModesOf(InitialMediator(root).stats, InitialIma().dac, root) && FakesCurrent(InitialMediator(root))
  {
  }

  lemma GuardFromShadow(m: MState, s: Ima, root: Ino, i: Ino, perms: int, given: Option<Hash>)
    requires Sim(m, s, root) && SimModesOf(m.stats, s.dac, root) && FakesCurrent(m) && Shaped(s)
    requires i in m.stats && FileOf(root, i) in s.Files() && FileOf(root, i) !in s.dac.tree.symLinks
    requires IsHashFake(m.RealOf(i).meta) && NoHash(given)
    ensures HashFollowsPerms(s, Some(FileOf(root, i)), TranslateMode(perms), ChmodHash(m, i, perms, given))
  {
    assert i != root;
    assert HashShadowed(m.realHashes, m.integrity, s, i) && ModeShadowed(m.stats, s.dac, i);
    hide TranslateMode, FakesCurrent;
    ChmodGuardFollows(m, i, perms, given);
  }

  /** At any point of such a replay: for an existing file whose stored hash is a fake one, the hash
      that chmod or fchmod sends meets the guard that the permissions stay exactly if the hash does. */
  lemma ChmodHashMeetsGuard(ms: seq<MState>, ts: seq<Turn>, root: Ino, n: nat, i: Ino, perms: int, given: Option<Hash>)
    requires HonestReplay(ms, ts, root) && n <= |ts| && i in ms[n].stats
    requires
      var s := MachineAfter(ts, n);
      && FileOf(root, i) in s.Files() && FileOf(root, i) !in s.dac.tree.symLinks
      && IsHashFake(ms[n].RealOf(i).meta) && NoHash(given)
    ensures HashFollowsPerms(MachineAfter(ts, n), Some(FileOf(root, i)), TranslateMode(perms),
                             ChmodHash(ms[n], i, perms, given))
  {
    hide Sim, SimModesOf, TakenAt, CoveredAt, HonestTurn, FakesCurrent, TranslateMode, Shaped, HashFollowsPerms;
    ModesAndFakesAreCurrent(ms, ts, root, n);
    MediatorShadowsMachine(ms, ts, root, n);
    ShapedAtTurn(ms, ts, root, n);
    GuardFromShadow(ms[n], MachineAfter(ts, n), root, i, perms, given);
  }

  lemma ShapedAfterRun(ss: seq<Ima>, es: seq<ImaEvent>)
    requires IsRun(ss, es) && |es| > 0
    ensures Shaped(ss[|es|])
  {
    hide Shaped;
    assert StepAt(ss, es, |es| - 1);
    ShapedAfter(ss[|es| - 1], es[|es| - 1]);
  }

  lemma InitialIsShaped()
    ensures Shaped(InitialIma())
  {
  }

  lemma ShapedAtTurn(ms: seq<MState>, ts: seq<Turn>, root: Ino, n: nat)
    requires IsReplay(ms, ts, root) && n <= |ts|
    ensures Shaped(MachineAfter(ts, n))
  {
    hide Shaped, Emits, Perform, UnrecordedEvent;
    if n == 0 {
      InitialIsShaped();
    } else {
      assert TakenAt(ms, ts, root, n - 1);
      TurnsHaveEvents(ms[n - 1], root, ts[n - 1], ms[n]);
      ShapedAfterRun(ts[n - 1].ss, ts[n - 1].es);
    }
  }

  // ---------- chown ----------

  /** The root's ids are ROOT_USER and ROOT_GROUP; every other id is a user or a group of its own. */
  function UserOf(rootUid: int, uid: int): User {
    if uid == rootUid then ROOT_USER else User(uid)
  }

  function GroupOf(rootGid: int, gid: int): Group {
    if gid == rootGid then ROOT_GROUP else Group(gid)
  }

  /** The file has the owner and the group that are stored for the inode. */
  ghost predicate OwnerShadowed(m: MState, s: Dac, root: Ino, i: Ino, rootUid: int, rootGid: int) {
    var f := FileOf(root, i);
    && i in m.stats && f in s.attrs.meta
    && s.attrs.meta[f].user == UserOf(rootUid, m.stats[i].uid)
    && s.attrs.meta[f].group == GroupOf(rootGid, m.stats[i].gid)
  }

  /** For an existing file whose stored hash is a fake one, the hash that chown or fchown sends meets the
      guard that owner and group stay exactly if the hash does, precisely if owner or group change or
      the permissions stay. */
  lemma ChownHashMeetsGuardIff(m: MState, s: Ima, root: Ino, i: Ino, owner: int, group: int, perms: int,
                               given: Option<Hash>, rootUid: int, rootGid: int)
    requires Sim(m, s, root) && SimModesOf(m.stats, s.dac, root) && FakesCurrent(m)
    requires i in m.stats && FileOf(root, i) in s.Files() && FileOf(root, i) !in s.dac.tree.symLinks
    requires OwnerShadowed(m, s.dac, root, i, rootUid, rootGid)
    requires IsHashFake(m.RealOf(i).meta) && NoHash(given)
    ensures
      var f := FileOf(root, i);
      HashFollowsOwner(s, Some(f), UserOf(rootUid, NewUid(m, i, owner)), GroupOf(rootGid, NewGid(m, i, group)),
                       ChownHash(m, i, owner, group, perms, given)) <==>
        (NewUid(m, i, owner) == m.stats[i].uid && NewGid(m, i, group) == m.stats[i].gid ==>
           s.dac.attrs.meta[f].perms == TranslateMode(perms))
  {
    assert i != root && FakeCurrent(m, i);
    assert HashShadowed(m.realHashes, m.integrity, s, i) && ModeShadowed(m.stats, s.dac, i);
    hide TranslateMode, FakesCurrent, Fake;
    var was := m.stats[i];
    FakeHashFollowsOwnerIff(was.uid, was.gid, was.mode, NewUid(m, i, owner), NewGid(m, i, group), perms);
  }
}
