/** What the shadowing argument needs to know about one accepted event of the machine. */
module SimFacts {
  import opened Context
  import opened DacState
  import opened DacEvents
  import opened DacSteps
  import opened Ima

  /** A new name was free. */
  ghost predicate FreeName(t: Tree, e: Event) {
    if e.Link? then NameFree(t, e.newParent, e.newName)
    else Creates(e) ==> NameFree(t, e.parent, e.name)
  }

  /** What is removed was there, under that name; a file only with its last name, a folder only empty. */
  ghost predicate RemovableName(t: Tree, e: Event) {
    if e.Unlink? then
      && e.file !in t.folders && Entry(e.file, e.parent, e.name) in t.entries
      && (e.files == {e.file} ==> !OtherNames(t, e.file, e.parent, e.name))
    else
      e.Rmdir? ==>
        && e.folder in t.folders && Entry(e.folder, e.parent, e.name) in t.entries
        && forall n :: n in t.entries ==> n.parent != e.folder
  }

  ghost predicate FreshOrLive(s: Dac, e: Event) {
    && (Opens(e) ==> e.fd !in s.descs.open)
    && (MetaTarget(s, e).Some? ==> MetaTarget(s, e).value in s.tree.files)
  }

  /** What the guard says about names and descriptors. */
  ghost predicate NameFacts(s: Dac, e: Event) {
    FreeName(s.tree, e) && RemovableName(s.tree, e) && FreshOrLive(s, e)
  }

  predicate Closes(e: Event) {
    e.Close? || e.Exit? || e.Execve?
  }

  /** Only close, exit and execve close descriptors, and only the ones they name. */
  ghost predicate OpenFacts(d: Descs, e: Event, d': Descs) {
    && (Opens(e) ==> e.fd in d'.open && d'.open[e.fd].file == e.file)
    && (forall fd :: fd in d.open && !(Closes(e) && fd in e.fds) && !(Opens(e) && fd == e.fd)
          ==> fd in d'.open && d'.open[fd] == d.open[fd])
  }

  /** Symbolic links come only from symlink. */
  function SymLinksAfter(t: Tree, e: Event): set<File> {
    if e.Symlink? then t.symLinks + {e.file}
    else if e.Unlink? then t.symLinks - e.files
    else t.symLinks
  }

  ghost predicate ShadowStep(s: Dac, e: Event, s': Dac) {
    NameFacts(s, e) && OpenFacts(s.descs, e, s'.descs) && s'.tree.symLinks == SymLinksAfter(s.tree, e)
  }

  lemma CreatedName(s: Dac, e: Event)
    requires DacInv(s) && Creates(e) && FileGuard(s, e)
    ensures FreeName(s.tree, e)
  {
  }

  lemma LinkedName(s: Dac, e: Event)
    requires DacInv(s) && e.Link? && FileGuard(s, e)
    ensures FreeName(s.tree, e)
  {
  }

  lemma UnlinkedName(s: Dac, e: Event)
    requires DacInv(s) && e.Unlink? && FileGuard(s, e)
    ensures RemovableName(s.tree, e)
  {
  }

  lemma RemovedFolderName(s: Dac, e: Event)
    requires DacInv(s) && e.Rmdir? && FileGuard(s, e)
    ensures RemovableName(s.tree, e)
  {
  }

  lemma OpenedFresh(s: Dac, e: Event)
    requires DacInv(s) && Opens(e) && FileGuard(s, e)
    ensures FreshOrLive(s, e)
  {
  }

  lemma FileEventFree(s: Dac, e: Event)
    requires DacInv(s) && FileEvent(e) && FileGuard(s, e)
    ensures FreeName(s.tree, e)
  {
    if Creates(e) {
      CreatedName(s, e);
    } else if e.Link? {
      LinkedName(s, e);
    }
  }

  lemma FileEventRemovable(s: Dac, e: Event)
    requires DacInv(s) && FileEvent(e) && FileGuard(s, e)
    ensures RemovableName(s.tree, e)
  {
    if e.Unlink? {
      UnlinkedName(s, e);
    } else if e.Rmdir? {
      RemovedFolderName(s, e);
    }
  }

  lemma NoTarget(s: Dac, e: Event)
    requires FileEvent(e)
    ensures MetaTarget(s, e).None?
  {
  }

  lemma FileEventFresh(s: Dac, e: Event)
    requires DacInv(s) && FileEvent(e) && FileGuard(s, e)
    ensures FreshOrLive(s, e)
  {
    NoTarget(s, e);
    if Opens(e) {
      OpenedFresh(s, e);
    }
  }

  lemma UnopenedFacts(d: Descs, e: Event, d': Descs)
    requires !Opens(e)
    requires d'.open == if Closes(e) then d.open - e.fds else d.open
    ensures OpenFacts(d, e, d')
  {
  }

  lemma OpeningDescs(s: Dac, e: Event)
    requires DacInv(s) && Opens(e) && FileGuard(s, e)
    ensures ApplyFile(s, e).descs == OpenDesc(s.descs, e.proc, e.fd, e.fdNumber, e.flags, e.file)
  {
  }

  lemma UnopenedDescs(s: Dac, e: Event)
    requires DacInv(s) && FileEvent(e) && !Opens(e) && FileGuard(s, e)
    ensures ApplyFile(s, e).descs == s.descs
  {
  }

  lemma FileEventDescs(s: Dac, e: Event)
    requires DacInv(s) && FileEvent(e) && FileGuard(s, e)
    ensures ApplyFile(s, e).descs ==
      if Opens(e) then OpenDesc(s.descs, e.proc, e.fd, e.fdNumber, e.flags, e.file) else s.descs
  {
    if Opens(e) {
      OpeningDescs(s, e);
    } else {
      UnopenedDescs(s, e);
    }
  }

  lemma FileDescs(d: Descs, e: Event)
    requires FileEvent(e)
    ensures OpenFacts(d, e, if Opens(e) then OpenDesc(d, e.proc, e.fd, e.fdNumber, e.flags, e.file) else d)
  {
  }

  lemma FileEventLinks(s: Dac, e: Event)
    requires DacInv(s) && FileEvent(e) && FileGuard(s, e)
    ensures ApplyFile(s, e).tree.symLinks == SymLinksAfter(s.tree, e)
  {
  }

  lemma FileEventShadow(s: Dac, e: Event)
    requires DacInv(s) && FileEvent(e) && FileGuard(s, e)
    ensures ShadowStep(s, e, ApplyFile(s, e))
  {
    FileEventFree(s, e);
    FileEventRemovable(s, e);
    FileEventFresh(s, e);
    FileEventDescs(s, e);
    FileDescs(s.descs, e);
    FileEventLinks(s, e);
  }

  lemma AttrShadow(s: Dac, e: Event, s': Dac)
    requires AttrEvent(e) && s'.tree == s.tree && s'.descs == s.descs
    requires MetaTarget(s, e).Some? ==> MetaTarget(s, e).value in s.tree.files
    ensures ShadowStep(s, e, s')
  {
    UnopenedFacts(s.descs, e, s'.descs);
  }

  lemma AttrEventShadow(s: Dac, e: Event)
    requires DacInv(s) && AttrEvent(e) && AttrGuard(s, e)
    ensures ShadowStep(s, e, ApplyAttr(s, e))
  {
    hide DacInv, ShadowStep;
    if MetaTarget(s, e).Some? {
      MetaTargetExists(s, e);
    }
    AttrShadow(s, e, ApplyAttr(s, e));
  }

  lemma ExecveDescs(s: Dac, e: Event)
    requires DacInv(s) && e.Execve? && ProcGuard(s, e)
    ensures ApplyProc(s, e).tree == s.tree && ApplyProc(s, e).descs.open == s.descs.open - e.fds
  {
    hide DacInv;
  }

  lemma ClosingEventDescs(s: Dac, e: Event)
    requires DacInv(s) && Closes(e) && ProcGuard(s, e)
    ensures ApplyProc(s, e).tree == s.tree && ApplyProc(s, e).descs.open == s.descs.open - e.fds
  {
    hide DacInv;
    if e.Execve? {
      ExecveDescs(s, e);
    }
  }

  lemma OtherProcEventDescs(s: Dac, e: Event)
    requires DacInv(s) && ProcEvent(e) && !Closes(e) && ProcGuard(s, e)
    ensures ApplyProc(s, e).tree == s.tree && ApplyProc(s, e).descs.open == s.descs.open
  {
    hide DacInv;
  }

  lemma ProcEventShadow(s: Dac, e: Event)
    requires DacInv(s) && ProcEvent(e) && ProcGuard(s, e)
    ensures ShadowStep(s, e, ApplyProc(s, e))
  {
    hide DacInv, ShadowStep;
    if Closes(e) {
      ClosingEventDescs(s, e);
    } else {
      OtherProcEventDescs(s, e);
    }
    ProcShadow(s, e, ApplyProc(s, e));
  }

  lemma ProcShadow(s: Dac, e: Event, s': Dac)
    requires ProcEvent(e) && s'.tree == s.tree
    requires s'.descs.open == if Closes(e) then s.descs.open - e.fds else s.descs.open
    ensures ShadowStep(s, e, s')
  {
    UnopenedFacts(s.descs, e, s'.descs);
  }

  lemma AdminEventShadow(s: Dac, e: Event, s': Dac)
    requires AdminEvent(e) && s'.tree == s.tree && s'.descs == s.descs
    ensures ShadowStep(s, e, s')
  {
  }

  lemma EveryEventShadow(s: Dac, e: Event)
    requires DacInv(s) && Guard(s, e) && !e.AnyTransition?
    ensures ShadowStep(s, e, Apply(s, e))
  {
    hide DacInv, ShadowStep;
    if FileEvent(e) {
      FileEventShadow(s, e);
    } else if AttrEvent(e) {
      AttrEventShadow(s, e);
    } else if ProcEvent(e) {
      ProcEventShadow(s, e);
    } else {
      AdminEventShadow(s, e, Apply(s, e));
    }
  }
}
