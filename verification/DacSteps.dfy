/** What one event of the machine, arbitrary transitions aside, does to the set of files, to the
    names, to the extended attributes and to the open descriptors. */
module DacSteps {
  import opened Context
  import opened DacState
  import opened DacEvents

  predicate Creates(e: Event) {
    e.OpenCreate? || e.OpenatCreate? || e.Symlink? || e.Mkdir?
  }

  function CreatedFile(e: Event): File
    requires Creates(e)
  {
    if e.Mkdir? then e.folder else e.file
  }

  predicate Opens(e: Event) {
    e.OpenCreate? || e.OpenExists? || e.OpenatCreate? || e.OpenatExists?
  }

  /** Files after an event. */
  function FilesAfter(t: Tree, e: Event): set<File> {
    if Creates(e) then t.files + {CreatedFile(e)}
    else if e.Unlink? then t.files - e.files
    else if e.Rmdir? then t.files - {e.folder}
    else t.files
  }

  /** FileParents after an event. */
  function EntriesAfter(t: Tree, e: Event): set<Entry> {
    if Creates(e) then t.entries + {Entry(CreatedFile(e), e.parent, e.name)}
    else if e.Link? then t.entries + {Entry(e.file, e.newParent, e.newName)}
    else if e.Unlink? then t.entries - {Entry(e.file, e.parent, e.name)}
    else if e.Rmdir? then t.entries - {Entry(e.folder, e.parent, e.name)}
    else t.entries
  }

  ghost predicate FilesStep(s: Dac, e: Event, s': Dac) {
    && s'.tree.files == FilesAfter(s.tree, e)
    && s'.tree.entries == EntriesAfter(s.tree, e)
    && (Creates(e) ==> CreatedFile(e) !in s.tree.files && CreatedFile(e) !in s.descs.Files())
    && (e.Unlink? ==> e.files <= {e.file})
  }

  /** Only setxattr changes the extended attributes of an existing file, and only of its target. */
  ghost predicate XattrsStep(s: Dac, e: Event, s': Dac) {
    forall f ::
      (f in s.attrs.meta && f in s'.attrs.meta && !(e.Setxattr? && e.file == f) && !(Creates(e) && f == CreatedFile(e)))
      ==> s'.attrs.meta[f].xattrs == s.attrs.meta[f].xattrs
  }

  /** Descriptors are opened fresh or closed; an open one keeps its file, flags and number. */
  ghost predicate DescsStep(s: Dac, e: Event, s': Dac) {
    forall fd :: fd in s'.descs.open ==>
      || (fd in s.descs.open && s'.descs.open[fd] == s.descs.open[fd])
      || (Opens(e) && fd == e.fd && fd !in s.descs.open
          && s'.descs.open[fd] == OpenFile(e.flags, e.file, e.fdNumber))
  }

  ghost predicate DacStep(s: Dac, e: Event, s': Dac) {
    FilesStep(s, e, s') && XattrsStep(s, e, s') && DescsStep(s, e, s')
  }

  lemma AddStep(s: Dac, e: Event, t: Tree, a: Attrs, d: Descs, m: Meta)
    requires Creates(e) && CreatedFile(e) !in s.tree.files && CreatedFile(e) !in s.descs.Files()
    requires t.files == s.tree.files + {CreatedFile(e)}
    requires t.entries == s.tree.entries + {Entry(CreatedFile(e), e.parent, e.name)}
    requires a.meta == s.attrs.meta[CreatedFile(e) := m]
    requires d == s.descs || (Opens(e) && e.fd !in s.descs.open
                              && d == OpenDesc(s.descs, e.proc, e.fd, e.fdNumber, e.flags, e.file))
    ensures DacStep(s, e, s.(tree := t, attrs := a, descs := d))
  {
  }

  lemma OpenStep(s: Dac, e: Event)
    requires (e.OpenExists? || e.OpenatExists?) && e.fd !in s.descs.open
    ensures DacStep(s, e, s.(descs := OpenDesc(s.descs, e.proc, e.fd, e.fdNumber, e.flags, e.file)))
  {
  }

  lemma UnlinkStep(s: Dac, e: Event)
    requires e.Unlink? && e.files <= {e.file}
    ensures DacStep(s, e, s.(tree := RemoveName(s.tree, e.file, e.parent, e.name, e.files),
                             attrs := RemoveAttrs(s.attrs, e.files, s.accts.users, s.accts.groups)))
  {
  }

  lemma RmdirStep(s: Dac, e: Event)
    requires e.Rmdir?
    ensures DacStep(s, e, s.(tree := RemoveFolder(s.tree, e.folder, e.parent, e.name),
                             attrs := RemoveAttrs(s.attrs, {e.folder}, s.accts.users, s.accts.groups)))
  {
  }

  lemma CreateEventStep(s: Dac, e: Event)
    requires DacInv(s) && Creates(e) && FileGuard(s, e)
    ensures DacStep(s, e, ApplyFile(s, e))
  {
    var s' := ApplyFile(s, e);
    AddStep(s, e, s'.tree, s'.attrs, s'.descs, s'.attrs.meta[CreatedFile(e)]);
  }

  lemma LinkStep(s: Dac, e: Event)
    requires e.Link?
    ensures DacStep(s, e, s.(tree := AddName(s.tree, e.file, e.newParent, e.newName)))
  {
  }

  lemma FileEventStep(s: Dac, e: Event)
    requires DacInv(s) && FileEvent(e) && FileGuard(s, e)
    ensures DacStep(s, e, ApplyFile(s, e))
  {
    if Creates(e) {
      CreateEventStep(s, e);
    } else {
      match e
      case Unlink(_, _, _, _, _) => UnlinkStep(s, e);
      case Rmdir(_, _, _, _) => RmdirStep(s, e);
      case Link(_, _, _, _, _, _) => LinkStep(s, e);
      case OpenExists(_, _, _, _, _, _, _) => OpenStep(s, e);
      case OpenatExists(_, _, _, _, _, _, _, _, _) => OpenStep(s, e);
    }
  }

  /** chmod and chown rewrite the attributes of one file, but not its extended ones. */
  lemma AttrStep(s: Dac, e: Event, a: Attrs, file: File)
    requires AttrEvent(e) && file in s.attrs.meta && file in a.meta
    requires a.meta == s.attrs.meta[file := a.meta[file]]
    requires a.meta[file].xattrs == s.attrs.meta[file].xattrs || (e.Setxattr? && e.file == file)
    ensures DacStep(s, e, s.(attrs := a))
  {
  }

  lemma SetAclStep(s: Dac, e: Event)
    requires e.SetAcl? && e.dacPermissions.Keys == s.attrs.meta.Keys
    ensures DacStep(s, e, s.(attrs := AttrsWithAcl(s.attrs, e)))
  {
  }

  lemma AttrEventStep(s: Dac, e: Event)
    requires DacInv(s) && AttrEvent(e) && AttrGuard(s, e)
    ensures DacStep(s, e, ApplyAttr(s, e))
  {
    hide DacStep;
    var s' := ApplyAttr(s, e);
    if e.SetAcl? {
      SetAclStep(s, e);
    } else if e.Fchmod? || e.Fchown? {
      AttrStep(s, e, s'.attrs, s.descs.open[e.fd].file);
    } else {
      AttrStep(s, e, s'.attrs, e.file);
    }
  }

  lemma ProcStep(s: Dac, e: Event, p: Procs, d: Descs)
    requires ProcEvent(e) && forall fd :: fd in d.open ==> fd in s.descs.open && d.open[fd] == s.descs.open[fd]
    ensures DacStep(s, e, s.(procs := p, descs := d))
  {
  }

  lemma ProcEventStep(s: Dac, e: Event)
    requires DacInv(s) && ProcEvent(e) && ProcGuard(s, e)
    ensures DacStep(s, e, ApplyProc(s, e))
  {
    var s' := ApplyProc(s, e);
    ProcStep(s, e, s'.procs, s'.descs);
  }

  lemma AdminStep(s: Dac, e: Event, c: Accounts)
    requires AdminEvent(e)
    ensures DacStep(s, e, s.(accts := c))
  {
  }

  /** What every event but an arbitrary transition does, in these three respects. */
  lemma EveryEventSteps(s: Dac, e: Event)
    requires DacInv(s) && Guard(s, e) && !e.AnyTransition?
    ensures DacStep(s, e, Apply(s, e))
  {
    hide DacInv, DacStep;
    if FileEvent(e) {
      FileEventStep(s, e);
    } else if AttrEvent(e) {
      AttrEventStep(s, e);
    } else if ProcEvent(e) {
      ProcEventStep(s, e);
    } else {
      AdminStep(s, e, Apply(s, e).accts);
    }
  }
}
