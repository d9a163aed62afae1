/** What the events keep in the attribute, descriptor and account tables. */
module TableInvariants {
  import opened Context
  import opened DacState
  import opened DacEvents

  // ---------- Attributes ----------

  ghost predicate AttrInv(a: Attrs, files: set<File>, c: Accounts) {
    AttrTypes(a, files, c.users, c.groups) && AclInv(a)
  }

  lemma NewAttrsAcl(a: Attrs, file: File, user: User, group: Group, perms: set<Permission>)
    requires AclInv(a) && file !in a.meta
    ensures AclInv(NewAttrs(a, file, user, group, perms))
  {
  }

  lemma NewAttrsTypes(a: Attrs, files: set<File>, c: Accounts, file: File, user: User, group: Group,
                      perms: set<Permission>)
    requires AttrTypes(a, files, c.users, c.groups) && user in c.users && group in c.groups
    ensures AttrTypes(NewAttrs(a, file, user, group, perms), files + {file}, c.users, c.groups)
  {
  }

  lemma NewAttrsKeeps(a: Attrs, files: set<File>, c: Accounts, file: File, user: User, group: Group,
                      perms: set<Permission>)
    requires AttrInv(a, files, c) && file !in files && user in c.users && group in c.groups
    ensures AttrInv(NewAttrs(a, file, user, group, perms), files + {file}, c)
  {
    NewAttrsAcl(a, file, user, group, perms);
    NewAttrsTypes(a, files, c, file, user, group, perms);
  }

  /** chmod writes the group bits to the mask if there is one, to the owning group otherwise. */
  lemma ChmodAttrsAcl(a: Attrs, file: File, mode: set<Permission>, perms: set<Permission>)
    requires AclInv(a) && file in a.meta && mode * GROUP_PERMISSIONS == perms * GROUP_PERMISSIONS
    ensures AclInv(ChmodAttrs(a, file, mode, perms))
  {
  }

  lemma ChmodAttrsTypes(a: Attrs, files: set<File>, c: Accounts, file: File, mode: set<Permission>,
                        perms: set<Permission>)
    requires AttrTypes(a, files, c.users, c.groups) && file in files
    ensures AttrTypes(ChmodAttrs(a, file, mode, perms), files, c.users, c.groups)
  {
  }

  lemma ChmodAttrsKeeps(a: Attrs, files: set<File>, c: Accounts, file: File, mode: set<Permission>,
                        perms: set<Permission>)
    requires AttrInv(a, files, c) && file in files && (perms == mode || perms == mode - {SET_GID})
    ensures AttrInv(ChmodAttrs(a, file, mode, perms), files, c)
  {
    assert mode * GROUP_PERMISSIONS == perms * GROUP_PERMISSIONS;
    ChmodAttrsAcl(a, file, mode, perms);
    ChmodAttrsTypes(a, files, c, file, mode, perms);
  }

  lemma ChownAttrsKeeps(a: Attrs, files: set<File>, c: Accounts, file: File, owner: User, group: Group,
                        perms: set<Permission>)
    requires AttrInv(a, files, c) && file in files && owner in c.users && group in c.groups
    requires perms * GROUP_PERMISSIONS == a.meta[file].perms * GROUP_PERMISSIONS
    ensures AttrInv(ChownAttrs(a, file, owner, group, perms), files, c)
  {
    assert AttrTypes(ChownAttrs(a, file, owner, group, perms), files, c.users, c.groups);
    assert AclInv(ChownAttrs(a, file, owner, group, perms));
  }

  lemma SetXattrInv(a: Attrs, files: set<File>, c: Accounts, file: File, name: string, value: Bytes)
    requires AttrInv(a, files, c) && file in files
    ensures AttrInv(SetXattr(a, file, name, value), files, c)
  {
  }

  lemma RemoveAttrsKeeps(a: Attrs, files: set<File>, c: Accounts, gone: set<File>)
    requires AttrInv(a, files, c)
    ensures AttrInv(RemoveAttrs(a, gone, c.users, c.groups), files - gone, c)
  {
    assert AttrTypes(RemoveAttrs(a, gone, c.users, c.groups), files - gone, c.users, c.groups);
    assert AclInv(RemoveAttrs(a, gone, c.users, c.groups));
  }

  // ---------- Descriptors ----------

  /** Every open descriptor has exactly one access mode: not declared, kept by every event. */
  ghost predicate OneModeEach(d: Descs) {
    forall fd :: fd in d.open ==> OneAccessMode(d.open[fd].flags)
  }

  /** The descriptor numbers of one process are pairwise distinct. */
  ghost predicate DistinctNumbers(d: Descs)
    requires forall h :: h in d.procFDs ==> h.fd in d.open
  {
    forall h1, h2 ::
      (h1 in d.procFDs && h2 in d.procFDs && h1.proc == h2.proc && d.open[h1.fd].number == d.open[h2.fd].number)
      ==> h1.fd == h2.fd
  }

  ghost predicate StrongDescs(d: Descs, procs: set<Proc>, folders: set<File>) {
    DescInv(d, procs, folders) && OneModeEach(d) && DistinctNumbers(d)
  }

  ghost predicate KeepsDescStrength(d: Descs, d': Descs, procs: set<Proc>, procs': set<Proc>)
    requires DescTypes(d, procs) && DescTypes(d', procs')
  {
    && (OneModeEach(d) ==> OneModeEach(d'))
    && (DistinctNumbers(d) ==> DistinctNumbers(d'))
  }

  /** Holding fewer descriptors keeps the limits. */
  lemma FewerHeld(d: Descs, d': Descs, procs: set<Proc>, procs': set<Proc>)
    requires DescLimits(d, procs) && procs' <= procs && d'.procFDs <= d.procFDs
    ensures DescLimits(d', procs')
  {
    forall p | p in procs'
      ensures |HeldBy(d', p)| <= PROC_FILE_LIMIT
    {
      SubsetCard(HeldBy(d', p), HeldBy(d, p));
    }
    SubsetCard(HeldFDs(d'), HeldFDs(d));
  }

  lemma OpenDescLimits(d: Descs, procs: set<Proc>, proc: Proc, fd: FD, fdNumber: nat, flags: set<OpenFlag>,
                       file: File)
    requires DescLimits(d, procs) && |HeldBy(d, proc)| < PROC_FILE_LIMIT && |HeldFDs(d)| < FILE_LIMIT
    ensures DescLimits(OpenDesc(d, proc, fd, fdNumber, flags, file), procs)
  {
    var d' := OpenDesc(d, proc, fd, fdNumber, flags, file);
    assert Held(proc, fd) in d'.procFDs;
    forall p | p in procs
      ensures |HeldBy(d', p)| <= PROC_FILE_LIMIT
    {
      if p == proc {
        assert HeldBy(d', p) == HeldBy(d, p) + {fd};
      } else {
        assert HeldBy(d', p) == HeldBy(d, p);
      }
    }
    assert HeldFDs(d') == HeldFDs(d) + {fd};
  }

  /** open*: a fresh descriptor on a file that may carry these flags. */
  lemma OpenDescKeeps(d: Descs, procs: set<Proc>, folders: set<File>, proc: Proc, fd: FD, fdNumber: nat,
                      flags: set<OpenFlag>, file: File)
    requires DescInv(d, procs, folders) && proc in procs && fd !in d.open
    requires |HeldBy(d, proc)| < PROC_FILE_LIMIT && |HeldFDs(d)| < FILE_LIMIT
    requires OneAccessMode(flags)
    requires file in folders && O_PATH !in flags ==> !WriteCapable(flags)
    requires forall h :: h in d.procFDs && h.proc == proc ==> d.open[h.fd].number != fdNumber
    ensures
      var d' := OpenDesc(d, proc, fd, fdNumber, flags, file);
      DescInv(d', procs, folders) && KeepsDescStrength(d, d', procs, procs)
  {
    OpenDescLimits(d, procs, proc, fd, fdNumber, flags, file);
  }

  /** close, execve. */
  lemma DropDescsKeeps(d: Descs, procs: set<Proc>, folders: set<File>, fds: set<FD>)
    requires DescInv(d, procs, folders)
    ensures
      var d' := DropDescs(d, fds);
      DescInv(d', procs, folders) && KeepsDescStrength(d, d', procs, procs)
  {
    FewerHeld(d, DropDescs(d, fds), procs, procs);
  }

  /** exit: the process lets go of all its descriptors; only `fds` are closed. */
  lemma ExitDescsKeeps(d: Descs, procs: set<Proc>, folders: set<File>, proc: Proc, fds: set<FD>)
    requires DescInv(d, procs, folders)
    requires forall h :: h in d.procFDs && h.fd in fds ==> h.proc == proc
    ensures
      var d' := ExitDescs(d, proc, fds);
      DescInv(d', procs - {proc}, folders) && KeepsDescStrength(d, d', procs, procs - {proc})
  {
    FewerHeld(d, ExitDescs(d, proc, fds), procs, procs - {proc});
  }

  lemma ForkDescsHeld(d: Descs, procs: set<Proc>, proc: Proc, newProc: Proc)
    requires DescTypes(d, procs) && proc in procs && newProc !in procs
    ensures forall p :: p in procs ==> HeldBy(ForkDescs(d, proc, newProc), p) == HeldBy(d, p)
    ensures HeldBy(ForkDescs(d, proc, newProc), newProc) == HeldBy(d, proc)
    ensures HeldFDs(ForkDescs(d, proc, newProc)) == HeldFDs(d)
  {
  }

  /** fork: the new process shares the descriptors, and so their numbers. */
  lemma ForkDescsKeeps(d: Descs, procs: set<Proc>, folders: set<File>, proc: Proc, newProc: Proc)
    requires DescInv(d, procs, folders) && proc in procs && newProc !in procs
    ensures
      var d' := ForkDescs(d, proc, newProc);
      DescInv(d', procs + {newProc}, folders) && KeepsDescStrength(d, d', procs, procs + {newProc})
  {
    var d' := ForkDescs(d, proc, newProc);
    ForkDescsHeld(d, procs, proc, newProc);
    forall h | h in d'.procFDs
      ensures h in d.procFDs || (h.proc == newProc && Held(proc, h.fd) in d.procFDs)
    {
    }
    assert DescTypes(d', procs + {newProc});
  }

  /** A folder that no descriptor refers to may appear; folders may vanish. */
  lemma FolderDescsFrame(d: Descs, procs: set<Proc>, folders: set<File>, folders': set<File>)
    requires DescInv(d, procs, folders)
    requires forall f :: f in folders' ==> f in folders || f !in d.Files()
    ensures FolderDescs(d, folders')
  {
  }
}
