/** INITIALISATION establishes, and every event of the machine keeps, the declared invariants; and,
    arbitrary transitions aside, the strengthened ones. */
module DacSafety {
  import opened Context
  import opened DacState
  import opened DacEvents
  import opened TreeInvariants
  import opened TableInvariants
  import opened ProcessTree

  /** The undeclared invariants that the run properties rest on. */
  ghost predicate Strength(s: Dac)
    requires DacInv(s)
  {
    && UniqueNames(s.tree) && Rooted(s.tree)
    && OneModeEach(s.descs) && DistinctNumbers(s.descs)
    && Forest(s.procs)
  }

  ghost predicate StrongInv(s: Dac) {
    DacInv(s) && Strength(s)
  }

  ghost predicate Kept(s: Dac, s': Dac)
    requires DacInv(s)
  {
    DacInv(s') && (Strength(s) ==> Strength(s'))
  }

  lemma InitialTree()
    ensures StrongTree(Initial().tree)
  {
    var t := Initial().tree;
    assert Entry(INIT_EXE, ROOT, INIT_NAME) in t.entries;
    assert HasName(t, INIT_EXE);
    assert |t.files| == 2;
    assert TreeTypes(t);
  }

  lemma InitialAttrs()
    ensures AttrInv(Initial().attrs, {ROOT, INIT_EXE}, Initial().accts)
  {
    var a := Initial().attrs;
    assert a.meta.Keys == {ROOT, INIT_EXE};
  }

  lemma InitialProcs()
    ensures ProcInv(Initial().procs, Initial().accts, Initial().tree) && Forest(Initial().procs)
    ensures StrongDescs(Initial().descs, Initial().procs.table.Keys, {ROOT})
  {
    var s := Initial();
    assert HeldBy(s.descs, INIT) == {} && HeldFDs(s.descs) == {};
    assert IsChain(s.procs, [INIT]);
  }

  lemma InitialIsStrong()
    ensures StrongInv(Initial())
  {
    InitialTree();
    InitialAttrs();
    InitialProcs();
    Assemble(Initial());
  }

  lemma Assemble(s: Dac)
    requires StrongTree(s.tree) && AttrInv(s.attrs, s.tree.files, s.accts) && AccountTypes(s.accts)
    requires ProcInv(s.procs, s.accts, s.tree) && Forest(s.procs)
    requires StrongDescs(s.descs, s.procs.table.Keys, s.tree.folders)
    ensures StrongInv(s)
  {
  }

  /** The tree may change so that no process runs a folder or works in a file. */
  lemma ProcFilesFrame(p: Procs, t: Tree, t': Tree)
    requires ProcFiles(p, t)
    requires forall q :: q in p.table ==> p.table[q].exe !in t'.folders - t.folders
    requires t.folders * t'.files <= t'.folders
    requires forall q :: q in p.table && p.table[q].cwd in t'.files - t.files ==> p.table[q].cwd in t'.folders
    ensures ProcFiles(p, t')
  {
  }

  /** Replacing the tree and the attributes together. */
  lemma TreeAndAttrsKeep(s: Dac, t: Tree, a: Attrs)
    requires DacInv(s) && TreeInv(t) && KeepsStrength(s.tree, t) && AttrInv(a, t.files, s.accts)
    requires FolderDescs(s.descs, t.folders) && ProcFiles(s.procs, t)
    ensures Kept(s, s.(tree := t, attrs := a))
  {
  }

  // ---------- Files ----------

  lemma CreateKeeps(s: Dac, proc: Proc, parent: File, file: File, name: string, flags: set<OpenFlag>,
                    fd: FD, fdNumber: nat, group: Group, perms: set<Permission>)
    requires DacInv(s) && proc in s.procs.table.Keys && parent in s.tree.folders
    requires FreshFile(s, file) && NameFree(s.tree, parent, name) && |s.tree.files| < MAX_FILES
    requires FreshDescriptor(s, proc, fd, fdNumber) && CreateFlags(flags) && group in s.accts.groups
    ensures Kept(s, CreateEffect(s, proc, parent, file, name, flags, fd, fdNumber, group, perms))
  {
    var s' := CreateEffect(s, proc, parent, file, name, flags, fd, fdNumber, group, perms);
    AddFileKeeps(s.tree, file, parent, name);
    NewAttrsKeeps(s.attrs, s.tree.files, s.accts, file, s.procs.table[proc].user, group, perms);
    OpenDescKeeps(s.descs, s.procs.table.Keys, s.tree.folders, proc, fd, fdNumber, flags, file);
    ProcFilesFrame(s.procs, s.tree, s'.tree);
  }

  lemma OpenKeeps(s: Dac, proc: Proc, file: File, flags: set<OpenFlag>, fd: FD, fdNumber: nat)
    requires DacInv(s) && proc in s.procs.table.Keys
    requires FreshDescriptor(s, proc, fd, fdNumber) && ExistsFlags(s.tree, file, flags)
    ensures Kept(s, s.(descs := OpenDesc(s.descs, proc, fd, fdNumber, flags, file)))
  {
    OpenDescKeeps(s.descs, s.procs.table.Keys, s.tree.folders, proc, fd, fdNumber, flags, file);
  }

  lemma MkdirKeeps(s: Dac, user: User, parent: File, folder: File, name: string, group: Group,
                   perms: set<Permission>)
    requires DacInv(s) && user in s.accts.users && parent in s.tree.folders && group in s.accts.groups
    requires folder !in s.tree.files && folder !in s.descs.Files() && NameFree(s.tree, parent, name)
    requires |s.tree.files| < MAX_FILES && forall p :: p in s.procs.table.Keys ==> s.procs.table[p].exe != folder
    ensures Kept(s, s.(tree := AddFolder(s.tree, folder, parent, name),
                       attrs := NewAttrs(s.attrs, folder, user, group, perms)))
  {
    var t' := AddFolder(s.tree, folder, parent, name);
    AddFolderKeeps(s.tree, folder, parent, name);
    NewAttrsKeeps(s.attrs, s.tree.files, s.accts, folder, user, group, perms);
    FolderDescsFrame(s.descs, s.procs.table.Keys, s.tree.folders, t'.folders);
    ProcFilesFrame(s.procs, s.tree, t');
    TreeAndAttrsKeep(s, t', NewAttrs(s.attrs, folder, user, group, perms));
  }

  lemma LinkKeeps(s: Dac, file: File, parent: File, name: string)
    requires DacInv(s) && parent in s.tree.folders && file in s.tree.files - s.tree.folders
    requires NameFree(s.tree, parent, name)
    ensures Kept(s, s.(tree := AddName(s.tree, file, parent, name)))
  {
    AddNameKeeps(s.tree, file, parent, name);
  }

  lemma SymlinkKeeps(s: Dac, user: User, group: Group, parent: File, file: File, name: string,
                     target: (File, string))
    requires DacInv(s) && user in s.accts.users && group in s.accts.groups && parent in s.tree.folders
    requires FreshFile(s, file) && NameFree(s.tree, parent, name) && |s.tree.files| < MAX_FILES
    ensures Kept(s, s.(tree := AddSymLink(s.tree, file, parent, name, target),
                       attrs := NewAttrs(s.attrs, file, user, group, DEF_SYMLINK_PERMS)))
  {
    AddSymLinkKeeps(s.tree, file, parent, name, target);
    NewAttrsKeeps(s.attrs, s.tree.files, s.accts, file, user, group, DEF_SYMLINK_PERMS);
    ProcFilesFrame(s.procs, s.tree, AddSymLink(s.tree, file, parent, name, target));
  }

  lemma UnlinkKeeps(s: Dac, file: File, parent: File, name: string, files: set<File>)
    requires DacInv(s) && file in s.tree.files - s.tree.folders && Entry(file, parent, name) in s.tree.entries
    requires files == if OtherNames(s.tree, file, parent, name) then {} else {file}
    ensures Kept(s, s.(tree := RemoveName(s.tree, file, parent, name, files),
                       attrs := RemoveAttrs(s.attrs, files, s.accts.users, s.accts.groups)))
  {
    RemoveNameKeeps(s.tree, file, parent, name, files);
    RemoveAttrsKeeps(s.attrs, s.tree.files, s.accts, files);
    ProcFilesFrame(s.procs, s.tree, RemoveName(s.tree, file, parent, name, files));
  }

  lemma RmdirKeeps(s: Dac, folder: File, parent: File, name: string)
    requires DacInv(s) && folder in s.tree.folders && folder != ROOT
    requires Entry(folder, parent, name) in s.tree.entries
    requires forall n :: n in s.tree.entries ==> n.parent != folder
    ensures Kept(s, s.(tree := RemoveFolder(s.tree, folder, parent, name),
                       attrs := RemoveAttrs(s.attrs, {folder}, s.accts.users, s.accts.groups)))
  {
    var t' := RemoveFolder(s.tree, folder, parent, name);
    RemoveFolderKeeps(s.tree, folder, parent, name);
    RemoveAttrsKeeps(s.attrs, s.tree.files, s.accts, {folder});
    FolderDescsFrame(s.descs, s.procs.table.Keys, s.tree.folders, t'.folders);
    ProcFilesFrame(s.procs, s.tree, t');
    TreeAndAttrsKeep(s, t', RemoveAttrs(s.attrs, {folder}, s.accts.users, s.accts.groups));
  }

  lemma FileEventKeeps(s: Dac, e: Event)
    requires DacInv(s) && FileEvent(e) && FileGuard(s, e)
    ensures Kept(s, ApplyFile(s, e))
  {
    match e
    case OpenCreate(proc, parent, file, name, flags, _, fd, fdNumber, group, perms) =>
      CreateKeeps(s, proc, parent, file, name, flags, fd, fdNumber, group, perms);
    case OpenExists(proc, _, file, _, flags, fd, fdNumber) => OpenKeeps(s, proc, file, flags, fd, fdNumber);
    case OpenatCreate(proc, _, parent, file, name, flags, _, fd, fdNumber, _, group, perms) =>
      CreateKeeps(s, proc, parent, file, name, flags, fd, fdNumber, group, perms);
    case OpenatExists(proc, _, _, file, _, flags, fd, fdNumber, _) => OpenKeeps(s, proc, file, flags, fd, fdNumber);
    case Mkdir(proc, parent, folder, name, _, group, perms) =>
      MkdirKeeps(s, s.procs.table[proc].user, parent, folder, name, group, perms);
    case Link(_, _, newParent, file, _, newName) => LinkKeeps(s, file, newParent, newName);
    case Symlink(proc, targetParent, targetName, parent, file, name) =>
      SymlinkKeeps(s, s.procs.table[proc].user, s.procs.table[proc].group, parent, file, name, (targetParent, targetName));
    case Unlink(_, parent, file, name, files) => UnlinkKeeps(s, file, parent, name, files);
    case Rmdir(_, parent, folder, name) => RmdirKeeps(s, folder, parent, name);
  }

  // ---------- Attributes ----------

  lemma AttrTableKeeps(s: Dac, a: Attrs)
    requires DacInv(s) && AttrInv(a, s.tree.files, s.accts)
    ensures Kept(s, s.(attrs := a))
  {
  }

  lemma ChownBits(perms: set<Permission>)
    ensures (perms - {SET_UID}) * GROUP_PERMISSIONS == perms * GROUP_PERMISSIONS
    ensures (perms - {SET_UID, SET_GID}) * GROUP_PERMISSIONS == perms * GROUP_PERMISSIONS
  {
  }

  lemma ChmodKeeps(s: Dac, proc: Proc, file: File, mode: set<Permission>, perms: set<Permission>)
    requires DacInv(s) && proc in s.procs.table.Keys && file in s.tree.files && ChmodRights(s, proc, file, mode, perms)
    ensures Kept(s, s.(attrs := ChmodAttrs(s.attrs, file, mode, perms)))
  {
    ChmodAttrsKeeps(s.attrs, s.tree.files, s.accts, file, mode, perms);
    AttrTableKeeps(s, ChmodAttrs(s.attrs, file, mode, perms));
  }

  lemma ChownKeeps(s: Dac, proc: Proc, file: File, owner: User, group: Group, perms: set<Permission>)
    requires DacInv(s) && proc in s.procs.table.Keys && file in s.tree.files
    requires ChownRights(s, proc, file, owner, group, perms)
    ensures Kept(s, s.(attrs := ChownAttrs(s.attrs, file, owner, group, perms)))
  {
    ChownBits(s.attrs.meta[file].perms);
    ChownAttrsKeeps(s.attrs, s.tree.files, s.accts, file, owner, group, perms);
    AttrTableKeeps(s, ChownAttrs(s.attrs, file, owner, group, perms));
  }

  lemma SetxattrKeeps(s: Dac, file: File, name: string, value: Bytes)
    requires DacInv(s) && file in s.tree.files
    ensures Kept(s, s.(attrs := SetXattr(s.attrs, file, name, value)))
  {
    SetXattrInv(s.attrs, s.tree.files, s.accts, file, name, value);
    AttrTableKeeps(s, SetXattr(s.attrs, file, name, value));
  }

  lemma AttrEventKeeps(s: Dac, e: Event)
    requires DacInv(s) && AttrEvent(e) && AttrGuard(s, e)
    ensures Kept(s, ApplyAttr(s, e))
  {
    match e
    case Chmod(proc, _, file, _, mode, perms) => ChmodKeeps(s, proc, file, mode, perms);
    case Fchmod(proc, fd, mode, perms) => ChmodKeeps(s, proc, s.descs.open[fd].file, mode, perms);
    case Fchmodat(proc, _, _, _, file, _, mode, perms) => ChmodKeeps(s, proc, file, mode, perms);
    case Chown(proc, _, file, _, owner, group, perms) => ChownKeeps(s, proc, file, owner, group, perms);
    case Fchown(proc, fd, owner, group, perms) => ChownKeeps(s, proc, s.descs.open[fd].file, owner, group, perms);
    case Fchownat(proc, _, _, _, file, _, owner, group, perms) => ChownKeeps(s, proc, file, owner, group, perms);
    case Setxattr(_, _, file, _, name, value, _, _) => SetxattrKeeps(s, file, name, value);
    case SetAcl(_, _, _, _, _) => AttrTableKeeps(s, AttrsWithAcl(s.attrs, e));
  }

  // ---------- Processes ----------

  /** Replacing the process table and the descriptors together. */
  lemma ProcsAndDescsKeep(s: Dac, p: Procs, d: Descs)
    requires DacInv(s) && ProcInv(p, s.accts, s.tree) && DescInv(d, p.table.Keys, s.tree.folders)
    requires Forest(s.procs) ==> Forest(p)
    requires KeepsDescStrength(s.descs, d, s.procs.table.Keys, p.table.Keys)
    ensures Kept(s, s.(procs := p, descs := d))
  {
  }

  lemma SameParentsSameForest(p: Procs, p': Procs)
    requires Forest(p) && p'.table.Keys == p.table.Keys && p'.parent == p.parent
    ensures Forest(p')
  {
    forall q | q in p'.table
      ensures ReachesInit(p', q)
    {
      assert ReachesInit(p, q);
      var c :| IsChain(p, c) && c[0] == q;
      assert IsChain(p', c);
    }
  }

  lemma ProcTableKeeps(s: Dac, p: Procs)
    requires DacInv(s) && ProcInv(p, s.accts, s.tree) && p.table.Keys == s.procs.table.Keys && p.parent == s.procs.parent
    ensures Kept(s, s.(procs := p))
  {
    if Forest(s.procs) {
      SameParentsSameForest(s.procs, p);
    }
    ProcsAndDescsKeep(s, p, s.descs);
  }

  lemma ExecProcInv(p: Procs, c: Accounts, t: Tree, a: Attrs, e: Event)
    requires ProcInv(p, c, t) && e.Execve? && e.proc in p.table && e.exeFile in t.files - t.folders
    requires e.exeFile in a.meta
    requires a.meta[e.exeFile].user in c.users && a.meta[e.exeFile].group in c.groups
    ensures ProcInv(ExecProc(p, a, e), c, t)
  {
  }

  lemma ExecKeepsForest(p: Procs, a: Attrs, e: Event)
    requires e.Execve? && e.proc in p.table && e.exeFile in a.meta
    ensures Forest(p) ==> Forest(ExecProc(p, a, e))
  {
    if Forest(p) {
      SameParentsSameForest(p, ExecProc(p, a, e));
    }
  }

  lemma ExecveKeeps(s: Dac, e: Event)
    requires DacInv(s) && e.Execve? && e.proc in s.procs.table.Keys && e.exeFile in s.tree.files - s.tree.folders
    ensures Kept(s, s.(procs := ExecProc(s.procs, s.attrs, e), descs := DropDescs(s.descs, e.fds)))
  {
    DropDescsKeeps(s.descs, s.procs.table.Keys, s.tree.folders, e.fds);
    ExecProcInv(s.procs, s.accts, s.tree, s.attrs, e);
    ExecKeepsForest(s.procs, s.attrs, e);
    ProcsAndDescsKeep(s, ExecProc(s.procs, s.attrs, e), DropDescs(s.descs, e.fds));
  }

  lemma ExitProcInv(p: Procs, c: Accounts, t: Tree, proc: Proc)
    requires ProcInv(p, c, t) && proc in p.table && proc != INIT
    ensures ProcInv(ExitProc(p, proc), c, t)
  {
  }

  lemma ExitKeeps(s: Dac, proc: Proc, fds: set<FD>)
    requires DacInv(s) && proc in s.procs.table.Keys && proc != INIT
    requires forall h :: h in s.descs.procFDs && h.fd in fds ==> h.proc == proc
    ensures Kept(s, s.(procs := ExitProc(s.procs, proc), descs := ExitDescs(s.descs, proc, fds)))
  {
    ExitDescsKeeps(s.descs, s.procs.table.Keys, s.tree.folders, proc, fds);
    ExitProcInv(s.procs, s.accts, s.tree, proc);
    if Forest(s.procs) {
      ExitKeepsForest(s.procs, s.accts.users, s.accts.groups, proc);
    }
    ProcsAndDescsKeep(s, ExitProc(s.procs, proc), ExitDescs(s.descs, proc, fds));
  }

  lemma ForkProcInv(p: Procs, c: Accounts, t: Tree, proc: Proc, newProc: Proc)
    requires ProcInv(p, c, t) && proc in p.table && newProc !in p.table
    ensures ProcInv(ForkProc(p, proc, newProc), c, t)
  {
  }

  lemma ForkKeeps(s: Dac, proc: Proc, newProc: Proc)
    requires DacInv(s) && proc in s.procs.table.Keys && newProc !in s.procs.table.Keys
    ensures Kept(s, s.(procs := ForkProc(s.procs, proc, newProc), descs := ForkDescs(s.descs, proc, newProc)))
  {
    ForkDescsKeeps(s.descs, s.procs.table.Keys, s.tree.folders, proc, newProc);
    ForkProcInv(s.procs, s.accts, s.tree, proc, newProc);
    if Forest(s.procs) {
      ForkKeepsForest(s.procs, s.accts.users, s.accts.groups, proc, newProc);
    }
    ProcsAndDescsKeep(s, ForkProc(s.procs, proc, newProc), ForkDescs(s.descs, proc, newProc));
  }

  lemma LoginProcInv(p: Procs, c: Accounts, t: Tree, e: Event)
    requires ProcInv(p, c, t) && e.Login? && e.proc !in p.table && e.umask !! FILE_MODES && ROOT in t.folders
    requires e.user in c.users && e.group in c.groups && e.exeFile in t.files - t.folders
    ensures ProcInv(LoginProc(p, e), c, t)
  {
  }

  lemma MoreProcs(d: Descs, procs: set<Proc>, folders: set<File>, proc: Proc)
    requires DescInv(d, procs, folders) && proc !in procs
    ensures DescInv(d, procs + {proc}, folders)
  {
  }

  lemma LoginKeeps(s: Dac, e: Event)
    requires DacInv(s) && e.Login? && e.proc !in s.procs.table.Keys && e.umask !! FILE_MODES
    requires e.user in s.accts.users && e.group in s.accts.groups && e.exeFile in s.tree.files - s.tree.folders
    ensures Kept(s, s.(procs := LoginProc(s.procs, e)))
  {
    MoreProcs(s.descs, s.procs.table.Keys, s.tree.folders, e.proc);
    LoginProcInv(s.procs, s.accts, s.tree, e);
    if Forest(s.procs) {
      LoginKeepsForest(s.procs, s.accts.users, s.accts.groups, e);
    }
    ProcsAndDescsKeep(s, LoginProc(s.procs, e), s.descs);
  }

  lemma SetCwdInv(p: Procs, c: Accounts, t: Tree, proc: Proc, dir: File)
    requires ProcInv(p, c, t) && proc in p.table && dir in t.folders
    ensures ProcInv(SetCwd(p, proc, dir), c, t)
  {
  }

  lemma SetUmaskInv(p: Procs, c: Accounts, t: Tree, proc: Proc, mask: set<Permission>)
    requires ProcInv(p, c, t) && proc in p.table && mask !! FILE_MODES
    ensures ProcInv(SetUmask(p, proc, mask), c, t)
  {
  }

  lemma CwdKeeps(s: Dac, proc: Proc, dir: File)
    requires DacInv(s) && proc in s.procs.table.Keys && dir in s.tree.folders
    ensures Kept(s, s.(procs := SetCwd(s.procs, proc, dir)))
  {
    SetCwdInv(s.procs, s.accts, s.tree, proc, dir);
    ProcTableKeeps(s, SetCwd(s.procs, proc, dir));
  }

  lemma UmaskKeeps(s: Dac, proc: Proc, mask: set<Permission>)
    requires DacInv(s) && proc in s.procs.table.Keys && mask !! FILE_MODES
    ensures Kept(s, s.(procs := SetUmask(s.procs, proc, mask)))
  {
    SetUmaskInv(s.procs, s.accts, s.tree, proc, mask);
    ProcTableKeeps(s, SetUmask(s.procs, proc, mask));
  }

  lemma CloseKeeps(s: Dac, fds: set<FD>)
    requires DacInv(s)
    ensures Kept(s, s.(descs := DropDescs(s.descs, fds)))
  {
    DropDescsKeeps(s.descs, s.procs.table.Keys, s.tree.folders, fds);
    ProcsAndDescsKeep(s, s.procs, DropDescs(s.descs, fds));
  }

  lemma ProcEventKeeps(s: Dac, e: Event)
    requires DacInv(s) && ProcEvent(e) && ProcGuard(s, e)
    ensures Kept(s, ApplyProc(s, e))
  {
    match e
    case Chdir(proc, dir) => CwdKeeps(s, proc, dir);
    case Fchdir(proc, fd) => CwdKeeps(s, proc, s.descs.open[fd].file);
    case Getdents(_, _) =>
    case Getxattr(_, _, _, _, _, _, _) =>
    case Execve(_, _, _, _, _, _, _) => ExecveKeeps(s, e);
    case Umask(proc, mask) => UmaskKeeps(s, proc, mask);
    case Exit(proc, fds) => ExitKeeps(s, proc, fds);
    case Close(_, _, fds) => CloseKeeps(s, fds);
    case Fork(proc, newProc) => ForkKeeps(s, proc, newProc);
    case Login(_, _, _, _, _, _, _) => LoginKeeps(s, e);
  }

  // ---------- Accounts ----------

  lemma AccountsKeep(s: Dac, c: Accounts)
    requires DacInv(s) && AccountTypes(c) && s.accts.users <= c.users && s.accts.groups <= c.groups
    ensures Kept(s, s.(accts := c))
  {
    MoreAccounts(s.attrs, s.tree.files, s.accts, c);
    assert ProcInv(s.procs, c, s.tree);
  }

  lemma MoreAccounts(a: Attrs, files: set<File>, c: Accounts, c': Accounts)
    requires AttrTypes(a, files, c.users, c.groups) && c.users <= c'.users && c.groups <= c'.groups
    ensures AttrTypes(a, files, c'.users, c'.groups)
  {
  }

  lemma NewAccountsFit(s: Dac, e: Event)
    requires DacInv(s) && AdminEvent(e) && !e.AnyTransition? && AdminGuard(s, e)
    ensures
      var c := ApplyAdmin(s, e).accts;
      && AccountTypes(c) && s.accts.users <= c.users && s.accts.groups <= c.groups
      && ApplyAdmin(s, e) == s.(accts := c)
  {
  }

  lemma AdminEventKeeps(s: Dac, e: Event)
    requires DacInv(s) && AdminEvent(e) && AdminGuard(s, e)
    ensures DacInv(ApplyAdmin(s, e))
    ensures !e.AnyTransition? ==> Kept(s, ApplyAdmin(s, e))
  {
    if !e.AnyTransition? {
      NewAccountsFit(s, e);
      AccountsKeep(s, ApplyAdmin(s, e).accts);
    }
  }

  // ---------- The theorems ----------

  /** Every event keeps the declared invariants, an arbitrary transition included. */
  lemma EveryEventKeepsInvariants(s: Dac, e: Event)
    requires DacInv(s) && Guard(s, e)
    ensures DacInv(Apply(s, e))
  {
    hide DacInv;
    if FileEvent(e) {
      FileEventKeeps(s, e);
    } else if AttrEvent(e) {
      AttrEventKeeps(s, e);
    } else if ProcEvent(e) {
      ProcEventKeeps(s, e);
    } else {
      AdminEventKeeps(s, e);
    }
  }

  /** Every other event keeps the strengthened invariants too. */
  lemma EveryEventKeepsStrength(s: Dac, e: Event)
    requires StrongInv(s) && Guard(s, e) && !e.AnyTransition?
    ensures StrongInv(Apply(s, e))
  {
    if FileEvent(e) {
      FileEventKeeps(s, e);
    } else if AttrEvent(e) {
      AttrEventKeeps(s, e);
    } else if ProcEvent(e) {
      ProcEventKeeps(s, e);
    } else {
      AdminEventKeeps(s, e);
    }
  }
}
