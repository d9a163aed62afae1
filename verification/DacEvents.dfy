/** The events of the machine src/DAC.bm: for every event a guard and a parallel assignment.

    Parameters that the machine computes (perms, group, fds, files, ...) are parameters of the
    event, as in the source; the guards fix their values. */
module DacEvents {
  import opened Context
  import opened DacState
  import opened Access

  datatype Event =
    | OpenCreate(proc: Proc, parent: File, file: File, name: string, flags: set<OpenFlag>,
                 mode: set<Permission>, fd: FD, fdNumber: nat, group: Group, perms: set<Permission>)
    | OpenExists(proc: Proc, parent: File, file: File, name: string, flags: set<OpenFlag>, fd: FD, fdNumber: nat)
    | OpenatCreate(proc: Proc, dirfd: DirFD, parent: File, file: File, name: string, flags: set<OpenFlag>,
                   mode: set<Permission>, fd: FD, fdNumber: nat, cwd: File, group: Group, perms: set<Permission>)
    | OpenatExists(proc: Proc, dirfd: DirFD, parent: File, file: File, name: string, flags: set<OpenFlag>,
                   fd: FD, fdNumber: nat, cwd: File)
    | Mkdir(proc: Proc, parent: File, folder: File, name: string, mode: set<Permission>, group: Group,
            perms: set<Permission>)
    | Chmod(proc: Proc, parent: File, file: File, name: string, mode: set<Permission>, perms: set<Permission>)
    | Fchmod(proc: Proc, fd: FD, mode: set<Permission>, perms: set<Permission>)
    | Fchmodat(proc: Proc, dirfd: DirFD, cwd: File, parent: File, file: File, name: string,
               mode: set<Permission>, perms: set<Permission>)
    | Chown(proc: Proc, parent: File, file: File, name: string, owner: User, group: Group, perms: set<Permission>)
    | Fchown(proc: Proc, fd: FD, owner: User, group: Group, perms: set<Permission>)
    | Fchownat(proc: Proc, dirfd: DirFD, cwd: File, parent: File, file: File, name: string, owner: User,
               group: Group, perms: set<Permission>)
    | Chdir(proc: Proc, dir: File)
    | Fchdir(proc: Proc, fd: FD)
    | Getdents(proc: Proc, fd: FD)
    | Getxattr(proc: Proc, parent: File, file: File, fileName: string, name: string, value: Bytes, size: nat)
    | Setxattr(proc: Proc, parent: File, file: File, fileName: string, name: string, value: Bytes, size: nat,
               xflags: set<XattrFlag>)
    | Link(proc: Proc, oldParent: File, newParent: File, file: File, oldName: string, newName: string)
    | Symlink(proc: Proc, targetParent: File, targetName: string, parent: File, file: File, name: string)
    | Execve(proc: Proc, parent: File, exeFile: File, name: string, argv: set<string>, envp: set<string>,
             fds: set<FD>)
    | Umask(proc: Proc, mask: set<Permission>)
    | Exit(proc: Proc, fds: set<FD>)
    | Close(proc: Proc, fd: FD, fds: set<FD>)
    | Unlink(proc: Proc, parent: File, file: File, name: string, files: set<File>)
    | Rmdir(proc: Proc, parent: File, folder: File, name: string)
    | Fork(proc: Proc, newProc: Proc)
    | CreateUser(user: User, groups: set<Group>, caps: set<Capability>)
    | CreateGroup(group: Group)
    | Login(user: User, proc: Proc, group: Group, exeFile: File, argv: set<string>, envp: set<string>,
            umask: set<Permission>)
    | SetAcl(userACL: map<(File, User), set<Permission>>, groupACL: map<(File, Group), set<Permission>>,
             groupObjACL: map<File, set<Permission>>, maskACL: map<File, set<Permission>>,
             dacPermissions: map<File, set<Permission>>)
    | AnyTransition(target: Dac)
    | ChangeCapabilities(user: User, caps: set<Capability>)

  // ---------- Guards ----------

  /** No file is called `name` in `parent`. */
  predicate NameFree(t: Tree, parent: File, name: string) {
    forall e :: e in t.entries ==> !(e.parent == parent && e.name == name)
  }

  /** Exactly one of the three access modes. */
  predicate OneAccessMode(flags: set<OpenFlag>) {
    && (O_RDONLY in flags || O_WRONLY in flags || O_RDWR in flags)
    && !(O_RDONLY in flags && O_WRONLY in flags)
    && !(O_RDONLY in flags && O_RDWR in flags)
    && !(O_WRONLY in flags && O_RDWR in flags)
  }

  /** `file` is absent from the system, also as an open or working file. */
  predicate FreshFile(s: Dac, file: File) {
    file !in s.tree.files && file !in s.descs.Files() && file !in s.procs.Cwds()
  }

  ghost predicate FreshDescriptor(s: Dac, proc: Proc, fd: FD, fdNumber: nat)
    requires DacInv(s)
  {
    && fd !in s.descs.open.Keys
    && (forall h :: h in s.descs.procFDs && h.proc == proc ==> s.descs.open[h.fd].number != fdNumber)
    && |HeldBy(s.descs, proc)| < PROC_FILE_LIMIT
    && |HeldFDs(s.descs)| < FILE_LIMIT
  }

  predicate CreateFlags(flags: set<OpenFlag>) {
    && (O_CREAT in flags || O_TMPFILE in flags)
    && OneAccessMode(flags)
    && (O_TMPFILE in flags ==> O_WRONLY in flags || O_RDWR in flags)
    && O_PATH !in flags
  }

  predicate ExistsFlags(t: Tree, file: File, flags: set<OpenFlag>) {
    && (O_PATH !in flags ==> !(O_CREAT in flags && O_EXCL in flags))
    && OneAccessMode(flags)
    && (file in t.folders && O_PATH !in flags ==> O_WRONLY !in flags && O_RDWR !in flags)
    && (O_DIRECTORY in flags ==> file in t.folders)
    && (O_DIRECTORY in flags && O_PATH !in flags ==> O_RDONLY in flags)
  }

  ghost predicate InheritedGroup(s: Dac, proc: Proc, parent: File, group: Group)
    requires DacInv(s) && proc in s.procs.table.Keys && parent in s.tree.files
  {
    && group in s.accts.groups
    && (SET_GID !in s.attrs.meta[parent].perms ==> group == s.procs.table[proc].group)
    && (SET_GID in s.attrs.meta[parent].perms ==> group == s.attrs.meta[parent].group)
  }

  ghost predicate OpenCreateGuard(s: Dac, e: Event)
    requires DacInv(s) && e.OpenCreate?
  {
    && e.proc in s.procs.table.Keys
    && e.parent in s.tree.folders
    && FreshFile(s, e.file)
    && NameFree(s.tree, e.parent, e.name)
    && FreshDescriptor(s, e.proc, e.fd, e.fdNumber)
    && CreateFlags(e.flags)
    && |s.tree.files| < MAX_FILES
    && MaySearchByRange(s, e.proc, s.tree.pathToRoot[e.parent])
    && MayByRange(s, e.proc, e.parent, {Write, Execute})
    && InheritedGroup(s, e.proc, e.parent, e.group)
    && e.perms == e.mode - (e.mode * s.procs.table[e.proc].umask)
  }

  ghost predicate OpenExistsGuard(s: Dac, e: Event)
    requires DacInv(s) && e.OpenExists?
  {
    && e.proc in s.procs.table.Keys
    && e.parent in s.tree.folders
    && e.file in s.tree.files
    && Entry(e.file, e.parent, e.name) in s.tree.entries
    && FreshDescriptor(s, e.proc, e.fd, e.fdNumber)
    && ExistsFlags(s.tree, e.file, e.flags)
    && MaySearchByRange(s, e.proc, s.tree.pathToRoot[e.parent] + {e.parent})
    && (O_RDONLY in e.flags && O_PATH !in e.flags ==> MayByRange(s, e.proc, e.file, {Read}))
    && (O_WRONLY in e.flags && O_PATH !in e.flags ==> MayByRange(s, e.proc, e.file, {Write}))
    && (O_RDWR in e.flags && O_PATH !in e.flags ==> MayByImage(s, e.proc, e.file, {Read, Write}))
  }

  /** The directory that an *at call starts from. */
  ghost predicate StartsAt(s: Dac, proc: Proc, dirfd: DirFD, cwd: File)
    requires DacInv(s) && proc in s.procs.table.Keys
  {
    && cwd in s.tree.folders
    && (dirfd == AT_FDCWD ==> cwd == s.procs.table[proc].cwd)
    && (dirfd.Dir? ==> Held(proc, dirfd.fd) in s.descs.procFDs && cwd == s.descs.open[dirfd.fd].file)
  }

  ghost predicate OpenatCreateGuard(s: Dac, e: Event)
    requires DacInv(s) && e.OpenatCreate?
  {
    && e.proc in s.procs.table.Keys
    && e.parent in s.tree.folders
    && FreshFile(s, e.file)
    && NameFree(s.tree, e.parent, e.name)
    && StartsAt(s, e.proc, e.dirfd, e.cwd)
    && e.cwd in s.tree.pathToRoot[e.parent] + {e.parent}
    && FreshDescriptor(s, e.proc, e.fd, e.fdNumber)
    && CreateFlags(e.flags)
    && |s.tree.files| < MAX_FILES
    && MaySearchByImage(s, e.proc, s.tree.pathToRoot[e.parent] - s.tree.pathToRoot[e.cwd])
    && MayByImage(s, e.proc, e.parent, {Write, Execute})
    && InheritedGroup(s, e.proc, e.parent, e.group)
    && e.perms == e.mode - (e.mode * s.procs.table[e.proc].umask)
  }

  ghost predicate OpenatExistsGuard(s: Dac, e: Event)
    requires DacInv(s) && e.OpenatExists?
  {
    && e.proc in s.procs.table.Keys
    && e.parent in s.tree.folders
    && e.file in s.tree.files
    && Entry(e.file, e.parent, e.name) in s.tree.entries
    && StartsAt(s, e.proc, e.dirfd, e.cwd)
    && e.cwd in s.tree.pathToRoot[e.parent] + {e.parent}
    && FreshDescriptor(s, e.proc, e.fd, e.fdNumber)
    && ExistsFlags(s.tree, e.file, e.flags)
    && MaySearchByImage(s, e.proc, s.tree.pathToRoot[e.parent] + {e.parent} - s.tree.pathToRoot[e.cwd])
    && (O_RDONLY in e.flags && O_PATH !in e.flags ==> MayByImage(s, e.proc, e.file, {Read}))
    && (O_WRONLY in e.flags && O_PATH !in e.flags ==> MayByImage(s, e.proc, e.file, {Write}))
    && (O_RDWR in e.flags && O_PATH !in e.flags ==> MayByImage(s, e.proc, e.file, {Read, Write}))
  }

  ghost predicate MkdirGuard(s: Dac, e: Event)
    requires DacInv(s) && e.Mkdir?
  {
    && e.proc in s.procs.table.Keys
    && e.parent in s.tree.folders
    && e.folder !in s.tree.files && e.folder !in s.descs.Files()
    && NameFree(s.tree, e.parent, e.name)
    && InheritedGroup(s, e.proc, e.parent, e.group)
    && |s.tree.files| < MAX_FILES
    && (forall p :: p in s.procs.table.Keys ==> s.procs.table[p].exe != e.folder)
    && MaySearchByImage(s, e.proc, s.tree.pathToRoot[e.parent])
    && MayByImage(s, e.proc, e.parent, {Write, Execute})
    && e.perms == (e.mode + (s.attrs.meta[e.parent].perms * {SET_GID})) - (e.mode * s.procs.table[e.proc].umask)
  }

  /** Who may change the mode, and which bits the call gets. */
  ghost predicate ChmodRights(s: Dac, proc: Proc, file: File, mode: set<Permission>, perms: set<Permission>)
    requires DacInv(s) && proc in s.procs.table.Keys && file in s.tree.files
  {
    && (s.procs.table[proc].user == ROOT_USER || s.procs.table[proc].user == s.attrs.meta[file].user)
    && perms == if file in s.tree.folders || s.procs.table[proc].user == ROOT_USER
                   || (s.procs.table[proc].user, s.attrs.meta[file].group) in s.accts.userGroups
                then mode else mode - {SET_GID}
  }

  /** Who may change owner and group, and which set-id bits survive. */
  ghost predicate ChownRights(s: Dac, proc: Proc, file: File, owner: User, group: Group, perms: set<Permission>)
    requires DacInv(s) && proc in s.procs.table.Keys && file in s.tree.files
  {
    && owner in s.accts.users && group in s.accts.groups
    && (s.procs.table[proc].user == ROOT_USER || owner == s.procs.table[proc].user)
    && (s.procs.table[proc].user == ROOT_USER || (s.procs.table[proc].user, group) in s.accts.userGroups)
    && (s.procs.table[proc].user == ROOT_USER || s.procs.table[proc].user == s.attrs.meta[file].user)
    && perms == if file in s.tree.folders then s.attrs.meta[file].perms
                else if GEXECUTE in s.attrs.meta[file].perms then s.attrs.meta[file].perms - {SET_UID, SET_GID}
                else s.attrs.meta[file].perms - {SET_UID}
  }

  /** `file` is called `name` in `parent`, and the caller may search the whole way to it. */
  ghost predicate Reaches(s: Dac, proc: Proc, parent: File, file: File, name: string)
    requires DacInv(s) && proc in s.procs.table.Keys
  {
    && Entry(file, parent, name) in s.tree.entries
    && MaySearchByImage(s, proc, s.tree.pathToRoot[parent] + {parent})
  }

  ghost predicate ReachesFrom(s: Dac, proc: Proc, cwd: File, parent: File, file: File, name: string)
    requires DacInv(s) && proc in s.procs.table.Keys && cwd in s.tree.folders
  {
    && Entry(file, parent, name) in s.tree.entries
    && MaySearchByImage(s, proc, s.tree.pathToRoot[parent] + {parent} - s.tree.pathToRoot[cwd])
  }

  ghost predicate Holds(s: Dac, proc: Proc, fd: FD)
    requires DacInv(s)
  {
    proc in s.procs.table.Keys && Held(proc, fd) in s.descs.procFDs
  }

  ghost predicate LinkGuard(s: Dac, e: Event)
    requires DacInv(s) && e.Link?
  {
    && e.proc in s.procs.table.Keys
    && e.oldParent in s.tree.folders && e.newParent in s.tree.folders
    && e.file in s.tree.files - s.tree.folders
    && Entry(e.file, e.oldParent, e.oldName) in s.tree.entries
    && NameFree(s.tree, e.newParent, e.newName)
    && MaySearchByImage(s, e.proc, s.tree.pathToRoot[e.oldParent])
    && MaySearchByImage(s, e.proc, s.tree.pathToRoot[e.newParent])
    && MayByImage(s, e.proc, e.oldParent, {Execute})
    && MayByImage(s, e.proc, e.newParent, {Write, Execute})
  }

  ghost predicate SymlinkGuard(s: Dac, e: Event)
    requires DacInv(s) && e.Symlink?
  {
    && e.proc in s.procs.table.Keys
    && e.parent in s.tree.folders
    && NameFree(s.tree, e.parent, e.name)
    && FreshFile(s, e.file)
    && MaySearchByImage(s, e.proc, s.tree.pathToRoot[e.parent])
    && MayByImage(s, e.proc, e.parent, {Write, Execute})
    && |s.tree.files| < MAX_FILES
  }

  ghost predicate ExecveGuard(s: Dac, e: Event)
    requires DacInv(s) && e.Execve?
  {
    && e.proc in s.procs.table.Keys
    && e.parent in s.tree.folders
    && e.exeFile in s.tree.files - s.tree.folders
    && Entry(e.exeFile, e.parent, e.name) in s.tree.entries
    && e.fds <= s.descs.open.Keys
    && (forall fd :: fd in e.fds ==> Held(e.proc, fd) in s.descs.procFDs && O_CLOEXEC in s.descs.open[fd].flags)
    && MaySearchByImage(s, e.proc, s.tree.pathToRoot[e.parent] + {e.parent})
    && MayByImage(s, e.proc, e.exeFile, {Execute})
    && {UEXECUTE, GEXECUTE, OEXECUTE} * s.attrs.meta[e.exeFile].perms != {}
  }

  ghost predicate ExitGuard(s: Dac, e: Event)
    requires DacInv(s) && e.Exit?
  {
    && e.proc in s.procs.table.Keys && e.proc != INIT
    && e.fds <= HeldBy(s.descs, e.proc)
    && (forall h :: h in s.descs.procFDs && h.fd in e.fds ==> h.proc == e.proc)
  }

  /** Some other process holds the descriptor too. */
  ghost predicate SharedDescriptor(d: Descs, proc: Proc, fd: FD) {
    exists p :: p != proc && Held(p, fd) in d.procFDs
  }

  ghost predicate CloseGuard(s: Dac, e: Event)
    requires DacInv(s) && e.Close?
  {
    && Holds(s, e.proc, e.fd)
    && e.fds <= s.descs.open.Keys
    && (SharedDescriptor(s.descs, e.proc, e.fd) <==> e.fds == {})
    && (!SharedDescriptor(s.descs, e.proc, e.fd) <==> e.fds == {e.fd})
  }

  /** The file has a name besides `name` in `parent`. */
  ghost predicate OtherNames(t: Tree, file: File, parent: File, name: string) {
    exists e :: e in t.entries && e.file == file && e != Entry(file, parent, name)
  }

  ghost predicate StickyRights(s: Dac, proc: Proc, parent: File, file: File)
    requires DacInv(s) && proc in s.procs.table.Keys && parent in s.tree.files && file in s.tree.files
  {
    STICKY_BIT in s.attrs.meta[parent].perms ==>
      s.procs.table[proc].user in {ROOT_USER, s.attrs.meta[file].user, s.attrs.meta[parent].user}
  }

  ghost predicate UnlinkGuard(s: Dac, e: Event)
    requires DacInv(s) && e.Unlink?
  {
    && e.proc in s.procs.table.Keys
    && e.parent in s.tree.folders
    && e.file in s.tree.files - s.tree.folders
    && Entry(e.file, e.parent, e.name) in s.tree.entries
    && e.files <= s.tree.files
    && (OtherNames(s.tree, e.file, e.parent, e.name) <==> e.files == {})
    && (!OtherNames(s.tree, e.file, e.parent, e.name) <==> e.files == {e.file})
    && MaySearchByImage(s, e.proc, s.tree.pathToRoot[e.parent])
    && MayByImage(s, e.proc, e.parent, {Write, Execute})
    && StickyRights(s, e.proc, e.parent, e.file)
  }

  ghost predicate RmdirGuard(s: Dac, e: Event)
    requires DacInv(s) && e.Rmdir?
  {
    && e.proc in s.procs.table.Keys
    && e.parent in s.tree.folders
    && e.folder in s.tree.folders && e.folder != ROOT
    && Entry(e.folder, e.parent, e.name) in s.tree.entries
    && (forall n :: n in s.tree.entries ==> n.parent != e.folder)
    && MaySearchByImage(s, e.proc, s.tree.pathToRoot[e.parent])
    && MayByImage(s, e.proc, e.parent, {Write, Execute})
    && StickyRights(s, e.proc, e.parent, e.folder)
  }

  /** The attribute tables after set_acl. */
  function AttrsWithAcl(a: Attrs, e: Event): Attrs
    requires e.SetAcl? && e.dacPermissions.Keys == a.meta.Keys
  {
    Attrs(map f | f in a.meta :: a.meta[f].(perms := e.dacPermissions[f]),
          e.userACL, e.groupObjACL, e.groupACL, e.maskACL)
  }

  /** Events that open, create, name or remove files. */
  predicate FileEvent(e: Event) {
    || e.OpenCreate? || e.OpenExists? || e.OpenatCreate? || e.OpenatExists? || e.Mkdir?
    || e.Link? || e.Symlink? || e.Unlink? || e.Rmdir?
  }

  /** Events that change the attributes of a file. */
  predicate AttrEvent(e: Event) {
    || e.Chmod? || e.Fchmod? || e.Fchmodat? || e.Chown? || e.Fchown?
    || e.Fchownat? || e.Setxattr? || e.SetAcl?
  }

  /** Events of processes and their descriptors. */
  predicate ProcEvent(e: Event) {
    || e.Chdir? || e.Fchdir? || e.Getdents? || e.Getxattr? || e.Execve?
    || e.Umask? || e.Exit? || e.Close? || e.Fork? || e.Login?
  }

  /** Events of accounts, and the arbitrary transition. */
  predicate AdminEvent(e: Event) {
    || e.CreateUser? || e.CreateGroup? || e.ChangeCapabilities? || e.AnyTransition?
  }

  ghost predicate FileGuard(s: Dac, e: Event)
    requires DacInv(s) && FileEvent(e)
  {
    match e
    case OpenCreate(_, _, _, _, _, _, _, _, _, _) => OpenCreateGuard(s, e)
    case OpenExists(_, _, _, _, _, _, _) => OpenExistsGuard(s, e)
    case OpenatCreate(_, _, _, _, _, _, _, _, _, _, _, _) => OpenatCreateGuard(s, e)
    case OpenatExists(_, _, _, _, _, _, _, _, _) => OpenatExistsGuard(s, e)
    case Mkdir(_, _, _, _, _, _, _) => MkdirGuard(s, e)
    case Link(_, _, _, _, _, _) => LinkGuard(s, e)
    case Symlink(_, _, _, _, _, _) => SymlinkGuard(s, e)
    case Unlink(_, _, _, _, _) => UnlinkGuard(s, e)
    case Rmdir(_, _, _, _) => RmdirGuard(s, e)
  }

  ghost predicate AttrGuard(s: Dac, e: Event)
    requires DacInv(s) && AttrEvent(e)
  {
    match e
    case Chmod(proc, parent, file, name, mode, perms) =>
      proc in s.procs.table.Keys && Reaches(s, proc, parent, file, name) && ChmodRights(s, proc, file, mode, perms)
    case Fchmod(proc, fd, mode, perms) =>
      Holds(s, proc, fd) && s.descs.open[fd].file in s.tree.files && ChmodRights(s, proc, s.descs.open[fd].file, mode, perms)
    case Fchmodat(proc, dirfd, cwd, parent, file, name, mode, perms) =>
      && proc in s.procs.table.Keys && StartsAt(s, proc, dirfd, cwd) && ReachesFrom(s, proc, cwd, parent, file, name)
      && ChmodRights(s, proc, file, mode, perms)
    case Chown(proc, parent, file, name, owner, group, perms) =>
      proc in s.procs.table.Keys && Reaches(s, proc, parent, file, name) && ChownRights(s, proc, file, owner, group, perms)
    case Fchown(proc, fd, owner, group, perms) =>
      && Holds(s, proc, fd) && s.descs.open[fd].file in s.tree.files
      && ChownRights(s, proc, s.descs.open[fd].file, owner, group, perms)
    case Fchownat(proc, dirfd, cwd, parent, file, name, owner, group, perms) =>
      && proc in s.procs.table.Keys && StartsAt(s, proc, dirfd, cwd) && ReachesFrom(s, proc, cwd, parent, file, name)
      && ChownRights(s, proc, file, owner, group, perms)
    case Setxattr(proc, parent, file, fileName, name, _, _, xflags) =>
      && proc in s.procs.table.Keys && Reaches(s, proc, parent, file, fileName)
      && (XATTR_CREATE in xflags ==> name !in s.attrs.meta[file].xattrs)
      && (XATTR_REPLACE in xflags ==> name in s.attrs.meta[file].xattrs)
      && MayByImage(s, proc, file, {Write})
    case SetAcl(_, _, _, _, _) =>
      && e.dacPermissions.Keys == s.tree.files
      && AttrTypes(AttrsWithAcl(s.attrs, e), s.tree.files, s.accts.users, s.accts.groups)
      && AclInv(AttrsWithAcl(s.attrs, e))
  }

  ghost predicate ProcGuard(s: Dac, e: Event)
    requires DacInv(s) && ProcEvent(e)
  {
    match e
    case Chdir(proc, dir) =>
      && proc in s.procs.table.Keys && dir in s.tree.folders
      && MaySearchByImage(s, proc, s.tree.pathToRoot[dir] + {dir})
    case Fchdir(proc, fd) =>
      && Holds(s, proc, fd) && s.descs.open[fd].file in s.tree.folders
      && MayByImage(s, proc, s.descs.open[fd].file, {Execute})
    case Getdents(proc, fd) => Holds(s, proc, fd) && s.descs.open[fd].file in s.tree.folders
    case Getxattr(proc, parent, file, fileName, name, value, size) =>
      && proc in s.procs.table.Keys && Reaches(s, proc, parent, file, fileName)
      && name in s.attrs.meta[file].xattrs && (size > 0 ==> value == s.attrs.meta[file].xattrs[name])
      && MayByImage(s, proc, file, {Read})
    case Execve(_, _, _, _, _, _, _) => ExecveGuard(s, e)
    case Umask(proc, mask) => proc in s.procs.table.Keys && mask !! FILE_MODES
    case Exit(_, _) => ExitGuard(s, e)
    case Close(_, _, _) => CloseGuard(s, e)
    case Fork(proc, newProc) => proc in s.procs.table.Keys && newProc !in s.procs.table.Keys
    case Login(user, proc, group, exeFile, _, _, umask) =>
      && user in s.accts.users && proc !in s.procs.table.Keys && group in s.accts.groups
      && exeFile in s.tree.files - s.tree.folders && umask !! FILE_MODES
  }

  ghost predicate AdminGuard(s: Dac, e: Event)
    requires DacInv(s) && AdminEvent(e)
  {
    match e
    case CreateUser(user, groups, _) => user !in s.accts.users && groups <= s.accts.groups
    case CreateGroup(group) => group !in s.accts.groups
    case ChangeCapabilities(user, _) => user in s.accts.users
    case AnyTransition(target) => DacInv(target)
  }

  ghost predicate Guard(s: Dac, e: Event)
    requires DacInv(s)
  {
    if FileEvent(e) then FileGuard(s, e)
    else if AttrEvent(e) then AttrGuard(s, e)
    else if ProcEvent(e) then ProcGuard(s, e)
    else AdminGuard(s, e)
  }

  // ---------- Assignments, by group of variables ----------

  function AddFile(t: Tree, file: File, parent: File, name: string): Tree {
    t.(files := t.files + {file}, entries := t.entries + {Entry(file, parent, name)})
  }

  function AddFolder(t: Tree, folder: File, parent: File, name: string): Tree
    requires parent in t.pathToRoot
  {
    t.(files := t.files + {folder}, folders := t.folders + {folder},
       entries := t.entries + {Entry(folder, parent, name)},
       pathToRoot := t.pathToRoot[folder := t.pathToRoot[parent] + {parent}])
  }

  function AddSymLink(t: Tree, file: File, parent: File, name: string, target: (File, string)): Tree {
    AddFile(t, file, parent, name).(symLinks := t.symLinks + {file}, fileLink := t.fileLink[file := target])
  }

  function AddName(t: Tree, file: File, parent: File, name: string): Tree {
    t.(entries := t.entries + {Entry(file, parent, name)})
  }

  function RemoveName(t: Tree, file: File, parent: File, name: string, files: set<File>): Tree {
    t.(files := t.files - files, entries := t.entries - {Entry(file, parent, name)},
       symLinks := t.symLinks - files, fileLink := t.fileLink - files)
  }

  function RemoveFolder(t: Tree, folder: File, parent: File, name: string): Tree {
    t.(files := t.files - {folder}, entries := t.entries - {Entry(folder, parent, name)},
       folders := t.folders - {folder}, pathToRoot := t.pathToRoot - {folder})
  }

  function NewAttrs(a: Attrs, file: File, user: User, group: Group, perms: set<Permission>): Attrs {
    a.(meta := a.meta[file := Meta(perms, user, group, map[])],
       groupObjACL := a.groupObjACL[file := perms * GROUP_PERMISSIONS])
  }

  function ChmodAttrs(a: Attrs, file: File, mode: set<Permission>, perms: set<Permission>): Attrs
    requires file in a.meta
  {
    a.(meta := a.meta[file := a.meta[file].(perms := perms)],
       maskACL := if file in a.maskACL then a.maskACL[file := mode * GROUP_PERMISSIONS] else a.maskACL,
       groupObjACL := if file in a.maskACL then a.groupObjACL else a.groupObjACL[file := mode * GROUP_PERMISSIONS])
  }

  function ChownAttrs(a: Attrs, file: File, owner: User, group: Group, perms: set<Permission>): Attrs
    requires file in a.meta
  {
    a.(meta := a.meta[file := a.meta[file].(user := owner, group := group, perms := perms)])
  }

  function SetXattr(a: Attrs, file: File, name: string, value: Bytes): Attrs
    requires file in a.meta
  {
    a.(meta := a.meta[file := a.meta[file].(xattrs := a.meta[file].xattrs[name := value])])
  }

  function RemoveAttrs(a: Attrs, files: set<File>, users: set<User>, groups: set<Group>): Attrs {
    Attrs(a.meta - files,
          map k | k in a.userACL && !(k.0 in files && k.1 in users) :: a.userACL[k],
          a.groupObjACL - files,
          map k | k in a.groupACL && !(k.0 in files && k.1 in groups) :: a.groupACL[k],
          a.maskACL - files)
  }

  function OpenDesc(d: Descs, proc: Proc, fd: FD, fdNumber: nat, flags: set<OpenFlag>, file: File): Descs {
    Descs(d.open[fd := OpenFile(flags, file, fdNumber)], d.procFDs + {Held(proc, fd)})
  }

  /** The descriptors `fds` are closed, and nobody holds them any more. */
  function DropDescs(d: Descs, fds: set<FD>): Descs {
    Descs(d.open - fds, set h | h in d.procFDs && h.fd !in fds)
  }

  /** The process lets go of its descriptors; those in `fds` are closed. */
  function ExitDescs(d: Descs, proc: Proc, fds: set<FD>): Descs {
    Descs(d.open - fds, set h | h in d.procFDs && h.proc != proc)
  }

  function ForkDescs(d: Descs, proc: Proc, newProc: Proc): Descs {
    d.(procFDs := d.procFDs + (set fd | fd in HeldBy(d, proc) :: Held(newProc, fd)))
  }

  function ExecProc(p: Procs, a: Attrs, e: Event): Procs
    requires e.Execve? && e.exeFile in a.meta && e.proc in p.table
  {
    var m := a.meta[e.exeFile];
    var info := p.table[e.proc];
    p.(table := p.table[e.proc :=
      info.(exe := e.exeFile, argv := e.argv, envp := e.envp,
            user := if SET_UID in m.perms then m.user else info.user,
            group := if SET_GID in m.perms then m.group else info.group)])
  }

  function SetCwd(p: Procs, proc: Proc, dir: File): Procs
    requires proc in p.table
  {
    p.(table := p.table[proc := p.table[proc].(cwd := dir)])
  }

  function SetUmask(p: Procs, proc: Proc, mask: set<Permission>): Procs
    requires proc in p.table
  {
    p.(table := p.table[proc := p.table[proc].(umask := mask)])
  }

  /** The children of the leaving process become children of INIT. */
  function ExitProc(p: Procs, proc: Proc): Procs {
    Procs(p.table - {proc},
          map x | x in p.parent && x != proc :: if p.parent[x] == proc then INIT else p.parent[x])
  }

  function ForkProc(p: Procs, proc: Proc, newProc: Proc): Procs
    requires proc in p.table
  {
    Procs(p.table[newProc := p.table[proc]], p.parent[newProc := proc])
  }

  function LoginProc(p: Procs, e: Event): Procs
    requires e.Login?
  {
    Procs(p.table[e.proc := ProcInfo(e.user, e.group, e.umask, e.exeFile, e.argv, e.envp, ROOT)],
          p.parent[e.proc := INIT])
  }

  function CreateEffect(s: Dac, proc: Proc, parent: File, file: File, name: string, flags: set<OpenFlag>,
                        fd: FD, fdNumber: nat, group: Group, perms: set<Permission>): Dac
    requires proc in s.procs.table
  {
    s.(tree := AddFile(s.tree, file, parent, name),
       attrs := NewAttrs(s.attrs, file, s.procs.table[proc].user, group, perms),
       descs := OpenDesc(s.descs, proc, fd, fdNumber, flags, file))
  }

  /** New files have a creator, and new folders a parent with an ancestor index. */
  lemma WhereFilesGo(s: Dac, e: Event)
    requires DacInv(s) && FileEvent(e) && FileGuard(s, e)
    ensures e.OpenCreate? || e.OpenatCreate? || e.Mkdir? || e.Symlink? ==> e.proc in s.procs.table
    ensures e.Mkdir? ==> e.parent in s.tree.pathToRoot
  {
  }

  ghost function ApplyFile(s: Dac, e: Event): Dac
    requires DacInv(s) && FileEvent(e) && FileGuard(s, e)
  {
    hide DacInv, FileGuard;
    WhereFilesGo(s, e);
    match e
    case OpenCreate(proc, parent, file, name, flags, _, fd, fdNumber, group, perms) =>
      CreateEffect(s, proc, parent, file, name, flags, fd, fdNumber, group, perms)
    case OpenExists(proc, _, file, _, flags, fd, fdNumber) =>
      s.(descs := OpenDesc(s.descs, proc, fd, fdNumber, flags, file))
    case OpenatCreate(proc, _, parent, file, name, flags, _, fd, fdNumber, _, group, perms) =>
      CreateEffect(s, proc, parent, file, name, flags, fd, fdNumber, group, perms)
    case OpenatExists(proc, _, _, file, _, flags, fd, fdNumber, _) =>
      s.(descs := OpenDesc(s.descs, proc, fd, fdNumber, flags, file))
    case Mkdir(proc, parent, folder, name, _, group, perms) =>
      s.(tree := AddFolder(s.tree, folder, parent, name),
         attrs := NewAttrs(s.attrs, folder, s.procs.table[proc].user, group, perms))
    case Link(_, _, newParent, file, _, newName) => s.(tree := AddName(s.tree, file, newParent, newName))
    case Symlink(proc, targetParent, targetName, parent, file, name) =>
      s.(tree := AddSymLink(s.tree, file, parent, name, (targetParent, targetName)),
         attrs := NewAttrs(s.attrs, file, s.procs.table[proc].user, s.procs.table[proc].group, DEF_SYMLINK_PERMS))
    case Unlink(_, parent, file, name, files) =>
      s.(tree := RemoveName(s.tree, file, parent, name, files),
         attrs := RemoveAttrs(s.attrs, files, s.accts.users, s.accts.groups))
    case Rmdir(_, parent, folder, name) =>
      s.(tree := RemoveFolder(s.tree, folder, parent, name),
         attrs := RemoveAttrs(s.attrs, {folder}, s.accts.users, s.accts.groups))
  }

  ghost function ApplyAttr(s: Dac, e: Event): Dac
    requires DacInv(s) && AttrEvent(e) && AttrGuard(s, e)
  {
    match e
    case Chmod(_, _, file, _, mode, perms) => s.(attrs := ChmodAttrs(s.attrs, file, mode, perms))
    case Fchmod(_, fd, mode, perms) => s.(attrs := ChmodAttrs(s.attrs, s.descs.open[fd].file, mode, perms))
    case Fchmodat(_, _, _, _, file, _, mode, perms) => s.(attrs := ChmodAttrs(s.attrs, file, mode, perms))
    case Chown(_, _, file, _, owner, group, perms) => s.(attrs := ChownAttrs(s.attrs, file, owner, group, perms))
    case Fchown(_, fd, owner, group, perms) =>
      s.(attrs := ChownAttrs(s.attrs, s.descs.open[fd].file, owner, group, perms))
    case Fchownat(_, _, _, _, file, _, owner, group, perms) =>
      s.(attrs := ChownAttrs(s.attrs, file, owner, group, perms))
    case Setxattr(_, _, file, _, name, value, _, _) =>
      s.(attrs := SetXattr(s.attrs, file, name, value))
    case SetAcl(_, _, _, _, _) => s.(attrs := AttrsWithAcl(s.attrs, e))
  }

  ghost function ApplyProc(s: Dac, e: Event): Dac
    requires DacInv(s) && ProcEvent(e) && ProcGuard(s, e)
  {
    match e
    case Chdir(proc, dir) => s.(procs := SetCwd(s.procs, proc, dir))
    case Fchdir(proc, fd) => s.(procs := SetCwd(s.procs, proc, s.descs.open[fd].file))
    case Getdents(_, _) => s
    case Getxattr(_, _, _, _, _, _, _) => s
    case Execve(_, _, _, _, _, _, fds) =>
      s.(procs := ExecProc(s.procs, s.attrs, e), descs := DropDescs(s.descs, fds))
    case Umask(proc, mask) => s.(procs := SetUmask(s.procs, proc, mask))
    case Exit(proc, fds) => s.(procs := ExitProc(s.procs, proc), descs := ExitDescs(s.descs, proc, fds))
    case Close(_, _, fds) => s.(descs := DropDescs(s.descs, fds))
    case Fork(proc, newProc) =>
      s.(procs := ForkProc(s.procs, proc, newProc), descs := ForkDescs(s.descs, proc, newProc))
    case Login(_, _, _, _, _, _, _) => s.(procs := LoginProc(s.procs, e))
  }

  ghost function ApplyAdmin(s: Dac, e: Event): Dac
    requires DacInv(s) && AdminEvent(e) && AdminGuard(s, e)
  {
    match e
    case CreateUser(user, groups, caps) =>
      s.(accts := s.accts.(users := s.accts.users + {user},
                           userGroups := s.accts.userGroups + (set g | g in groups :: (user, g)),
                           caps := s.accts.caps[user := caps]))
    case CreateGroup(group) => s.(accts := s.accts.(groups := s.accts.groups + {group}))
    case ChangeCapabilities(user, caps) => s.(accts := s.accts.(caps := s.accts.caps[user := caps]))
    case AnyTransition(target) => target
  }

  ghost function Apply(s: Dac, e: Event): Dac
    requires DacInv(s) && Guard(s, e)
  {
    if FileEvent(e) then ApplyFile(s, e)
    else if AttrEvent(e) then ApplyAttr(s, e)
    else if ProcEvent(e) then ApplyProc(s, e)
    else ApplyAdmin(s, e)
  }

  /** INITIALISATION. */
  function Initial(): Dac {
    Dac(
      Tree({ROOT, INIT_EXE}, {ROOT}, {}, {Entry(INIT_EXE, ROOT, INIT_NAME)}, map[], map[ROOT := {}]),
      Attrs(map[ROOT := Meta(DEF_FOLDER_PERMS, ROOT_USER, ROOT_GROUP, map[]),
                INIT_EXE := Meta(DEF_FILE_PERMS, ROOT_USER, ROOT_GROUP, map[])],
            map[],
            map[ROOT := DEF_FOLDER_PERMS * GROUP_PERMISSIONS, INIT_EXE := DEF_FILE_PERMS * GROUP_PERMISSIONS],
            map[], map[]),
      Descs(map[], {}),
      Procs(map[INIT := ProcInfo(ROOT_USER, ROOT_GROUP, {}, INIT_EXE, {}, {}, ROOT)], map[]),
      Accounts({ROOT_USER}, {ROOT_GROUP}, {(ROOT_USER, ROOT_GROUP)}, map[ROOT_USER := {}]))
  }
}
