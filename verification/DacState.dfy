/** The variables and the declared invariants of the machine src/DAC.bm.

    The 32 variables are grouped into five records, so that an event that leaves a group of
    variables alone leaves one value unchanged. Functions that are total on the same set of files,
    processes or descriptors are one map to a record. */
module DacState {
  import opened Context

  /** file |-> (parent |-> name), one pair of the relation FileParents. */
  datatype Entry = Entry(file: File, parent: File, name: string)

  datatype Tree = Tree(
    files: set<File>,
    folders: set<File>,
    symLinks: set<File>,
    entries: set<Entry>,                    // FileParents
    fileLink: map<File, (File, string)>,
    pathToRoot: map<File, set<File>>)

  /** What every file has: the functions DACPermissions, FileUser, FileGroup and FileXattrs are
      total on Files, and so are one map. */
  datatype Meta = Meta(perms: set<Permission>, user: User, group: Group, xattrs: map<string, Bytes>)

  datatype Attrs = Attrs(
    meta: map<File, Meta>,
    userACL: map<(File, User), set<Permission>>,
    groupObjACL: map<File, set<Permission>>,
    groupACL: map<(File, Group), set<Permission>>,
    maskACL: map<File, set<Permission>>)

  datatype Held = Held(proc: Proc, fd: FD)

  /** FDFlags, FDFile and FDNumber, total on FDs. */
  datatype OpenFile = OpenFile(flags: set<OpenFlag>, file: File, number: nat)

  datatype Descs = Descs(
    open: map<FD, OpenFile>,                // its domain is FDs
    procFDs: set<Held>)
  {
    /** ran(FDFile) */
    function Files(): set<File> {
      set fd | fd in open :: open[fd].file
    }
  }

  /** ProcUser, ProcGroup, ProcUmask, ProcEXE, ProcArgv, ProcEnvp and ProcCwd, total on Procs. */
  datatype ProcInfo = ProcInfo(
    user: User, group: Group, umask: set<Permission>, exe: File, argv: set<string>, envp: set<string>,
    cwd: File)

  datatype Procs = Procs(
    table: map<Proc, ProcInfo>,             // its domain is Procs
    parent: map<Proc, Proc>)
  {
    /** ran(ProcCwd) */
    function Cwds(): set<File> {
      set p | p in table :: table[p].cwd
    }
  }

  datatype Accounts = Accounts(
    users: set<User>,
    groups: set<Group>,
    userGroups: set<(User, Group)>,
    caps: map<User, set<Capability>>)

  datatype Dac = Dac(tree: Tree, attrs: Attrs, descs: Descs, procs: Procs, accts: Accounts)

  // ---------- Declared invariants, one predicate per group of variables ----------

  ghost predicate HasName(t: Tree, f: File) {
    exists e :: e in t.entries && e.file == f
  }

  ghost predicate TreeTypes(t: Tree) {
    && t.folders <= t.files
    && t.symLinks <= t.files
    && ROOT in t.folders
    && (forall e :: e in t.entries ==> e.file in t.files && e.file != ROOT && e.parent in t.folders)
    && (forall f {:trigger HasName(t, f)} :: f in t.files && f != ROOT ==> HasName(t, f))
    && t.fileLink.Keys == t.symLinks
    && t.pathToRoot.Keys == t.folders
    && (forall f {:trigger t.pathToRoot[f]} :: f in t.folders ==> t.pathToRoot[f] <= t.folders)
    && |t.files| <= MAX_FILES
    && t.symLinks !! t.folders
  }

  ghost predicate ParentOf(t: Tree, f: File, p: File) {
    exists e :: e in t.entries && e.file == f && e.parent == p
  }

  /** p is the parent of f or of an ancestor of f. */
  ghost predicate ParentOnPath(t: Tree, f: File, p: File)
    requires f in t.pathToRoot
  {
    exists c :: c in t.pathToRoot[f] + {f} && ParentOf(t, c, p)
  }

  /** PathToRoot1 - PathToRoot4. */
  ghost predicate PathIndex(t: Tree)
    requires TreeTypes(t)
  {
    && t.pathToRoot[ROOT] == {}
    && (forall e :: e in t.entries && e.file in t.folders ==>
          t.pathToRoot[e.file] == t.pathToRoot[e.parent] + {e.parent})
    && (forall f, p {:trigger p in t.pathToRoot[f], t.pathToRoot[p]} ::
          f in t.folders && p in t.pathToRoot[f] ==> t.pathToRoot[p] <= t.pathToRoot[f])
    && (forall f, p {:trigger ParentOnPath(t, f, p)} ::
          f in t.folders && p in t.pathToRoot[f] ==> ParentOnPath(t, f, p))
  }

  /** FileParents1: a folder has one parent and one name. */
  ghost predicate FolderOneEntry(t: Tree) {
    forall e1, e2 :: e1 in t.entries && e2 in t.entries && e1.file == e2.file && e1.file in t.folders
      ==> e1 == e2
  }

  ghost predicate TreeInv(t: Tree) {
    TreeTypes(t) && PathIndex(t) && FolderOneEntry(t)
  }

  ghost predicate AttrTypes(a: Attrs, files: set<File>, users: set<User>, groups: set<Group>) {
    && a.meta.Keys == files
    && (forall f :: f in a.meta ==> a.meta[f].user in users && a.meta[f].group in groups)
    && (forall k :: k in a.userACL ==> k.0 in files && k.1 in users && a.userACL[k] <= USER_PERMISSIONS)
    && (forall k :: k in a.groupACL ==> k.0 in files && k.1 in groups && a.groupACL[k] <= GROUP_PERMISSIONS)
    && (forall f :: f in a.groupObjACL ==> f in files && a.groupObjACL[f] <= GROUP_PERMISSIONS)
    && (forall f :: f in a.maskACL ==> f in files && a.maskACL[f] <= GROUP_PERMISSIONS)
  }

  /** ACL1 - ACL4. */
  ghost predicate AclInv(a: Attrs) {
    && (forall k :: k in a.userACL ==> k.0 in a.maskACL)
    && (forall k :: k in a.groupACL ==> k.0 in a.maskACL)
    && (forall f :: f in a.maskACL ==> f in a.meta && a.maskACL[f] == a.meta[f].perms * GROUP_PERMISSIONS)
    && (forall f :: f in a.meta && f !in a.maskACL ==>
          f in a.groupObjACL && a.groupObjACL[f] == a.meta[f].perms * GROUP_PERMISSIONS)
  }

  /** ProcFDs[{p}]. */
  function HeldBy(d: Descs, p: Proc): set<FD> {
    set h | h in d.procFDs && h.proc == p :: h.fd
  }

  /** ran(ProcFDs). */
  function HeldFDs(d: Descs): set<FD> {
    set h | h in d.procFDs :: h.fd
  }

  ghost predicate DescTypes(d: Descs, procs: set<Proc>) {
    forall h :: h in d.procFDs ==> h.proc in procs && h.fd in d.open
  }

  /** ProcFDs1 and ProcFDs2. */
  ghost predicate DescLimits(d: Descs, procs: set<Proc>) {
    && (forall p :: p in procs ==> |HeldBy(d, p)| <= PROC_FILE_LIMIT)
    && |HeldFDs(d)| <= FILE_LIMIT
  }

  predicate WriteCapable(flags: set<OpenFlag>) {
    O_WRONLY in flags || O_RDWR in flags
  }

  /** ProcFDs3: no folder is open for writing, unless as an O_PATH descriptor. */
  ghost predicate FolderDescs(d: Descs, folders: set<File>)
    requires forall h :: h in d.procFDs ==> h.fd in d.open
  {
    forall h :: h in d.procFDs && d.open[h.fd].file in folders && O_PATH !in d.open[h.fd].flags
      ==> !WriteCapable(d.open[h.fd].flags)
  }

  ghost predicate ProcTypes(p: Procs, users: set<User>, groups: set<Group>) {
    && INIT in p.table
    && p.parent.Keys == p.table.Keys - {INIT}
    && (forall q :: q in p.table ==>
          p.table[q].user in users && p.table[q].group in groups && p.table[q].umask !! FILE_MODES)
    && (forall q {:trigger p.parent[q]} :: q in p.parent ==> p.parent[q] in p.table)
  }

  /** ProcEXE1 and ProcCwd1. */
  ghost predicate ProcFiles(p: Procs, t: Tree) {
    && (forall q :: q in p.table ==> p.table[q].exe !in t.folders)
    && (forall q :: q in p.table && p.table[q].cwd in t.files ==> p.table[q].cwd in t.folders)
  }

  ghost predicate AccountTypes(c: Accounts) {
    && ROOT_USER in c.users
    && (forall ug :: ug in c.userGroups ==> ug.0 in c.users && ug.1 in c.groups)
    && c.caps.Keys == c.users
  }

  ghost predicate DescInv(d: Descs, procs: set<Proc>, folders: set<File>) {
    DescTypes(d, procs) && DescLimits(d, procs) && FolderDescs(d, folders)
  }

  ghost predicate ProcInv(p: Procs, c: Accounts, t: Tree) {
    ProcTypes(p, c.users, c.groups) && ProcFiles(p, t)
  }

  /** The whole invariant block of the machine. */
  ghost predicate DacInv(s: Dac) {
    && TreeInv(s.tree)
    && AttrTypes(s.attrs, s.tree.files, s.accts.users, s.accts.groups)
    && AclInv(s.attrs)
    && DescInv(s.descs, s.procs.table.Keys, s.tree.folders)
    && ProcInv(s.procs, s.accts, s.tree)
    && AccountTypes(s.accts)
  }
}
