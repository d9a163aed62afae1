/** The constants and carrier sets of the machines (src/DAC_CTX.bc, src/open.bc,
    src/xattrs.bc, src/IMA_CTX.bc).

    The carrier sets are datatypes, so that the distinguished elements (ROOT, INIT, ...) are
    distinct by construction. Limits that the contexts leave open are constants without a value. */
module Context {

  datatype Option<+T> = None | Some(value: T)

  /** How a Python call ends: normally or with one of the exceptions that occur here. */
  datatype Status = Ok | KeyError | ValueError

  /** Byte strings: hashes, extended attribute values. One character stands for one byte. */
  type Bytes = string
  type Hash = Bytes

  datatype File = ROOT | INIT_EXE | Inode(dev: int, ino: int)
  datatype Proc = INIT | Proc(pid: int)
  datatype User = ROOT_USER | User(uid: int)
  datatype Group = ROOT_GROUP | Group(gid: int)
  datatype FD = FD(owner: int, num: int)
  /** FILE_DESCRIPTORS_EXTENDED: the descriptors and the special value AT_FDCWD. */
  datatype DirFD = AT_FDCWD | Dir(fd: FD)
  datatype Capability = Capability(cap: int)

  datatype Permission =
    | UREAD | UWRITE | UEXECUTE
    | GREAD | GWRITE | GEXECUTE
    | OREAD | OWRITE | OEXECUTE
    | SET_UID | SET_GID | STICKY_BIT

  const USER_PERMISSIONS := {UREAD, UWRITE, UEXECUTE}
  const GROUP_PERMISSIONS := {GREAD, GWRITE, GEXECUTE}
  const OTHER_PERMISSIONS := {OREAD, OWRITE, OEXECUTE}
  const FILE_MODES := {SET_UID, SET_GID, STICKY_BIT}

  const DEF_FILE_PERMS := {UREAD, UWRITE, GREAD, OREAD}
  const DEF_FOLDER_PERMS := {UREAD, UWRITE, UEXECUTE, GREAD, GEXECUTE, OREAD, OEXECUTE}
  const DEF_SYMLINK_PERMS := USER_PERMISSIONS + GROUP_PERMISSIONS + OTHER_PERMISSIONS

  datatype OpenFlag =
    | O_RDONLY | O_WRONLY | O_RDWR | O_CREAT | O_EXCL | O_DIRECT | O_TMPFILE | O_DIRECTORY
    | O_CLOEXEC | O_NOCTTY | O_NOFOLLOW | O_TRUNC | O_APPEND | O_ASYNC | O_SYNC | O_DSYNC
    | O_NOATIME | O_LARGEFILE | O_PATH | O_NOBLOCK | O_NDELAY

  datatype XattrFlag = XATTR_CREATE | XATTR_REPLACE

  datatype IntegrityMode = ENFORCE | FIX | OFF

  type Positive = n: nat | 1 <= n witness 1
  /** FILES holds ROOT and INIT_EXE and card(FILES) <= MAX_FILES, so the quota is at least two. */
  type FileQuota = n: nat | 2 <= n witness 2

  const MAX_FILES: FileQuota
  const PROC_FILE_LIMIT: Positive
  const FILE_LIMIT: Positive

  const INIT_NAME: string
  const IMA_STRING := "security.ima"
  const EVM_STRING := "security.evm"
  const ROOT_CONTENT_HASH: Hash
  const ROOT_META_HASH: Hash
  const INIT_EXE_CONTENT_HASH: Hash
  const INIT_EXE_META_HASH: Hash

  lemma SubsetCard<T>(a: set<T>, b: set<T>)
    requires a <= b
    ensures |a| <= |b|
    ensures |a| == |b| ==> a == b
  {
    assert b == a + (b - a);
  }
}
