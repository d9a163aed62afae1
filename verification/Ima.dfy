/** The refinement src/IMA.bm: hashes, the immutable attribute and the two appraisal modes. */
module Ima {
  import opened Context
  import opened DacState
  import opened DacEvents
  import opened DacSafety
  import opened DacSteps

  datatype Ima = Ima(
    dac: Dac,
    content: map<File, Hash>,     // ContentHash
    meta: map<File, Hash>,        // MetaHash
    immutable: set<File>,         // ImmutableFiles
    imaHash: map<File, Hash>,
    evmHash: map<File, Hash>,
    imaMode: IntegrityMode,
    evmMode: IntegrityMode)
  {
    function Files(): set<File> {
      dac.tree.files
    }
  }

  /** The hash parameters that the refinement adds to events. */
  datatype Hashes = Hashes(content: Hash, meta: Hash, ima: Hash, evm: Hash)

  datatype ImaEvent =
    | Sys(e: Event, h: Hashes)
    | SwitchImaMode(mode: IntegrityMode)
    | SwitchEvmMode(mode: IntegrityMode)
    | MarkImmutable(file: File)
    | UnmarkImmutable(file: File)
    | AnyImaTransition(target: Ima)
    /** The only use the mediator makes of any_transition: force_set_ima_evm_hash. */
    | ForceSetHashes(file: File, ima: Hash, evm: Hash)

  /** The invariants of the refinement. */
  ghost predicate ImaTypes(s: Ima) {
    && s.content.Keys == s.Files()
    && s.meta.Keys == s.Files()
    && s.immutable <= s.Files()
    && s.imaHash.Keys <= s.Files()
    && s.evmHash.Keys <= s.Files()
  }

  /** ... together with those of the abstract machine. */
  ghost predicate ImaInv(s: Ima) {
    DacInv(s.dac) && ImaTypes(s)
  }

  /** FDFile(fd), if the descriptor is open. */
  function DescFile(s: Dac, fd: FD): Option<File> {
    if fd in s.descs.open then Some(s.descs.open[fd].file) else None
  }

  // ---------- Guards ----------

  /** What the refinement asks of opening or running an existing file. */
  predicate Appraised(s: Ima, file: File) {
    && (s.imaMode == ENFORCE && s.evmMode == ENFORCE ==>
          file in s.evmHash && file in s.meta && s.evmHash[file] == s.meta[file])
    && (s.imaMode == ENFORCE ==>
          file in s.imaHash && file in s.content && s.imaHash[file] == s.content[file])
  }

  predicate ImaOpenExists(s: Ima, parent: File, file: File, flags: set<OpenFlag>) {
    && Appraised(s, file)
    && (file in s.immutable ==> O_WRONLY !in flags && O_RDWR !in flags)
    && (s.imaMode == ENFORCE ==> O_WRONLY !in flags && O_RDWR !in flags)
    && parent !in s.immutable
  }

  predicate HashFollowsPerms(s: Ima, file: Option<File>, perms: set<Permission>, hash: Hash) {
    && file.Some? && file.value in s.dac.attrs.meta && file.value in s.meta
    && (s.dac.attrs.meta[file.value].perms == perms <==> s.meta[file.value] == hash)
  }

  predicate HashFollowsOwner(s: Ima, file: Option<File>, owner: User, group: Group, hash: Hash) {
    && file.Some? && file.value in s.dac.attrs.meta && file.value in s.meta
    && ((s.dac.attrs.meta[file.value].user == owner && s.dac.attrs.meta[file.value].group == group)
        <==> s.meta[file.value] == hash)
  }

  predicate ImaClose(s: Ima, fd: FD, h: Hashes) {
    && fd in s.dac.descs.open
    && var desc := s.dac.descs.open[fd];
       var file := desc.file;
    && (s.imaMode == FIX ==> h.ima == h.content)
    && (s.imaMode != FIX && file in s.imaHash ==> h.ima == s.imaHash[file])
    && (s.evmMode == FIX ==> h.evm == h.meta)
    && (s.evmMode != FIX && file in s.evmHash ==> h.evm == s.evmHash[file])
    && (file in s.content && file in s.meta ==>
          (s.meta[file] == h.meta <==> (s.content[file] == h.content || s.imaMode != FIX)))
    && (O_RDONLY in desc.flags && file in s.content && file in s.meta ==>
          s.content[file] == h.content && s.meta[file] == h.meta)
  }

  /** The guards added to an event of the abstract machine. */
  predicate ImaSysGuard(s: Ima, e: Event, h: Hashes) {
    match e
    case OpenCreate(_, parent, _, _, _, _, _, _, _, _) => parent !in s.immutable
    case OpenExists(_, parent, file, _, flags, _, _) => ImaOpenExists(s, parent, file, flags)
    case OpenatCreate(_, _, parent, _, _, _, _, _, _, _, _, _) => parent !in s.immutable
    case OpenatExists(_, _, parent, file, _, flags, _, _, _) => ImaOpenExists(s, parent, file, flags)
    case Mkdir(_, parent, _, _, _, _, _) => parent !in s.immutable
    case Chmod(_, _, file, _, _, perms) => file !in s.immutable && HashFollowsPerms(s, Some(file), perms, h.meta)
    case Fchmod(_, fd, _, perms) => HashFollowsPerms(s, DescFile(s.dac, fd), perms, h.meta)
    case Fchmodat(_, _, _, _, file, _, _, perms) =>
      file !in s.immutable && HashFollowsPerms(s, Some(file), perms, h.meta)
    case Chown(_, _, file, _, owner, group, _) =>
      file !in s.immutable && HashFollowsOwner(s, Some(file), owner, group, h.meta)
    case Fchown(_, fd, owner, group, _) => HashFollowsOwner(s, DescFile(s.dac, fd), owner, group, h.meta)
    case Fchownat(_, _, _, _, file, _, owner, group, _) =>
      file !in s.immutable && HashFollowsOwner(s, Some(file), owner, group, h.meta)
    case Setxattr(_, _, file, _, name, _, _, _) => name !in {IMA_STRING, EVM_STRING} && file !in s.immutable
    case Symlink(_, _, _, parent, _, _) => parent !in s.immutable
    case Execve(_, _, exeFile, _, _, _, _) => Appraised(s, exeFile)
    case Close(_, fd, _) => ImaClose(s, fd, h)
    case Unlink(_, parent, file, _, _) => file !in s.immutable && parent !in s.immutable
    case Rmdir(_, parent, folder, _) => folder !in s.immutable && parent !in s.immutable
    case AnyTransition(_) => false       // any_transition has its own, wider form below
    case _ => true
  }

  ghost predicate ImaGuard(s: Ima, ie: ImaEvent)
    requires ImaInv(s)
  {
    match ie
    case Sys(e, h) => Guard(s.dac, e) && ImaSysGuard(s, e, h)
    case SwitchImaMode(_) => true
    case SwitchEvmMode(_) => true
    case MarkImmutable(file) => file in s.Files() && file !in s.immutable
    case UnmarkImmutable(file) => file in s.immutable && s.imaMode != ENFORCE && s.evmMode != ENFORCE
    case AnyImaTransition(target) => ImaInv(target)
    case ForceSetHashes(file, _, _) => file in s.Files()
  }

  // ---------- Assignments ----------

  /** ContentHash or MetaHash without the files an event removes. */
  function WithoutRemoved(m: map<File, Hash>, e: Event): map<File, Hash> {
    if e.Unlink? then m - e.files else if e.Rmdir? then m - {e.folder} else m
  }

  /** The file in Files that a close event refers to. */
  function ClosedFile(s: Ima, e: Event): Option<File> {
    if e.Close? && e.fd in s.dac.descs.open && s.dac.descs.open[e.fd].file in s.Files()
    then Some(s.dac.descs.open[e.fd].file) else None
  }

  /** The file whose metadata a chmod- or chown-family call rewrites. */
  function MetaTarget(s: Dac, e: Event): Option<File> {
    if e.Chmod? || e.Fchmodat? || e.Chown? || e.Fchownat? then Some(e.file)
    else if e.Fchmod? || e.Fchown? then DescFile(s, e.fd)
    else None
  }

  function ContentAfter(s: Ima, e: Event, h: Hashes): map<File, Hash> {
    if Creates(e) then s.content[CreatedFile(e) := h.content]
    else if ClosedFile(s, e).Some? then s.content[ClosedFile(s, e).value := h.content]
    else WithoutRemoved(s.content, e)
  }

  function MetaAfter(s: Ima, e: Event, h: Hashes): map<File, Hash> {
    if Creates(e) then s.meta[CreatedFile(e) := h.meta]
    else if MetaTarget(s.dac, e).Some? then s.meta[MetaTarget(s.dac, e).value := h.meta]
    else if ClosedFile(s, e).Some? then s.meta[ClosedFile(s, e).value := h.meta]
    else WithoutRemoved(s.meta, e)
  }

  function ImaHashAfter(s: Ima, e: Event, h: Hashes): map<File, Hash> {
    if ClosedFile(s, e).Some? && s.imaMode == FIX then s.imaHash[ClosedFile(s, e).value := h.ima]
    else WithoutRemoved(s.imaHash, e)
  }

  function EvmHashAfter(s: Ima, e: Event, h: Hashes): map<File, Hash> {
    if ClosedFile(s, e).Some? && s.evmMode == FIX then s.evmHash[ClosedFile(s, e).value := h.evm]
    else WithoutRemoved(s.evmHash, e)
  }

  function ImmutableAfter(s: Ima, e: Event): set<File> {
    if e.Unlink? then s.immutable - e.files else if e.Rmdir? then s.immutable - {e.folder} else s.immutable
  }

  ghost function ApplyIma(s: Ima, ie: ImaEvent): Ima
    requires ImaInv(s) && ImaGuard(s, ie)
  {
    match ie
    case Sys(e, h) =>
      Ima(Apply(s.dac, e), ContentAfter(s, e, h), MetaAfter(s, e, h), ImmutableAfter(s, e),
          ImaHashAfter(s, e, h), EvmHashAfter(s, e, h), s.imaMode, s.evmMode)
    case SwitchImaMode(mode) => s.(imaMode := mode)
    case SwitchEvmMode(mode) => s.(evmMode := mode)
    case MarkImmutable(file) => s.(immutable := s.immutable + {file})
    case UnmarkImmutable(file) => s.(immutable := s.immutable - {file})
    case AnyImaTransition(target) => target
    case ForceSetHashes(file, ima, evm) =>
      s.(imaHash := s.imaHash[file := ima], evmHash := s.evmHash[file := evm])
  }

  function InitialIma(): Ima {
    Ima(Initial(), map[ROOT := ROOT_CONTENT_HASH, INIT_EXE := INIT_EXE_CONTENT_HASH],
        map[ROOT := ROOT_META_HASH, INIT_EXE := INIT_EXE_META_HASH], {}, map[], map[], OFF, OFF)
  }

  // ---------- Invariants ----------

  lemma NamedTargetExists(s: Dac, e: Event)
    requires DacInv(s) && (e.Chmod? || e.Fchmodat? || e.Chown? || e.Fchownat?) && AttrGuard(s, e)
    ensures e.file in s.tree.files
  {
  }

  lemma OpenTargetExists(s: Dac, e: Event)
    requires DacInv(s) && (e.Fchmod? || e.Fchown?) && AttrGuard(s, e)
    ensures e.fd in s.descs.open && s.descs.open[e.fd].file in s.tree.files
  {
  }

  lemma MetaTargetExists(s: Dac, e: Event)
    requires DacInv(s) && Guard(s, e) && MetaTarget(s, e).Some?
    ensures MetaTarget(s, e).value in s.tree.files
  {
    if e.Fchmod? || e.Fchown? {
      OpenTargetExists(s, e);
    } else {
      NamedTargetExists(s, e);
    }
  }

  lemma ContentDomain(s: Ima, e: Event, h: Hashes)
    requires ImaTypes(s)
    ensures ContentAfter(s, e, h).Keys == FilesAfter(s.dac.tree, e)
  {
  }

  lemma MetaDomain(s: Ima, e: Event, h: Hashes)
    requires ImaTypes(s)
    requires MetaTarget(s.dac, e).Some? ==> MetaTarget(s.dac, e).value in s.Files()
    ensures MetaAfter(s, e, h).Keys == FilesAfter(s.dac.tree, e)
  {
  }

  lemma MeasuredDomains(s: Ima, e: Event, h: Hashes)
    requires ImaTypes(s)
    ensures ImaHashAfter(s, e, h).Keys <= FilesAfter(s.dac.tree, e)
    ensures EvmHashAfter(s, e, h).Keys <= FilesAfter(s.dac.tree, e)
  {
  }

  lemma ImmutableDomain(s: Ima, e: Event)
    requires ImaTypes(s)
    ensures ImmutableAfter(s, e) <= FilesAfter(s.dac.tree, e)
  {
  }

  lemma InitialImaHolds()
    ensures ImaInv(InitialIma()) && StrongInv(InitialIma().dac)
  {
    InitialIsStrong();
  }

  lemma TypesFollow(s: Ima, e: Event, h: Hashes, d: Dac)
    requires ImaTypes(s) && d.tree.files == FilesAfter(s.dac.tree, e)
    requires MetaTarget(s.dac, e).Some? ==> MetaTarget(s.dac, e).value in s.Files()
    ensures ImaTypes(Ima(d, ContentAfter(s, e, h), MetaAfter(s, e, h), ImmutableAfter(s, e),
                         ImaHashAfter(s, e, h), EvmHashAfter(s, e, h), s.imaMode, s.evmMode))
  {
    ContentDomain(s, e, h);
    MetaDomain(s, e, h);
    MeasuredDomains(s, e, h);
    ImmutableDomain(s, e);
  }

  lemma SysEventTypes(s: Ima, e: Event, h: Hashes)
    requires ImaInv(s) && ImaGuard(s, Sys(e, h))
    ensures ImaTypes(ApplyIma(s, Sys(e, h)))
  {
    hide DacInv;
    EveryEventSteps(s.dac, e);
    if MetaTarget(s.dac, e).Some? {
      MetaTargetExists(s.dac, e);
    }
    TypesFollow(s, e, h, Apply(s.dac, e));
  }

  lemma SysEventKeeps(s: Ima, e: Event, h: Hashes)
    requires ImaInv(s) && ImaGuard(s, Sys(e, h))
    ensures ImaInv(ApplyIma(s, Sys(e, h)))
    ensures Strength(s.dac) ==> Strength(ApplyIma(s, Sys(e, h)).dac)
  {
    hide DacInv, Strength;
    SysEventTypes(s, e, h);
    EveryEventKeepsInvariants(s.dac, e);
    if Strength(s.dac) {
      EveryEventKeepsStrength(s.dac, e);
    }
  }

  /** Every event of the refinement keeps all declared invariants; the arbitrary transition aside, it
      keeps the strengthened ones too. */
  lemma EveryImaEventKeeps(s: Ima, ie: ImaEvent)
    requires ImaInv(s) && ImaGuard(s, ie)
    ensures ImaInv(ApplyIma(s, ie))
    ensures Strength(s.dac) && !ie.AnyImaTransition? ==> Strength(ApplyIma(s, ie).dac)
  {
    hide DacInv, Strength;
    if ie.Sys? {
      SysEventKeeps(s, ie.e, ie.h);
    }
  }

  /** force_set_ima_evm_hash passes the current state with two hashes changed to the arbitrary
      transition: its guard admits that target. */
  lemma ForceSetIsAnyTransition(s: Ima, file: File, ima: Hash, evm: Hash)
    requires ImaInv(s) && file in s.Files()
    ensures ImaGuard(s, AnyImaTransition(s.(imaHash := s.imaHash[file := ima], evmHash := s.evmHash[file := evm])))
  {
    hide DacInv;
  }
}
