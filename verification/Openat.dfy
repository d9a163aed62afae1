/** openat with AT_FDCWD against open: openat leaves out the search of the folders above the working
    directory, and spells the caller's groups another way; nothing else differs. */
module Openat {
  import opened Context
  import opened DacState
  import opened Access
  import opened DacEvents
  import opened DacSafety
  import opened Ima

  /** The openat call that means what the open call `e` means, seen from the working directory. */
  function ViaCwd(e: Event, cwd: File): Event
    requires e.OpenExists? || e.OpenCreate?
  {
    if e.OpenExists? then
      OpenatExists(e.proc, AT_FDCWD, e.parent, e.file, e.name, e.flags, e.fd, e.fdNumber, cwd)
    else
      OpenatCreate(e.proc, AT_FDCWD, e.parent, e.file, e.name, e.flags, e.mode, e.fd, e.fdNumber, cwd,
                   e.group, e.perms)
  }

  /** The caller works in a folder at or above the parent of the file to open. */
  ghost predicate WorksAbove(s: Dac, e: Event)
    requires e.OpenExists? || e.OpenCreate?
  {
    && e.proc in s.procs.table && e.parent in s.tree.folders && e.parent in s.tree.pathToRoot
    && var cwd := s.procs.table[e.proc].cwd;
    && cwd in s.tree.folders && cwd in s.tree.pathToRoot[e.parent] + {e.parent}
  }

  /** The caller may search everything above its working directory. */
  ghost predicate MaySearchAboveCwd(s: Dac, proc: Proc)
    requires DacInv(s) && proc in s.procs.table && s.procs.table[proc].cwd in s.tree.folders
  {
    MaySearchByImage(s, proc, s.tree.pathToRoot[s.procs.table[proc].cwd])
  }

  lemma SearchSplits(s: Dac, proc: Proc, all: set<File>, above: set<File>)
    requires DacInv(s) && proc in s.procs.table && above <= all <= s.tree.files
    ensures MaySearchByRange(s, proc, all) <==>
      MaySearchByImage(s, proc, all - above) && MaySearchByImage(s, proc, above)
  {
    SameRights(s, proc, all);
    forall f | f in all
      ensures f in all - above || f in above
    {
    }
  }

  /** Everything above the working directory is above the parent, too. */
  lemma AboveCwdIsOnPath(s: Dac, e: Event)
    requires DacInv(s) && (e.OpenExists? || e.OpenCreate?) && WorksAbove(s, e)
    ensures s.tree.pathToRoot[s.procs.table[e.proc].cwd] <= s.tree.pathToRoot[e.parent] <= s.tree.files
  {
  }

  lemma OpenToOpenatExists(s: Dac, e: Event)
    requires DacInv(s) && e.OpenExists? && WorksAbove(s, e) && OpenExistsGuard(s, e)
    ensures OpenatExistsGuard(s, ViaCwd(e, s.procs.table[e.proc].cwd)) && MaySearchAboveCwd(s, e.proc)
  {
    var cwd := s.procs.table[e.proc].cwd;
    AboveCwdIsOnPath(s, e);
    SearchSplits(s, e.proc, s.tree.pathToRoot[e.parent] + {e.parent}, s.tree.pathToRoot[cwd]);
    SameRight(s, e.proc, e.file, {Read});
    SameRight(s, e.proc, e.file, {Write});
  }

  lemma OpenatToOpenExists(s: Dac, e: Event)
    requires DacInv(s) && e.OpenExists? && WorksAbove(s, e) && MaySearchAboveCwd(s, e.proc)
    requires OpenatExistsGuard(s, ViaCwd(e, s.procs.table[e.proc].cwd))
    ensures OpenExistsGuard(s, e)
  {
    var cwd := s.procs.table[e.proc].cwd;
    AboveCwdIsOnPath(s, e);
    SearchSplits(s, e.proc, s.tree.pathToRoot[e.parent] + {e.parent}, s.tree.pathToRoot[cwd]);
    SameRight(s, e.proc, e.file, {Read});
    SameRight(s, e.proc, e.file, {Write});
  }

  lemma OpenToOpenatCreate(s: Dac, e: Event)
    requires DacInv(s) && e.OpenCreate? && WorksAbove(s, e) && OpenCreateGuard(s, e)
    ensures OpenatCreateGuard(s, ViaCwd(e, s.procs.table[e.proc].cwd)) && MaySearchAboveCwd(s, e.proc)
  {
    var cwd := s.procs.table[e.proc].cwd;
    AboveCwdIsOnPath(s, e);
    SearchSplits(s, e.proc, s.tree.pathToRoot[e.parent], s.tree.pathToRoot[cwd]);
    SameRight(s, e.proc, e.parent, {Write, Execute});
  }

  lemma OpenatToOpenCreate(s: Dac, e: Event)
    requires DacInv(s) && e.OpenCreate? && WorksAbove(s, e) && MaySearchAboveCwd(s, e.proc)
    requires OpenatCreateGuard(s, ViaCwd(e, s.procs.table[e.proc].cwd))
    ensures OpenCreateGuard(s, e)
  {
    var cwd := s.procs.table[e.proc].cwd;
    AboveCwdIsOnPath(s, e);
    SearchSplits(s, e.proc, s.tree.pathToRoot[e.parent], s.tree.pathToRoot[cwd]);
    SameRight(s, e.proc, e.parent, {Write, Execute});
  }

  lemma OpenExistsViaCwd(s: Dac, e: Event)
    requires DacInv(s) && e.OpenExists? && WorksAbove(s, e)
    ensures OpenExistsGuard(s, e) <==>
      OpenatExistsGuard(s, ViaCwd(e, s.procs.table[e.proc].cwd)) && MaySearchAboveCwd(s, e.proc)
  {
    if OpenExistsGuard(s, e) {
      OpenToOpenatExists(s, e);
    } else if OpenatExistsGuard(s, ViaCwd(e, s.procs.table[e.proc].cwd)) && MaySearchAboveCwd(s, e.proc) {
      OpenatToOpenExists(s, e);
    }
  }

  lemma OpenCreateViaCwd(s: Dac, e: Event)
    requires DacInv(s) && e.OpenCreate? && WorksAbove(s, e)
    ensures OpenCreateGuard(s, e) <==>
      OpenatCreateGuard(s, ViaCwd(e, s.procs.table[e.proc].cwd)) && MaySearchAboveCwd(s, e.proc)
  {
    if OpenCreateGuard(s, e) {
      OpenToOpenatCreate(s, e);
    } else if OpenatCreateGuard(s, ViaCwd(e, s.procs.table[e.proc].cwd)) && MaySearchAboveCwd(s, e.proc) {
      OpenatToOpenCreate(s, e);
    }
  }

  /** In every state, open is enabled exactly if the openat call is and the caller may search
      everything above its working directory. */
  lemma OpenIsOpenatPlusSearch(s: Dac, e: Event)
    requires DacInv(s) && (e.OpenExists? || e.OpenCreate?) && WorksAbove(s, e)
    ensures Guard(s, e) <==>
      Guard(s, ViaCwd(e, s.procs.table[e.proc].cwd)) && MaySearchAboveCwd(s, e.proc)
  {
    if e.OpenExists? {
      OpenExistsViaCwd(s, e);
    } else {
      OpenCreateViaCwd(s, e);
    }
  }

  lemma SameDacEffect(s: Dac, e: Event)
    requires DacInv(s) && (e.OpenExists? || e.OpenCreate?) && WorksAbove(s, e)
    requires FileGuard(s, e) && FileGuard(s, ViaCwd(e, s.procs.table[e.proc].cwd))
    ensures ApplyFile(s, e) == ApplyFile(s, ViaCwd(e, s.procs.table[e.proc].cwd))
  {
  }

  lemma SameHashEffect(s: Ima, e: Event, h: Hashes, cwd: File)
    requires e.OpenExists? || e.OpenCreate?
    ensures
      var at := ViaCwd(e, cwd);
      && ImaSysGuard(s, at, h) == ImaSysGuard(s, e, h)
      && ContentAfter(s, at, h) == ContentAfter(s, e, h) && MetaAfter(s, at, h) == MetaAfter(s, e, h)
      && ImaHashAfter(s, at, h) == ImaHashAfter(s, e, h) && EvmHashAfter(s, at, h) == EvmHashAfter(s, e, h)
      && ImmutableAfter(s, at) == ImmutableAfter(s, e)
  {
  }

  /** Where open is enabled, both lead to the same state, also in the refinement. */
  lemma SameEffect(s: Ima, e: Event, h: Hashes)
    requires ImaInv(s) && (e.OpenExists? || e.OpenCreate?) && WorksAbove(s.dac, e)
    requires ImaGuard(s, Sys(e, h))
    ensures
      var at := Sys(ViaCwd(e, s.dac.procs.table[e.proc].cwd), h);
      ImaGuard(s, at) && ApplyIma(s, at) == ApplyIma(s, Sys(e, h))
  {
    OpenIsOpenatPlusSearch(s.dac, e);
    SameDacEffect(s.dac, e);
    SameHashEffect(s, e, h, s.dac.procs.table[e.proc].cwd);
  }

  lemma ChdirEffect(s: Dac, proc: Proc, dir: File)
    requires DacInv(s) && Guard(s, Chdir(proc, dir))
    ensures Apply(s, Chdir(proc, dir)) == s.(procs := SetCwd(s.procs, proc, dir))
    ensures proc in s.procs.table && dir in s.tree.folders && dir in s.tree.pathToRoot
    ensures s.tree.pathToRoot[dir] + {dir} <= s.tree.files
    ensures MaySearchByImage(s, proc, s.tree.pathToRoot[dir] + {dir})
  {
  }

  /** A successful chdir leaves the caller with the right to search above its working directory. */
  lemma ChdirGrantsSearch(s: Dac, proc: Proc, dir: File)
    requires DacInv(s) && Guard(s, Chdir(proc, dir))
    ensures
      var s' := Apply(s, Chdir(proc, dir));
      && DacInv(s') && proc in s'.procs.table && s'.procs.table[proc].cwd == dir && dir in s'.tree.folders
      && MaySearchAboveCwd(s', proc)
  {
    hide DacInv;
    EveryEventKeepsInvariants(s, Chdir(proc, dir));
    ChdirEffect(s, proc, dir);
    var s' := Apply(s, Chdir(proc, dir));
    assert SubjectOf(s', proc) == SubjectOf(s, proc);
    forall f | f in s'.tree.pathToRoot[dir]
      ensures MayByImage(s', proc, f, {Execute})
    {
      assert MayByImage(s, proc, f, {Execute});
    }
  }

  lemma SameGuardsWithHashes(s: Ima, e: Event, h: Hashes)
    requires ImaInv(s) && (e.OpenExists? || e.OpenCreate?) && WorksAbove(s.dac, e) && MaySearchAboveCwd(s.dac, e.proc)
    ensures
      var at := Sys(ViaCwd(e, s.dac.procs.table[e.proc].cwd), h);
      ImaGuard(s, Sys(e, h)) <==> ImaGuard(s, at)
  {
    hide DacInv, Guard, ImaSysGuard;
    OpenIsOpenatPlusSearch(s.dac, e);
    SameHashEffect(s, e, h, s.dac.procs.table[e.proc].cwd);
  }

  /** Right after a successful chdir, open and openat with AT_FDCWD are enabled alike, in the refinement,
      and lead to the same state, hashes included. */
  lemma AfterChdirSame(s: Ima, dir: File, e: Event, h: Hashes, c: Hashes, s': Ima)
    requires ImaInv(s) && (e.OpenExists? || e.OpenCreate?) && ImaGuard(s, Sys(Chdir(e.proc, dir), c))
    requires s' == ApplyIma(s, Sys(Chdir(e.proc, dir), c)) && WorksAbove(s'.dac, e)
    ensures ImaInv(s')
    ensures ImaGuard(s', Sys(e, h)) <==> ImaGuard(s', Sys(ViaCwd(e, dir), h))
    ensures ImaGuard(s', Sys(e, h)) ==> ApplyIma(s', Sys(ViaCwd(e, dir), h)) == ApplyIma(s', Sys(e, h))
  {
    hide DacInv, WorksAbove, ImaSysGuard;
    EveryImaEventKeeps(s, Sys(Chdir(e.proc, dir), c));
    ChdirGrantsSearch(s.dac, e.proc, dir);
    SameGuardsWithHashes(s', e, h);
    if ImaGuard(s', Sys(e, h)) {
      SameEffect(s', e, h);
    }
  }
}
