/** What holds in every state that a run from INITIALISATION reaches. */
module Reachable {
  import opened Context
  import opened DacState
  import opened DacEvents
  import opened DacSafety
  import opened TreeInvariants
  import opened TreePaths
  import opened ProcessTree
  import opened Ima
  import opened ImaRuns

  ghost predicate IsReachable(s: Ima) {
    exists ss, es :: IsRun(ss, es) && ss[0] == InitialIma() && ss[|es|] == s
  }

  lemma ReachableIsGood(s: Ima)
    requires IsReachable(s)
    ensures ImaInv(s) && StrongInv(s.dac)
  {
    var ss, es :| IsRun(ss, es) && ss[0] == InitialIma() && ss[|es|] == s;
    ReachableStatesAreGood(ss, es);
    assert GoodAt(ss, |es|);
  }

  /** The cached index is the ancestor set: w walks from f to ROOT only if it is the one walk of f,
      which has |PathToRoot(f)| steps, visits exactly PathToRoot(f), and meets no folder twice. */
  lemma ReachableIndex(s: Ima, f: File, w: seq<File>)
    requires IsReachable(s) && f in s.dac.tree.folders
    requires IsWalk(s.dac.tree, w) && w[0] == f
    ensures f in s.dac.tree.pathToRoot && |w| - 1 == |s.dac.tree.pathToRoot[f]|
    ensures forall p :: p in s.dac.tree.pathToRoot[f] <==> p in w[1..]
    ensures forall i, j :: 0 <= i < j < |w| ==> w[i] != w[j]
  {
    ReachableIsGood(s);
    CachedIndexIsAncestorSet(s.dac.tree, f, w);
  }

  /** Every folder has a walk and one name path, and a path of names leads to at most one file. */
  lemma ReachableNames(s: Ima, f: File, names: seq<string>, g: File, h: File)
    requires IsReachable(s) && f in s.dac.tree.folders
    ensures EveryFolderWalks(s.dac.tree)
    ensures exists path :: ResolvesTo(s.dac.tree, path, f)
    ensures ResolvesTo(s.dac.tree, names, g) && ResolvesTo(s.dac.tree, names, h) ==> g == h
    ensures forall path :: ResolvesTo(s.dac.tree, names, f) && ResolvesTo(s.dac.tree, path, f) ==> path == names
  {
    ReachableIsGood(s);
    var t := s.dac.tree;
    RootedIffEveryFolderWalks(t);
    assert ResolvesTo(t, NamePath(t, f), f);
    if ResolvesTo(t, names, g) && ResolvesTo(t, names, h) {
      ResolutionIsFunction(t, names, g, h);
    }
    forall path | ResolvesTo(t, names, f) && ResolvesTo(t, path, f)
      ensures path == names
    {
      FolderPathUnique(t, names, f);
      FolderPathUnique(t, path, f);
    }
  }

  /** The ProcParent chain of every process reaches INIT, is unique and has no cycle. */
  lemma ReachableProcesses(s: Ima, p: Proc)
    requires IsReachable(s) && p in s.dac.procs.table
    ensures exists c :: OnlyChain(s.dac.procs, p, c)
  {
    ReachableIsGood(s);
    ChainIsOnly(s.dac.procs, p);
  }

  /** Two descriptors of one process never share a number, and each has exactly one access mode. */
  lemma ReachableDescriptors(s: Ima, p: Proc, fd1: FD, fd2: FD)
    requires IsReachable(s) && Held(p, fd1) in s.dac.descs.procFDs && Held(p, fd2) in s.dac.descs.procFDs
    ensures fd1 in s.dac.descs.open && fd2 in s.dac.descs.open
    ensures s.dac.descs.open[fd1].number == s.dac.descs.open[fd2].number <==> fd1 == fd2
    ensures OneAccessMode(s.dac.descs.open[fd1].flags)
  {
    ReachableIsGood(s);
  }

  // ---------- Arbitrary transitions ----------

  /** A state like the initial one, but with two folders that are each other's parents. */
  ghost function CycleState(): Dac {
    var meta := Meta(DEF_FOLDER_PERMS, ROOT_USER, ROOT_GROUP, map[]);
    var files := DetachedCycle().files;
    Initial().(tree := DetachedCycle(),
               attrs := Attrs(map f | f in files :: meta, map[],
                              map f | f in files :: DEF_FOLDER_PERMS * GROUP_PERMISSIONS, map[], map[]))
  }

  lemma CycleAttrs()
    ensures AttrTypes(CycleState().attrs, DetachedCycle().files, Initial().accts.users, Initial().accts.groups)
    ensures AclInv(CycleState().attrs)
  {
  }

  lemma CycleProcs()
    ensures ProcInv(Initial().procs, Initial().accts, DetachedCycle())
    ensures DescInv(Initial().descs, Initial().procs.table.Keys, DetachedCycle().folders)
  {
    InitialProcs();
    assert HeldBy(Initial().descs, INIT) == {} && HeldFDs(Initial().descs) == {};
  }

  lemma CycleStateHolds()
    requires TreeInv(DetachedCycle())
    ensures DacInv(CycleState())
  {
    CycleAttrs();
    CycleProcs();
    InitialIsStrong();
    hide TreeInv, AttrTypes, AclInv, ProcInv, DescInv, DetachedCycle;
  }

  /** The declared invariants alone admit a state with folders that have no way to ROOT, and
      any_transition leads from the initial state to it; so the strengthened ones do not survive it. */
  lemma AnyTransitionAdmitsCycle()
    requires MAX_FILES >= 3
    ensures DacInv(Initial()) && DacInv(CycleState()) && Guard(Initial(), AnyTransition(CycleState()))
    ensures Apply(Initial(), AnyTransition(CycleState())) == CycleState()
    ensures !Rooted(CycleState().tree) && !StrongInv(CycleState())
  {
    InitialIsStrong();
    DeclaredInvariantsAdmitCycle();
    CycleStateHolds();
  }
}
