/** The folder hierarchy of a state that satisfies the strengthened invariants: walking FileParents
    from a folder reaches ROOT through exactly PathToRoot, and names resolve as a function. */
module TreePaths {
  import opened Context
  import opened DacState
  import opened TreeInvariants

  /** w follows FileParents from w[0] up to ROOT. */
  ghost predicate IsWalk(t: Tree, w: seq<File>) {
    && |w| > 0
    && w[|w| - 1] == ROOT
    && (forall i :: 0 <= i < |w| - 1 ==> w[i] in t.folders && ParentOf(t, w[i], w[i + 1]))
  }

  ghost function AnEntry(t: Tree, f: File): (e: Entry)
    requires TreeInv(t) && f in t.files && f != ROOT
    ensures e in t.entries && e.file == f
  {
    assert HasName(t, f);
    var e :| e in t.entries && e.file == f;
    e
  }

  /** The walk of a folder, by recursion on the size of its cached index. */
  ghost function Up(t: Tree, f: File): (w: seq<File>)
    requires StrongTree(t) && f in t.folders
    ensures IsWalk(t, w) && w[0] == f
    ensures |w| == |t.pathToRoot[f]| + 1
    decreases |t.pathToRoot[f]|
  {
    if f == ROOT then [f]
    else
      var e := AnEntry(t, f);
      assert t.pathToRoot[f] == t.pathToRoot[e.parent] + {e.parent};
      assert ParentOf(t, f, e.parent);
      [f] + Up(t, e.parent)
  }

  lemma RootEndsWalk(t: Tree, w: seq<File>)
    requires TreeInv(t) && IsWalk(t, w)
    ensures w[0] == ROOT <==> |w| == 1
  {
    assert |w| > 1 ==> ParentOf(t, w[0], w[1]);
  }

  /** Any two walks of one folder are the same; no strengthening is needed. */
  lemma {:induction false} WalkUnique(t: Tree, v: seq<File>, w: seq<File>)
    requires TreeInv(t) && IsWalk(t, v) && IsWalk(t, w) && v[0] == w[0]
    ensures v == w
  {
    RootEndsWalk(t, v);
    RootEndsWalk(t, w);
    if v[0] != ROOT {
      assert v[1] == w[1];
      WalkUnique(t, v[1..], w[1..]);
      assert v == [v[0]] + v[1..] && w == [w[0]] + w[1..];
    }
  }

  /** A walk visits, after its start, exactly the cached ancestors of its start. */
  lemma {:induction false} WalkVisitsIndex(t: Tree, w: seq<File>)
    requires TreeInv(t) && IsWalk(t, w)
    ensures w[0] in t.folders && forall p :: p in t.pathToRoot[w[0]] <==> p in w[1..]
  {
    if |w| > 1 {
      WalkVisitsIndex(t, w[1..]);
      assert ParentOf(t, w[0], w[1]);
      var e :| e in t.entries && e.file == w[0] && e.parent == w[1];
      assert t.pathToRoot[w[0]] == t.pathToRoot[w[1]] + {w[1]};
      assert w[1..] == [w[1]] + w[1..][1..];
    }
  }

  /** A walk never comes back to a folder. */
  lemma WalkHasNoCycle(t: Tree, w: seq<File>)
    requires TreeInv(t) && IsWalk(t, w)
    ensures forall i, j :: 0 <= i < j < |w| ==> w[i] != w[j]
  {
    forall i, j | 0 <= i < j < |w|
      ensures w[i] != w[j]
    {
      if w[i] == w[j] {
        WalkUnique(t, w[i..], w[j..]);
      }
    }
  }

  /** From every folder there is exactly one walk; it reaches ROOT in |PathToRoot| steps, visits
      exactly PathToRoot, and never meets a folder twice. */
  lemma CachedIndexIsAncestorSet(t: Tree, f: File, w: seq<File>)
    requires StrongTree(t) && f in t.folders
    ensures IsWalk(t, w) && w[0] == f <==> w == Up(t, f)
    ensures |Up(t, f)| - 1 == |t.pathToRoot[f]|
    ensures forall p :: p in t.pathToRoot[f] <==> p in Up(t, f)[1..]
    ensures forall i, j :: 0 <= i < j < |Up(t, f)| ==> Up(t, f)[i] != Up(t, f)[j]
  {
    if IsWalk(t, w) && w[0] == f {
      WalkUnique(t, w, Up(t, f));
    }
    WalkVisitsIndex(t, Up(t, f));
    WalkHasNoCycle(t, Up(t, f));
  }

  ghost predicate EveryFolderWalks(t: Tree) {
    forall f :: f in t.folders ==> exists w :: IsWalk(t, w) && w[0] == f
  }

  /** The strengthening is exact: under the declared invariants, every folder walks up to ROOT if
      and only if no folder is its own cached ancestor. */
  lemma RootedIffEveryFolderWalks(t: Tree)
    requires TreeInv(t)
    ensures Rooted(t) <==> EveryFolderWalks(t)
  {
    if Rooted(t) {
      forall f | f in t.folders
        ensures exists w :: IsWalk(t, w) && w[0] == f
      {
        RootedWalk(t, f);
      }
    }
    if EveryFolderWalks(t) {
      forall f | f in t.folders
        ensures f !in t.pathToRoot[f]
      {
        var w :| IsWalk(t, w) && w[0] == f;
        WalkVisitsIndex(t, w);
        WalkHasNoCycle(t, w);
      }
    }
  }

  lemma {:induction false} RootedWalk(t: Tree, f: File)
    requires TreeInv(t) && Rooted(t) && f in t.folders
    ensures exists w :: IsWalk(t, w) && w[0] == f
    decreases |t.pathToRoot[f]|
  {
    if f == ROOT {
      assert IsWalk(t, [f]);
    } else {
      var e := AnEntry(t, f);
      assert t.pathToRoot[f] == t.pathToRoot[e.parent] + {e.parent};
      RootedWalk(t, e.parent);
      var w :| IsWalk(t, w) && w[0] == e.parent;
      assert ParentOf(t, f, e.parent);
      assert IsWalk(t, [f] + w) && ([f] + w)[0] == f;
    }
  }

  /** Two folders that contain each other: allowed by the declared invariants, cut off from ROOT. */
  function DetachedCycle(): Tree {
    var a, b := Inode(0, 1), Inode(0, 2);
    Tree({ROOT, a, b}, {ROOT, a, b}, {}, {Entry(a, b, "a"), Entry(b, a, "b")}, map[],
         map[ROOT := {}, a := {a, b}, b := {a, b}])
  }

  lemma DetachedCycleTypes()
    requires MAX_FILES >= 3
    ensures TreeTypes(DetachedCycle())
  {
  }

  lemma DetachedCycleIndex(f: File, p: File)
    requires f in DetachedCycle().folders && p in DetachedCycle().pathToRoot[f]
    ensures ParentOnPath(DetachedCycle(), f, p)
    ensures p in DetachedCycle().pathToRoot && DetachedCycle().pathToRoot[p] == DetachedCycle().pathToRoot[f]
  {
    var t := DetachedCycle();
    var c := if p == Inode(0, 1) then Inode(0, 2) else Inode(0, 1);
    assert Entry(Inode(0, 1), Inode(0, 2), "a") in t.entries && Entry(Inode(0, 2), Inode(0, 1), "b") in t.entries;
    assert ParentOf(t, c, p);
  }

  lemma DetachedCycleSteps(e: Entry)
    requires e in DetachedCycle().entries
    ensures e.file in DetachedCycle().folders && e.parent in DetachedCycle().folders
    ensures DetachedCycle().pathToRoot[e.file] == DetachedCycle().pathToRoot[e.parent] + {e.parent}
  {
  }

  lemma DetachedCyclePathIndex(t: Tree)
    requires TreeTypes(t) && t == DetachedCycle()
    ensures PathIndex(t)
  {
    forall f, p | f in t.folders && p in t.pathToRoot[f]
      ensures ParentOnPath(t, f, p) && t.pathToRoot[p] <= t.pathToRoot[f]
    {
      DetachedCycleIndex(f, p);
    }
    forall e | e in t.entries && e.file in t.folders
      ensures t.pathToRoot[e.file] == t.pathToRoot[e.parent] + {e.parent}
    {
      DetachedCycleSteps(e);
    }
    assert t.pathToRoot[ROOT] == {};
  }

  lemma DeclaredInvariantsAdmitCycle()
    requires MAX_FILES >= 3
    ensures TreeInv(DetachedCycle()) && UniqueNames(DetachedCycle()) && !Rooted(DetachedCycle())
  {
    DetachedCycleTypes();
    DetachedCyclePathIndex(DetachedCycle());
    assert Inode(0, 1) in DetachedCycle().pathToRoot[Inode(0, 1)];
  }

  // ---------- Names ----------

  /** The names, from ROOT downwards, lead to f. */
  ghost predicate ResolvesTo(t: Tree, names: seq<string>, f: File) {
    if names == [] then f == ROOT
    else
      exists e :: e in t.entries && e.file == f && e.name == names[|names| - 1]
        && ResolvesTo(t, names[..|names| - 1], e.parent)
  }

  /** The names of a folder, read off its walk. */
  ghost function NamePath(t: Tree, f: File): (names: seq<string>)
    requires StrongTree(t) && f in t.folders
    ensures |names| == |t.pathToRoot[f]|
    ensures ResolvesTo(t, names, f)
    decreases |t.pathToRoot[f]|
  {
    if f == ROOT then []
    else
      var e := AnEntry(t, f);
      assert t.pathToRoot[f] == t.pathToRoot[e.parent] + {e.parent};
      var up := NamePath(t, e.parent);
      assert (up + [e.name])[..|up|] == up;
      up + [e.name]
  }

  lemma {:induction false} ResolutionIsFunction(t: Tree, names: seq<string>, f: File, g: File)
    requires TreeInv(t) && UniqueNames(t) && ResolvesTo(t, names, f) && ResolvesTo(t, names, g)
    ensures f == g
  {
    if names != [] {
      var up := names[..|names| - 1];
      var d :| d in t.entries && d.file == f && d.name == names[|names| - 1] && ResolvesTo(t, up, d.parent);
      var e :| e in t.entries && e.file == g && e.name == names[|names| - 1] && ResolvesTo(t, up, e.parent);
      ResolutionIsFunction(t, up, d.parent, e.parent);
    }
  }

  lemma NamePathStep(t: Tree, e: Entry)
    requires StrongTree(t) && e in t.entries && e.file in t.folders
    ensures NamePath(t, e.file) == NamePath(t, e.parent) + [e.name]
  {
  }

  lemma {:induction false} FolderPathUnique(t: Tree, names: seq<string>, f: File)
    requires StrongTree(t) && f in t.folders && ResolvesTo(t, names, f)
    ensures names == NamePath(t, f)
  {
    hide NamePath, UniqueNames;
    if names != [] {
      var up := names[..|names| - 1];
      var d :| d in t.entries && d.file == f && d.name == names[|names| - 1] && ResolvesTo(t, up, d.parent);
      FolderPathUnique(t, up, d.parent);
      NamePathStep(t, d);
      assert names == up + [d.name];
    }
  }

  /** Resolving the name path of a folder returns that folder and nothing else, and no other path
      leads to it. */
  lemma FolderHasOnePath(t: Tree, f: File, names: seq<string>, g: File)
    requires StrongTree(t) && f in t.folders
    ensures ResolvesTo(t, names, f) <==> names == NamePath(t, f)
    ensures ResolvesTo(t, NamePath(t, f), g) <==> g == f
  {
    if ResolvesTo(t, names, f) {
      FolderPathUnique(t, names, f);
    }
    if ResolvesTo(t, NamePath(t, f), g) {
      ResolutionIsFunction(t, NamePath(t, f), f, g);
    }
  }

  ghost predicate Functional(t: Tree) {
    forall names, f, g :: ResolvesTo(t, names, f) && ResolvesTo(t, names, g) ==> f == g
  }

  /** Below folders that all hang under ROOT, resolution is a function exactly if no two files
      share a (parent, name) pair. */
  lemma UniqueNamesIffFunctional(t: Tree)
    requires TreeInv(t) && Rooted(t)
    ensures UniqueNames(t) <==> Functional(t)
  {
    if UniqueNames(t) {
      forall names, f, g | ResolvesTo(t, names, f) && ResolvesTo(t, names, g)
        ensures f == g
      {
        ResolutionIsFunction(t, names, f, g);
      }
    }
    if Functional(t) {
      forall d, e | d in t.entries && e in t.entries && d.parent == e.parent && d.name == e.name
        ensures d == e
      {
        var up := SomePath(t, d.parent);
        var names := up + [d.name];
        assert names[..|names| - 1] == up;
        assert ResolvesTo(t, names, d.file) && ResolvesTo(t, names, e.file);
      }
    }
  }

  lemma {:induction false} SomePath(t: Tree, f: File) returns (names: seq<string>)
    requires TreeInv(t) && Rooted(t) && f in t.folders
    ensures ResolvesTo(t, names, f)
    decreases |t.pathToRoot[f]|
  {
    if f == ROOT {
      names := [];
    } else {
      var e := AnEntry(t, f);
      assert t.pathToRoot[f] == t.pathToRoot[e.parent] + {e.parent};
      var up := SomePath(t, e.parent);
      names := up + [e.name];
      assert names[..|names| - 1] == up;
    }
  }
}
