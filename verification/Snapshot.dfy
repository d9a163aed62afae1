/** SnapshotBuilder of testing/initialiser.py: the lists of files and folders to gather. */
module Snapshot {
  import opened Context
  import opened PosixPath

  datatype Lists = Lists(files: seq<string>, dirs: seq<string>)

  datatype BuilderCall = AddFile(path: string) | AddDir(path: string)

  /** Append what is not there yet, in order. */
  function AddMissing(dirs: seq<string>, ps: seq<string>): seq<string>
    decreases |ps|
  {
    if ps == [] then dirs
    else AddMissing(if ps[0] in dirs then dirs else dirs + [ps[0]], ps[1..])
  }

  /** On "//..." the loop of add_file and add_dir does not end; see DoubleSlashIsStuck. */
  predicate Terminates(path: string) {
    IsAbs(path) ==> SingleRooted(path)
  }

  function StatusOf(l: Lists, c: BuilderCall): Status {
    if !IsAbs(c.path) then ValueError
    else match c
      case AddFile(path) => if path in l.files then ValueError else Ok
      case AddDir(path) => if path in l.dirs then ValueError else Ok
  }

  /** The lists after a call; a call that raises changes nothing. */
  function After(l: Lists, c: BuilderCall): Lists
    requires Terminates(c.path)
  {
    if StatusOf(l, c) != Ok then l
    else match c
      case AddFile(path) => Lists(l.files + [path], AddMissing(l.dirs, Parents(path)))
      case AddDir(path) => Lists(l.files, AddMissing(l.dirs + [path], Parents(path)))
  }

  class SnapshotBuilder {
    var initFiles: seq<string>
    var initDirs: seq<string>

    function View(): Lists
      reads this
    {
      Lists(initFiles, initDirs)
    }

    constructor ()
      ensures View() == Lists([], [])
    {
      initFiles, initDirs := [], [];
    }

    method AddMissingParents(path: string)
      requires SingleRooted(path)
      modifies this`initDirs
      ensures initDirs == AddMissing(old(initDirs), Parents(path))
    {
      var p := path;
      while true
        invariant SingleRooted(p)
        invariant AddMissing(initDirs, Parents(p)) == AddMissing(old(initDirs), Parents(path))
        decreases |p|
      {
        DirnameShortens(p);
        ghost var ps := Parents(p);
        p := Dirname(p);
        if p == "/" {
          break;
        }
        assert ps[0] == p && ps[1..] == Parents(p);
        if p !in initDirs {
          initDirs := initDirs + [p];
        }
      }
    }

    method Add(c: BuilderCall) returns (r: Status)
      requires Terminates(c.path)
      modifies this
      ensures r == StatusOf(old(View()), c)
      ensures View() == After(old(View()), c)
    {
      if !IsAbs(c.path) {
        return ValueError;
      }
      match c {
        case AddFile(path) =>
          if path in initFiles {
            return ValueError;
          }
          initFiles := initFiles + [path];
          AddMissingParents(path);
        case AddDir(path) =>
          if path in initDirs {
            return ValueError;
          }
          initDirs := initDirs + [path];
          AddMissingParents(path);
      }
      return Ok;
    }

    /** The sort in make_text_of_gatherinfo_file. */
    method SortDirs()
      modifies this`initDirs
      ensures initDirs == SortLex(old(initDirs))
    {
      var sorted := [];
      for i := |initDirs| downto 0
        invariant initDirs == old(initDirs)
        invariant sorted == SortLex(initDirs[i..])
      {
        assert initDirs[i..][1..] == initDirs[i + 1..];
        sorted := InsertLex(initDirs[i], sorted);
      }
      initDirs := sorted;
    }
  }

  // ---------- What the lists satisfy ----------

  ghost predicate NoDuplicates(s: seq<string>) {
    forall i, j :: 0 <= i < j < |s| ==> s[i] != s[j]
  }

  /** The folder of p is the root or listed. */
  predicate FolderListed(p: string, dirs: seq<string>) {
    Dirname(p) == "/" || Dirname(p) in dirs
  }

  ghost predicate WellBuilt(l: Lists) {
    && NoDuplicates(l.dirs) && NoDuplicates(l.files)
    && (forall p :: p in l.dirs ==> SingleRooted(p) && FolderListed(p, l.dirs))
    && (forall p :: p in l.files ==> SingleRooted(p) && FolderListed(p, l.dirs))
  }

  lemma {:induction false} AddMissingContents(dirs: seq<string>, ps: seq<string>)
    ensures forall x :: x in AddMissing(dirs, ps) <==> x in dirs || x in ps
    ensures NoDuplicates(dirs) ==> NoDuplicates(AddMissing(dirs, ps))
    decreases |ps|
  {
    if ps != [] {
      AddMissingContents(if ps[0] in dirs then dirs else dirs + [ps[0]], ps[1..]);
      assert ps == [ps[0]] + ps[1..];
    }
  }

  lemma {:induction false} ParentsAreClosed(p: string)
    requires SingleRooted(p)
    ensures FolderListed(p, Parents(p))
    ensures forall d :: d in Parents(p) ==> SingleRooted(d) && FolderListed(d, Parents(p))
    decreases |p|
  {
    DirnameShortens(p);
    if Dirname(p) != "/" {
      ParentsAreClosed(Dirname(p));
      assert Parents(p) == [Dirname(p)] + Parents(Dirname(p));
      forall d | d in Parents(p)
        ensures SingleRooted(d) && FolderListed(d, Parents(p))
      {
        assert d == Dirname(p) || d in Parents(Dirname(p));
        assert FolderListed(d, Parents(Dirname(p)));
      }
    }
  }

  /** Every call keeps the folder list free of duplicates and closed under dirname, and adds no more
      than the path and its folders. */
  lemma CallKeepsWellBuilt(l: Lists, c: BuilderCall)
    requires WellBuilt(l) && Terminates(c.path)
    ensures WellBuilt(After(l, c))
    ensures StatusOf(l, c) == Ok ==> forall x :: x in After(l, c).dirs <==>
      x in l.dirs || x in Parents(c.path) || (c.AddDir? && x == c.path)
  {
    if StatusOf(l, c) == Ok {
      var dirs := if c.AddDir? then l.dirs + [c.path] else l.dirs;
      var l' := After(l, c);
      AddMissingContents(dirs, Parents(c.path));
      ParentsAreClosed(c.path);
      forall p | p in l'.dirs || p in l'.files
        ensures SingleRooted(p) && FolderListed(p, l'.dirs)
      {
        assert p in l.dirs || p in l.files || p == c.path || p in Parents(c.path);
      }
    }
  }

  ghost function AfterAll(calls: seq<BuilderCall>): Lists
    requires forall c :: c in calls ==> Terminates(c.path)
  {
    if calls == [] then Lists([], [])
    else After(AfterAll(calls[..|calls| - 1]), calls[|calls| - 1])
  }

  /** So do all sequences of calls, whether the calls succeed or raise. */
  lemma {:induction false} BuiltListsAreWell(calls: seq<BuilderCall>)
    requires forall c :: c in calls ==> Terminates(c.path)
    ensures WellBuilt(AfterAll(calls))
  {
    if calls != [] {
      BuiltListsAreWell(calls[..|calls| - 1]);
      CallKeepsWellBuilt(AfterAll(calls[..|calls| - 1]), calls[|calls| - 1]);
    }
  }

  // ---------- Sorting puts parents first ----------

  function InsertLex(x: string, s: seq<string>): seq<string> {
    if s == [] || LexLeq(x, s[0]) then [x] + s else [s[0]] + InsertLex(x, s[1..])
  }

  function SortLex(s: seq<string>): seq<string> {
    if s == [] then [] else InsertLex(s[0], SortLex(s[1..]))
  }

  ghost predicate LexSorted(s: seq<string>) {
    forall i, j :: 0 <= i < j < |s| ==> LexLeq(s[i], s[j])
  }

  lemma {:induction false} InsertLexSorted(x: string, s: seq<string>)
    requires LexSorted(s)
    ensures LexSorted(InsertLex(x, s)) && multiset(InsertLex(x, s)) == multiset(s) + multiset{x}
  {
    if s != [] {
      assert s == [s[0]] + s[1..];
      if LexLeq(x, s[0]) {
        forall j | 0 <= j < |s|
          ensures LexLeq(x, s[j])
        {
          if j > 0 {
            LexTransitive(x, s[0], s[j]);
          }
        }
      } else {
        LexTotal(x, s[0]);
        InsertLexSorted(x, s[1..]);
        var t := InsertLex(x, s[1..]);
        forall j | 0 <= j < |t|
          ensures LexLeq(s[0], t[j])
        {
          assert t[j] in multiset(t);
          assert t[j] == x || t[j] in s[1..];
        }
      }
    }
  }

  lemma {:induction false} SortLexSorts(s: seq<string>)
    ensures LexSorted(SortLex(s)) && multiset(SortLex(s)) == multiset(s)
  {
    if s != [] {
      SortLexSorts(s[1..]);
      InsertLexSorted(s[0], SortLex(s[1..]));
      assert s == [s[0]] + s[1..];
    }
  }

  lemma SortLexKeepsMembers(s: seq<string>)
    ensures forall x :: x in SortLex(s) <==> x in s
    ensures NoDuplicates(s) ==> NoDuplicates(SortLex(s))
  {
    SortLexSorts(s);
    forall x
      ensures x in SortLex(s) <==> x in s
    {
      assert x in multiset(SortLex(s)) <==> x in multiset(s);
    }
    if NoDuplicates(s) {
      NoDuplicatesMeansOnce(s);
      OnceMeansNoDuplicates(SortLex(s));
    }
  }

  lemma {:induction false} NoDuplicatesMeansOnce(s: seq<string>)
    requires NoDuplicates(s)
    ensures forall x :: multiset(s)[x] <= 1
  {
    if s != [] {
      NoDuplicatesMeansOnce(s[1..]);
      assert s == [s[0]] + s[1..];
      assert s[0] !in s[1..];
    }
  }

  lemma {:induction false} OnceMeansNoDuplicates(s: seq<string>)
    requires forall x :: multiset(s)[x] <= 1
    ensures NoDuplicates(s)
  {
    if s != [] {
      assert s == [s[0]] + s[1..];
      forall x
        ensures multiset(s[1..])[x] <= 1
      {
        assert multiset(s)[x] >= multiset(s[1..])[x];
      }
      OnceMeansNoDuplicates(s[1..]);
      assert multiset(s)[s[0]] == 1 + multiset(s[1..])[s[0]];
      assert s[0] !in s[1..];
    }
  }

  /** Every listed folder comes after its own folder. */
  ghost predicate ParentsFirst(dirs: seq<string>) {
    forall i :: 0 <= i < |dirs| ==> FolderListed(dirs[i], dirs[..i])
  }

  /** In a sorted list a folder's own folder stands before it. */
  lemma ParentStandsBefore(dirs: seq<string>, i: nat)
    requires LexSorted(dirs) && i < |dirs| && SingleRooted(dirs[i]) && FolderListed(dirs[i], dirs)
    ensures FolderListed(dirs[i], dirs[..i])
  {
    var d := dirs[i];
    DirnameShortens(d);
    if Dirname(d) != "/" {
      var j :| 0 <= j < |dirs| && dirs[j] == Dirname(d);
      PrefixIsLexLeq(Dirname(d), d);
      if j > i {
        LexAntisymmetric(d, dirs[j]);
      }
      assert dirs[..i][j] == Dirname(d);
    }
  }

  /** What sorting the folder list is for: the list stays complete and free of duplicates, and each
      folder follows the folder it is in. */
  lemma SortingPutsParentsFirst(l: Lists)
    requires WellBuilt(l)
    ensures ParentsFirst(SortLex(l.dirs))
    ensures WellBuilt(l.(dirs := SortLex(l.dirs)))
  {
    var dirs := SortLex(l.dirs);
    SortLexSorts(l.dirs);
    SortLexKeepsMembers(l.dirs);
    forall p | SingleRooted(p) && FolderListed(p, l.dirs)
      ensures FolderListed(p, dirs)
    {
    }
    forall i | 0 <= i < |dirs|
      ensures FolderListed(dirs[i], dirs[..i])
    {
      assert dirs[i] in l.dirs;
      ParentStandsBefore(dirs, i);
    }
  }
}
