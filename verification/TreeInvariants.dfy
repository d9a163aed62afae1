/** What every tree event keeps: the declared tree invariants, unique names, and the strengthening
    that rules out folder cycles detached from ROOT. */
module TreeInvariants {
  import opened Context
  import opened DacState
  import opened DacEvents

  /** No two files share a (parent, name) pair. */
  ghost predicate UniqueNames(t: Tree) {
    forall e1, e2 :: e1 in t.entries && e2 in t.entries && e1.parent == e2.parent && e1.name == e2.name
      ==> e1 == e2
  }

  /** No folder is its own ancestor. The declared invariants do not say this. */
  ghost predicate Rooted(t: Tree)
    requires t.pathToRoot.Keys == t.folders
  {
    forall f :: f in t.folders ==> f !in t.pathToRoot[f]
  }

  /** The strengthened tree invariant. */
  ghost predicate StrongTree(t: Tree) {
    TreeInv(t) && UniqueNames(t) && Rooted(t)
  }

  ghost predicate KeepsStrength(t: Tree, t': Tree)
    requires TreeInv(t) && TreeInv(t')
  {
    && (UniqueNames(t) ==> UniqueNames(t'))
    && (Rooted(t) ==> Rooted(t'))
  }

  /** Every file but ROOT has an entry; the added one serves the added file. */
  lemma EntriesCover(t: Tree, t': Tree, added: Entry)
    requires TreeTypes(t) && t'.entries == t.entries + {added} && t'.files == t.files + {added.file}
    ensures forall f {:trigger HasName(t', f)} :: f in t'.files && f != ROOT ==> HasName(t', f)
  {
    forall f | f in t'.files && f != ROOT
      ensures HasName(t', f)
    {
      if f == added.file {
        assert added in t'.entries;
      } else {
        assert HasName(t, f);
        var e :| e in t.entries && e.file == f;
        assert e in t'.entries;
      }
    }
  }

  /** New entries that do not touch old folders leave the ancestor index right. */
  lemma IndexSurvivesAdding(t: Tree, t': Tree)
    requires TreeInv(t) && TreeTypes(t')
    requires t'.folders == t.folders && t'.pathToRoot == t.pathToRoot && t.entries <= t'.entries
    requires forall e :: e in t'.entries && e.file in t.folders ==> e in t.entries
    ensures PathIndex(t')
  {
    forall f, p | f in t'.folders && p in t'.pathToRoot[f]
      ensures ParentOnPath(t', f, p)
    {
      assert ParentOnPath(t, f, p);
      var c :| c in t.pathToRoot[f] + {f} && ParentOf(t, c, p);
      var e :| e in t.entries && e.file == c && e.parent == p;
      assert e in t'.entries;
      assert ParentOf(t', c, p);
    }
  }

  /** open_create, openat_create: a new file. */
  lemma AddFileKeeps(t: Tree, file: File, parent: File, name: string)
    requires TreeInv(t) && parent in t.folders && file !in t.files && |t.files| < MAX_FILES
    requires NameFree(t, parent, name)
    ensures TreeInv(AddFile(t, file, parent, name)) && KeepsStrength(t, AddFile(t, file, parent, name))
  {
    var t' := AddFile(t, file, parent, name);
    EntriesCover(t, t', Entry(file, parent, name));
    assert TreeTypes(t');
    IndexSurvivesAdding(t, t');
  }

  /** symlink. */
  lemma AddSymLinkKeeps(t: Tree, file: File, parent: File, name: string, target: (File, string))
    requires TreeInv(t) && parent in t.folders && file !in t.files && |t.files| < MAX_FILES
    requires NameFree(t, parent, name)
    ensures
      var t' := AddSymLink(t, file, parent, name, target);
      TreeInv(t') && KeepsStrength(t, t')
  {
    var t' := AddSymLink(t, file, parent, name, target);
    AddFileKeeps(t, file, parent, name);
    EntriesCover(t, t', Entry(file, parent, name));
    LinksAreFree(AddFile(t, file, parent, name), t');
  }

  /** The tree invariants see of the link tables only their types. */
  lemma LinksAreFree(t: Tree, t': Tree)
    requires TreeInv(t) && TreeTypes(t')
    requires t' == t.(symLinks := t'.symLinks, fileLink := t'.fileLink)
    ensures TreeInv(t') && KeepsStrength(t, t')
  {
    IndexSurvivesAdding(t, t');
  }

  /** link: one more name for a file that is not a folder. */
  lemma AddNameKeeps(t: Tree, file: File, parent: File, name: string)
    requires TreeInv(t) && parent in t.folders && file in t.files - t.folders && NameFree(t, parent, name)
    ensures TreeInv(AddName(t, file, parent, name)) && KeepsStrength(t, AddName(t, file, parent, name))
  {
    var t' := AddName(t, file, parent, name);
    assert t'.files == t.files + {file};
    EntriesCover(t, t', Entry(file, parent, name));
    assert TreeTypes(t');
    IndexSurvivesAdding(t, t');
  }

  lemma AddFolderTypes(t: Tree, folder: File, parent: File, name: string)
    requires TreeInv(t) && parent in t.folders && folder !in t.files && |t.files| < MAX_FILES
    ensures TreeTypes(AddFolder(t, folder, parent, name))
  {
    EntriesCover(t, AddFolder(t, folder, parent, name), Entry(folder, parent, name));
  }

  lemma AddFolderParents(t: Tree, folder: File, parent: File, name: string, f: File, p: File)
    requires TreeInv(t) && parent in t.folders && folder !in t.files
    requires f in t.folders + {folder} && p in AddFolder(t, folder, parent, name).pathToRoot[f]
    ensures ParentOnPath(AddFolder(t, folder, parent, name), f, p)
  {
    var t' := AddFolder(t, folder, parent, name);
    var added := Entry(folder, parent, name);
    if f == folder && p == parent {
      assert added in t'.entries;
      assert ParentOf(t', folder, parent);
    } else {
      var from := if f == folder then parent else f;
      assert ParentOnPath(t, from, p);
      var c :| c in t.pathToRoot[from] + {from} && ParentOf(t, c, p);
      var e :| e in t.entries && e.file == c && e.parent == p;
      assert e in t'.entries;
      assert ParentOf(t', c, p);
    }
  }

  lemma AddFolderNesting(t: Tree, folder: File, parent: File, name: string, f: File, p: File)
    requires TreeInv(t) && parent in t.folders && folder !in t.files
    requires f in t.folders + {folder} && p in AddFolder(t, folder, parent, name).pathToRoot[f]
    ensures p in t.folders
    ensures
      var t' := AddFolder(t, folder, parent, name);
      t'.pathToRoot[p] <= t'.pathToRoot[f]
  {
  }

  lemma AddFolderSteps(t: Tree, folder: File, parent: File, name: string, e: Entry)
    requires TreeInv(t) && parent in t.folders && folder !in t.files
    requires e in AddFolder(t, folder, parent, name).entries && e.file in t.folders + {folder}
    ensures e.parent in t.folders
    ensures
      var t' := AddFolder(t, folder, parent, name);
      t'.pathToRoot[e.file] == t'.pathToRoot[e.parent] + {e.parent}
  {
  }

  lemma AddFolderAncestors(t: Tree, folder: File, parent: File, name: string)
    requires TreeInv(t) && parent in t.folders && folder !in t.files
    ensures
      var t' := AddFolder(t, folder, parent, name);
      && (forall f :: f in t'.folders ==> f in t'.pathToRoot && t'.pathToRoot[f] <= t.folders)
      && (forall f, p {:trigger p in t'.pathToRoot[f], t'.pathToRoot[p]} ::
            f in t'.folders && p in t'.pathToRoot[f] ==> t'.pathToRoot[p] <= t'.pathToRoot[f])
      && (forall f, p {:trigger ParentOnPath(t', f, p)} ::
            f in t'.folders && p in t'.pathToRoot[f] ==> ParentOnPath(t', f, p))
  {
    var t' := AddFolder(t, folder, parent, name);
    forall f, p | f in t'.folders && p in t'.pathToRoot[f]
      ensures ParentOnPath(t', f, p) && t'.pathToRoot[p] <= t'.pathToRoot[f]
    {
      AddFolderParents(t, folder, parent, name, f, p);
      AddFolderNesting(t, folder, parent, name, f, p);
    }
  }

  lemma AddFolderIndex(t: Tree, folder: File, parent: File, name: string)
    requires TreeInv(t) && parent in t.folders && folder !in t.files
    requires TreeTypes(AddFolder(t, folder, parent, name))
    ensures PathIndex(AddFolder(t, folder, parent, name))
  {
    var t' := AddFolder(t, folder, parent, name);
    AddFolderAncestors(t, folder, parent, name);
    forall e | e in t'.entries && e.file in t'.folders
      ensures t'.pathToRoot[e.file] == t'.pathToRoot[e.parent] + {e.parent}
    {
      AddFolderSteps(t, folder, parent, name, e);
    }
  }

  /** A pair of a new folder, under a free name. */
  lemma NewFolderNames(t: Tree, t': Tree, n: Entry)
    requires FolderOneEntry(t) && NameFree(t, n.parent, n.name) && forall e :: e in t.entries ==> e.file != n.file
    requires t'.entries == t.entries + {n} && t'.folders == t.folders + {n.file}
    ensures FolderOneEntry(t') && (UniqueNames(t) ==> UniqueNames(t'))
  {
  }

  lemma AddFolderStrength(t: Tree, folder: File, parent: File, name: string)
    requires TreeInv(t) && parent in t.folders && folder !in t.files && NameFree(t, parent, name)
    ensures
      var t' := AddFolder(t, folder, parent, name);
      && t'.pathToRoot.Keys == t'.folders
      && FolderOneEntry(t')
      && (UniqueNames(t) ==> UniqueNames(t'))
      && (Rooted(t) ==> Rooted(t'))
  {
    hide FolderOneEntry, UniqueNames, NameFree, PathIndex;
    var t' := AddFolder(t, folder, parent, name);
    NewFolderNames(t, t', Entry(folder, parent, name));
    assert folder !in t'.pathToRoot[folder];
  }

  /** mkdir: the index of the new folder extends that of its parent. */
  lemma AddFolderKeeps(t: Tree, folder: File, parent: File, name: string)
    requires TreeInv(t) && parent in t.folders && folder !in t.files && |t.files| < MAX_FILES
    requires NameFree(t, parent, name)
    ensures
      var t' := AddFolder(t, folder, parent, name);
      TreeInv(t') && KeepsStrength(t, t')
  {
    AddFolderTypes(t, folder, parent, name);
    AddFolderIndex(t, folder, parent, name);
    AddFolderStrength(t, folder, parent, name);
  }

  /** Losing an entry of no remaining folder leaves the ancestor index of the others right. */
  lemma IndexSurvivesRemoving(t: Tree, t': Tree, gone: Entry)
    requires TreeInv(t) && TreeTypes(t') && t'.folders <= t.folders
    requires t'.entries == t.entries - {gone} && gone.file !in t'.folders
    requires forall f :: f in t'.folders ==> t'.pathToRoot[f] == t.pathToRoot[f]
    requires gone.file in t.folders ==> forall f :: f in t'.folders ==> gone.file !in t.pathToRoot[f]
    ensures PathIndex(t')
  {
    forall f, p | f in t'.folders && p in t'.pathToRoot[f]
      ensures ParentOnPath(t', f, p)
    {
      assert ParentOnPath(t, f, p);
      var c :| c in t.pathToRoot[f] + {f} && ParentOf(t, c, p);
      var e :| e in t.entries && e.file == c && e.parent == p;
      assert e in t'.entries;
      assert ParentOf(t', c, p);
    }
  }

  lemma RemoveNameTypes(t: Tree, file: File, parent: File, name: string, files: set<File>)
    requires TreeInv(t) && file in t.files - t.folders && Entry(file, parent, name) in t.entries
    requires files == if OtherNames(t, file, parent, name) then {} else {file}
    ensures TreeTypes(RemoveName(t, file, parent, name, files))
  {
    var t' := RemoveName(t, file, parent, name, files);
    var gone := Entry(file, parent, name);
    forall f | f in t'.files && f != ROOT
      ensures HasName(t', f)
    {
      assert HasName(t, f);
      var e :| e in t.entries && e.file == f && e != gone;
      assert e in t'.entries;
    }
    SubsetCard(t'.files, t.files);
  }

  /** unlink: one name goes, and with the last name the file. */
  lemma RemoveNameKeeps(t: Tree, file: File, parent: File, name: string, files: set<File>)
    requires TreeInv(t) && file in t.files - t.folders && Entry(file, parent, name) in t.entries
    requires files == if OtherNames(t, file, parent, name) then {} else {file}
    ensures
      var t' := RemoveName(t, file, parent, name, files);
      TreeInv(t') && KeepsStrength(t, t')
  {
    RemoveNameTypes(t, file, parent, name, files);
    IndexSurvivesRemoving(t, RemoveName(t, file, parent, name, files), Entry(file, parent, name));
  }

  /** A folder without entries is nobody's ancestor. */
  lemma EmptyFolderIsNoAncestor(t: Tree, folder: File)
    requires TreeInv(t) && forall n :: n in t.entries ==> n.parent != folder
    ensures forall f :: f in t.folders ==> folder !in t.pathToRoot[f]
  {
    forall f | f in t.folders
      ensures folder !in t.pathToRoot[f]
    {
      assert folder in t.pathToRoot[f] ==> ParentOnPath(t, f, folder);
    }
  }

  lemma RemoveFolderTypes(t: Tree, folder: File, parent: File, name: string)
    requires TreeInv(t) && folder in t.folders && folder != ROOT && Entry(folder, parent, name) in t.entries
    requires forall n :: n in t.entries ==> n.parent != folder
    ensures TreeTypes(RemoveFolder(t, folder, parent, name))
  {
    var t' := RemoveFolder(t, folder, parent, name);
    EmptyFolderIsNoAncestor(t, folder);
    forall f | f in t'.files && f != ROOT
      ensures HasName(t', f)
    {
      assert HasName(t, f);
      var e :| e in t.entries && e.file == f;
      assert e in t'.entries;
    }
    SubsetCard(t'.files, t.files);
  }

  /** rmdir: only an empty folder goes. */
  lemma RemoveFolderKeeps(t: Tree, folder: File, parent: File, name: string)
    requires TreeInv(t) && folder in t.folders && folder != ROOT && Entry(folder, parent, name) in t.entries
    requires forall n :: n in t.entries ==> n.parent != folder
    ensures
      var t' := RemoveFolder(t, folder, parent, name);
      TreeInv(t') && KeepsStrength(t, t')
  {
    RemoveFolderTypes(t, folder, parent, name);
    EmptyFolderIsNoAncestor(t, folder);
    IndexSurvivesRemoving(t, RemoveFolder(t, folder, parent, name), Entry(folder, parent, name));
  }
}
