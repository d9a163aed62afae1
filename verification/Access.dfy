/** The access decision that almost every guard of src/DAC.bm repeats: a six-way disjunction over
    the permission bits and the ACL entries of a file. It is compared with the ordered algorithm
    of section "ACCESS CHECK ALGORITHM" of acl(5), with the empty-mask short cut that the comment
    at src/DAC.bm:239 describes. */
module Access {
  import opened Context
  import opened DacState

  datatype Right = Read | Write | Execute

  function UserBits(req: set<Right>): set<Permission> {
    (if Read in req then {UREAD} else {}) +
    (if Write in req then {UWRITE} else {}) +
    (if Execute in req then {UEXECUTE} else {})
  }

  function GroupBits(req: set<Right>): set<Permission> {
    (if Read in req then {GREAD} else {}) +
    (if Write in req then {GWRITE} else {}) +
    (if Execute in req then {GEXECUTE} else {})
  }

  function OtherBits(req: set<Right>): set<Permission> {
    (if Read in req then {OREAD} else {}) +
    (if Write in req then {OWRITE} else {}) +
    (if Execute in req then {OEXECUTE} else {})
  }

  /** What a decision about one file looks at: the caller's identity and the tables. */
  datatype Subject = Subject(user: User, group: Group, userGroups: set<(User, Group)>)

  function SubjectOf(s: Dac, proc: Proc): Subject
    requires proc in s.procs.table
  {
    Subject(s.procs.table[proc].user, s.procs.table[proc].group, s.accts.userGroups)
  }

  predicate InFileGroup(a: Attrs, c: Subject, f: File)
    requires f in a.meta
  {
    a.meta[f].group == c.group || (c.user, a.meta[f].group) in c.userGroups
  }

  /** The groups of the caller, written {ProcGroup} \/ ran(UserGroups) with a membership test:
      open_create grd19-20 and open_exists grd17-19. */
  function GroupsByRange(c: Subject): set<Group> {
    var all := {c.group} + (set ug | ug in c.userGroups :: ug.1);
    set g | g in all && (g == c.group || (c.user, g) in c.userGroups)
  }

  /** The groups of the caller, written {ProcGroup} \/ UserGroups[{ProcUser}]: all other guards. */
  function GroupsByImage(c: Subject): set<Group> {
    {c.group} + (set ug | ug in c.userGroups && ug.0 == c.user :: ug.1)
  }

  /** What the decision needs of the tables to be well defined: typing and ACL1 - ACL4. */
  ghost predicate Decidable(a: Attrs, f: File) {
    f in a.meta && AclInv(a)
  }

  // The six branches.

  ghost predicate OwnerBranch(a: Attrs, c: Subject, f: File, req: set<Right>)
    requires Decidable(a, f)
  {
    c.user == a.meta[f].user && UserBits(req) <= a.meta[f].perms
  }

  ghost predicate NoMaskOtherBranch(a: Attrs, c: Subject, f: File, req: set<Right>)
    requires Decidable(a, f)
  {
    && c.user != a.meta[f].user
    && (f !in a.maskACL || a.maskACL[f] == {})
    && !InFileGroup(a, c, f)
    && OtherBits(req) <= a.meta[f].perms
  }

  ghost predicate NamedUserBranch(a: Attrs, c: Subject, f: File, req: set<Right>)
    requires Decidable(a, f)
  {
    && c.user != a.meta[f].user
    && (f, c.user) in a.userACL && UserBits(req) <= a.userACL[(f, c.user)]
    && GroupBits(req) <= a.maskACL[f]
  }

  ghost predicate GroupEntryGrants(a: Attrs, f: File, g: Group, req: set<Right>)
    requires Decidable(a, f)
  {
    || ((f, g) in a.groupACL && GroupBits(req) <= a.groupACL[(f, g)])
    || (g == a.meta[f].group && f in a.groupObjACL && GroupBits(req) <= a.groupObjACL[f])
  }

  ghost predicate MaskedGroupBranch(a: Attrs, c: Subject, f: File, req: set<Right>, groups: set<Group>)
    requires Decidable(a, f)
  {
    && c.user != a.meta[f].user
    && (f, c.user) !in a.userACL
    && (exists g :: g in groups && GroupEntryGrants(a, f, g, req))
    && f in a.maskACL && GroupBits(req) <= a.maskACL[f]
  }

  ghost predicate PlainGroupBranch(a: Attrs, c: Subject, f: File, req: set<Right>)
    requires Decidable(a, f)
  {
    && c.user != a.meta[f].user
    && f !in a.maskACL
    && InFileGroup(a, c, f)
    && GroupBits(req) <= a.meta[f].perms
  }

  ghost predicate MaskedOtherBranch(a: Attrs, c: Subject, f: File, req: set<Right>, groups: set<Group>)
    requires Decidable(a, f)
  {
    && c.user != a.meta[f].user
    && f in a.maskACL && a.maskACL[f] != {}
    && (f, c.user) !in a.userACL
    && (forall g :: g in groups ==> (f, g) !in a.groupACL)
    && !InFileGroup(a, c, f)
    && OtherBits(req) <= a.meta[f].perms
  }

  /** The disjunction itself, over either spelling of the caller's groups. */
  ghost predicate SixWay(a: Attrs, c: Subject, f: File, req: set<Right>, groups: set<Group>)
    requires Decidable(a, f)
  {
    || OwnerBranch(a, c, f, req)
    || NoMaskOtherBranch(a, c, f, req)
    || NamedUserBranch(a, c, f, req)
    || MaskedGroupBranch(a, c, f, req, groups)
    || PlainGroupBranch(a, c, f, req)
    || MaskedOtherBranch(a, c, f, req, groups)
  }

  /** Ordered, first match decides. */
  ghost predicate FirstMatch(a: Attrs, c: Subject, f: File, req: set<Right>)
    requires Decidable(a, f)
  {
    if c.user == a.meta[f].user then
      UserBits(req) <= a.meta[f].perms
    else if f in a.maskACL && a.maskACL[f] != {} then
      if (f, c.user) in a.userACL then
        UserBits(req) <= a.userACL[(f, c.user)] && GroupBits(req) <= a.maskACL[f]
      else if InFileGroup(a, c, f) || exists g :: g in GroupsByImage(c) && (f, g) in a.groupACL then
        && (exists g :: g in GroupsByImage(c) && GroupEntryGrants(a, f, g, req))
        && GroupBits(req) <= a.maskACL[f]
      else
        OtherBits(req) <= a.meta[f].perms
    else if InFileGroup(a, c, f) then
      GroupBits(req) <= a.meta[f].perms
    else
      OtherBits(req) <= a.meta[f].perms
  }

  lemma SpellingsAgree(c: Subject)
    ensures GroupsByRange(c) == GroupsByImage(c)
  {
  }

  lemma BitsNonEmpty(req: set<Right>)
    requires req != {}
    ensures GroupBits(req) != {}
  {
    var r :| r in req;
    match r
    case Read => assert GREAD in GroupBits(req);
    case Write => assert GWRITE in GroupBits(req);
    case Execute => assert GEXECUTE in GroupBits(req);
  }

  lemma FileGroupIsCallers(a: Attrs, c: Subject, f: File)
    requires f in a.meta
    ensures InFileGroup(a, c, f) <==> a.meta[f].group in GroupsByImage(c)
  {
  }

  /** The guard of every event decides as the ordered algorithm does, for both spellings. */
  lemma SixWayIsFirstMatch(a: Attrs, c: Subject, f: File, req: set<Right>)
    requires Decidable(a, f) && req != {}
    ensures SixWay(a, c, f, req, GroupsByImage(c)) <==> FirstMatch(a, c, f, req)
    ensures SixWay(a, c, f, req, GroupsByRange(c)) <==> FirstMatch(a, c, f, req)
  {
    SpellingsAgree(c);
    BitsNonEmpty(req);
    FileGroupIsCallers(a, c, f);
    var groups := GroupsByImage(c);
    if c.user != a.meta[f].user && f in a.maskACL {
      assert a.maskACL[f] == a.meta[f].perms * GROUP_PERMISSIONS;
      if a.maskACL[f] == {} {
        // The group bits of the mode are those of the mask: none.
        assert GroupBits(req) <= GROUP_PERMISSIONS;
        assert !(GroupBits(req) <= a.meta[f].perms);
      } else if exists g :: g in groups && GroupEntryGrants(a, f, g, req) {
        var g :| g in groups && GroupEntryGrants(a, f, g, req);
        assert InFileGroup(a, c, f) || (f, g) in a.groupACL;
      }
    }
  }

  /** For a non-empty request no two branches hold together. */
  lemma BranchesExclusive(a: Attrs, c: Subject, f: File, req: set<Right>)
    requires Decidable(a, f) && req != {}
    ensures
      var g := GroupsByImage(c);
      var b := [OwnerBranch(a, c, f, req), NoMaskOtherBranch(a, c, f, req), NamedUserBranch(a, c, f, req),
                MaskedGroupBranch(a, c, f, req, g), PlainGroupBranch(a, c, f, req),
                MaskedOtherBranch(a, c, f, req, g)];
      forall i, j :: 0 <= i < j < 6 ==> !(b[i] && b[j])
  {
    BitsNonEmpty(req);
    FileGroupIsCallers(a, c, f);
    assert NoMaskOtherBranch(a, c, f, req) ==>
        !NamedUserBranch(a, c, f, req) && !MaskedGroupBranch(a, c, f, req, GroupsByImage(c));
    assert MaskedGroupBranch(a, c, f, req, GroupsByImage(c)) ==>
        !MaskedOtherBranch(a, c, f, req, GroupsByImage(c));
  }

  /** A granted request stays granted when it asks for less. */
  lemma GrantsAreMonotone(a: Attrs, c: Subject, f: File, req: set<Right>, less: set<Right>)
    requires Decidable(a, f) && less != {} && less <= req
    requires SixWay(a, c, f, req, GroupsByImage(c))
    ensures SixWay(a, c, f, less, GroupsByImage(c))
  {
    assert UserBits(less) <= UserBits(req) && GroupBits(less) <= GroupBits(req)
        && OtherBits(less) <= OtherBits(req);
    if MaskedGroupBranch(a, c, f, req, GroupsByImage(c)) {
      var g :| g in GroupsByImage(c) && GroupEntryGrants(a, f, g, req);
      assert GroupEntryGrants(a, f, g, less);
    }
  }

  // ---------- The forms the guards use ----------

  ghost predicate MayByImage(s: Dac, proc: Proc, f: File, req: set<Right>)
    requires DacInv(s) && proc in s.procs.table.Keys && f in s.tree.files
  {
    s.procs.table[proc].user != ROOT_USER ==>
      SixWay(s.attrs, SubjectOf(s, proc), f, req, GroupsByImage(SubjectOf(s, proc)))
  }

  ghost predicate MayByRange(s: Dac, proc: Proc, f: File, req: set<Right>)
    requires DacInv(s) && proc in s.procs.table.Keys && f in s.tree.files
  {
    s.procs.table[proc].user != ROOT_USER ==>
      SixWay(s.attrs, SubjectOf(s, proc), f, req, GroupsByRange(SubjectOf(s, proc)))
  }

  ghost predicate MaySearchByImage(s: Dac, proc: Proc, dirs: set<File>)
    requires DacInv(s) && proc in s.procs.table.Keys && dirs <= s.tree.files
  {
    forall f :: f in dirs ==> MayByImage(s, proc, f, {Execute})
  }

  ghost predicate MaySearchByRange(s: Dac, proc: Proc, dirs: set<File>)
    requires DacInv(s) && proc in s.procs.table.Keys && dirs <= s.tree.files
  {
    forall f :: f in dirs ==> MayByRange(s, proc, f, {Execute})
  }

  lemma SameRight(s: Dac, proc: Proc, f: File, req: set<Right>)
    requires DacInv(s) && proc in s.procs.table && f in s.tree.files
    ensures MayByImage(s, proc, f, req) <==> MayByRange(s, proc, f, req)
  {
    SpellingsAgree(SubjectOf(s, proc));
  }

  /** Both spellings give every process the same rights in every state. */
  lemma SameRights(s: Dac, proc: Proc, dirs: set<File>)
    requires DacInv(s) && proc in s.procs.table.Keys && dirs <= s.tree.files
    ensures forall f, req :: f in s.tree.files ==> (MayByImage(s, proc, f, req) <==> MayByRange(s, proc, f, req))
    ensures MaySearchByImage(s, proc, dirs) <==> MaySearchByRange(s, proc, dirs)
  {
    SpellingsAgree(SubjectOf(s, proc));
  }
}
