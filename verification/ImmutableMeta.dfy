/** The mode and the owner of an immutable file. The guards of the refinement refuse the calls that name
    the file by path; the calls that name it by descriptor, and set_acl, they do not. */
module ImmutableMeta {
  import opened Context
  import opened DacState
  import opened DacEvents
  import opened DacSteps
  import opened Ima
  import opened ImaRuns
  import opened Permissions
  import opened Owners

  /** fchmod or fchown of a descriptor of f, or set_acl, with permissions that f does not have. */
  predicate RewritesPerms(s: Dac, ie: ImaEvent, f: File) {
    && ie.Sys? && f in s.attrs.meta
    && (|| ((ie.e.Fchmod? || ie.e.Fchown?) && DescFile(s, ie.e.fd) == Some(f) && ie.e.perms != s.attrs.meta[f].perms)
        || (ie.e.SetAcl? && f in ie.e.dacPermissions && ie.e.dacPermissions[f] != s.attrs.meta[f].perms))
  }

  /** fchown of a descriptor of f with an owner or a group that f does not have. */
  predicate RewritesOwner(s: Dac, ie: ImaEvent, f: File) {
    && ie.Sys? && f in s.attrs.meta
    && ie.e.Fchown? && DescFile(s, ie.e.fd) == Some(f) && Owner(ie.e.owner, ie.e.group) != OwnerOf(s.attrs, f)
  }

  predicate SamePerms(s: Dac, s': Dac, f: File) {
    f in s.attrs.meta && f in s'.attrs.meta && s'.attrs.meta[f].perms == s.attrs.meta[f].perms
  }

  predicate SameOwner(s: Dac, s': Dac, f: File) {
    f in s.attrs.meta && f in s'.attrs.meta && OwnerOf(s'.attrs, f) == OwnerOf(s.attrs, f)
  }

  lemma ImmutableSysMeta(s: Ima, e: Event, h: Hashes, s': Ima, f: File)
    requires ImaSysGuard(s, e, h) && PermsStep(s.dac, e, s'.dac.attrs) && OwnersStep(s.dac, e, s'.dac.attrs)
    requires f in s.immutable && f in s.dac.attrs.meta && f in s'.dac.attrs.meta && !(Creates(e) && CreatedFile(e) == f)
    ensures SamePerms(s.dac, s'.dac, f) <==> !RewritesPerms(s.dac, Sys(e, h), f)
    ensures SameOwner(s.dac, s'.dac, f) <==> !RewritesOwner(s.dac, Sys(e, h), f)
  {
    assert MetaTarget(s.dac, e) == Some(f) ==> e.Fchmod? || e.Fchown?;
  }

  lemma ImmutableMetaStep(s: Ima, ie: ImaEvent, s': Ima, f: File)
    requires StepFacts(s, ie, s') && f in s.immutable && f in s'.Files()
    requires ie.Sys? ==> PermsStep(s.dac, ie.e, s'.dac.attrs) && OwnersStep(s.dac, ie.e, s'.dac.attrs)
    ensures SamePerms(s.dac, s'.dac, f) <==> !RewritesPerms(s.dac, ie, f)
    ensures SameOwner(s.dac, s'.dac, f) <==> !RewritesOwner(s.dac, ie, f)
  {
    if ie.Sys? {
      ImmutableSysMeta(s, ie.e, ie.h, s', f);
    }
  }

  lemma ImmutableAt(ss: seq<Ima>, es: seq<ImaEvent>, f: File, n: nat)
    requires FactRun(ss, es) && n < |ss| && Shaped(ss[0]) && f in ss[0].immutable
    requires forall i :: 0 <= i < n ==> SomeEnforce(ss[i])
    ensures f in ss[n].immutable && f in ss[n].Files()
  {
    ImmutableOverFacts(ss, es, f, n);
  }

  /** One step of a segment in which the file is immutable. */
  lemma SegmentStep(ss: seq<Ima>, es: seq<ImaEvent>, f: File, i: nat)
    requires FactRun(ss, es) && PermRun(ss, es) && OwnersRun(ss, es) && i < |es|
    requires f in ss[i].immutable && f in ss[i + 1].Files()
    ensures SamePerms(ss[i].dac, ss[i + 1].dac, f) <==> !RewritesPerms(ss[i].dac, es[i], f)
    ensures SameOwner(ss[i].dac, ss[i + 1].dac, f) <==> !RewritesOwner(ss[i].dac, es[i], f)
  {
    assert FactsAt(ss, es, i) && PermAt(ss, es, i) && OwnersAt(ss, es, i);
    hide StepFacts, PermsStep, OwnersStep;
    ImmutableMetaStep(ss[i], es[i], ss[i + 1], f);
  }

  lemma SegmentSteps(ss: seq<Ima>, es: seq<ImaEvent>, f: File, n: nat)
    requires IsRun(ss, es) && GoodUpTo(ss, 0) && n < |ss| && f in ss[0].immutable
    requires forall i :: 0 <= i < n ==> SomeEnforce(ss[i])
    ensures forall i :: 0 <= i < n ==>
      (SamePerms(ss[i].dac, ss[i + 1].dac, f) <==> !RewritesPerms(ss[i].dac, es[i], f))
    ensures forall i :: 0 <= i < n ==>
      (SameOwner(ss[i].dac, ss[i + 1].dac, f) <==> !RewritesOwner(ss[i].dac, es[i], f))
    ensures forall i :: 0 <= i <= n ==> f in ss[i].dac.attrs.meta
  {
    hide StepAt, FactsAt, SamePerms, SameOwner, RewritesPerms, RewritesOwner, ImaInv;
    RunKeepsInvariants(ss, es);
    RunIsPermRun(ss, es);
    RunIsOwnersRun(ss, es);
    assert GoodAt(ss, 0);
    GoodIsShaped(ss[0]);
    forall i | 0 <= i <= n
      ensures f in ss[i].immutable && f in ss[i].Files() && f in ss[i].dac.attrs.meta
    {
      ImmutableAt(ss, es, f, i);
      assert GoodAt(ss, i);
      GoodIsShaped(ss[i]);
    }
    forall i | 0 <= i < n
      ensures SamePerms(ss[i].dac, ss[i + 1].dac, f) <==> !RewritesPerms(ss[i].dac, es[i], f)
      ensures SameOwner(ss[i].dac, ss[i + 1].dac, f) <==> !RewritesOwner(ss[i].dac, es[i], f)
    {
      SegmentStep(ss, es, f, i);
    }
  }

  lemma {:induction false} PermsAddUp(ss: seq<Ima>, f: File, n: nat)
    requires n < |ss| && f in ss[0].dac.attrs.meta
    requires forall i :: 0 <= i < n ==> SamePerms(ss[i].dac, ss[i + 1].dac, f)
    ensures SamePerms(ss[0].dac, ss[n].dac, f)
  {
    if n > 0 {
      PermsAddUp(ss, f, n - 1);
    }
  }

  lemma {:induction false} OwnersAddUp(ss: seq<Ima>, f: File, n: nat)
    requires n < |ss| && f in ss[0].dac.attrs.meta
    requires forall i :: 0 <= i < n ==> SameOwner(ss[i].dac, ss[i + 1].dac, f)
    ensures SameOwner(ss[0].dac, ss[n].dac, f)
  {
    if n > 0 {
      OwnersAddUp(ss, f, n - 1);
    }
  }

  /** While at least one of the modes is ENFORCE, the permissions of an immutable file stay throughout
      exactly if no fchmod, fchown or set_acl rewrites them ... */
  lemma ImmutablePermsStayIff(ss: seq<Ima>, es: seq<ImaEvent>, f: File, n: nat)
    requires IsRun(ss, es) && GoodUpTo(ss, 0) && n < |ss| && f in ss[0].immutable
    requires forall i :: 0 <= i < n ==> SomeEnforce(ss[i])
    ensures (forall i :: 0 <= i <= n ==> SamePerms(ss[0].dac, ss[i].dac, f)) <==>
      (forall i :: 0 <= i < n ==> !RewritesPerms(ss[i].dac, es[i], f))
  {
    hide StepAt, GoodAt, RewritesPerms;
    SegmentSteps(ss, es, f, n);
    if forall i :: 0 <= i < n ==> !RewritesPerms(ss[i].dac, es[i], f) {
      forall i | 0 <= i <= n
        ensures SamePerms(ss[0].dac, ss[i].dac, f)
      {
        PermsAddUp(ss, f, i);
      }
    }
    if forall i :: 0 <= i <= n ==> SamePerms(ss[0].dac, ss[i].dac, f) {
      forall i | 0 <= i < n
        ensures !RewritesPerms(ss[i].dac, es[i], f)
      {
        assert SamePerms(ss[0].dac, ss[i].dac, f) && SamePerms(ss[0].dac, ss[i + 1].dac, f);
        assert SamePerms(ss[i].dac, ss[i + 1].dac, f);
      }
    }
  }

  /** ... and owner and group exactly if no fchown rewrites them. */
  lemma ImmutableOwnerStaysIff(ss: seq<Ima>, es: seq<ImaEvent>, f: File, n: nat)
    requires IsRun(ss, es) && GoodUpTo(ss, 0) && n < |ss| && f in ss[0].immutable
    requires forall i :: 0 <= i < n ==> SomeEnforce(ss[i])
    ensures (forall i :: 0 <= i <= n ==> SameOwner(ss[0].dac, ss[i].dac, f)) <==>
      (forall i :: 0 <= i < n ==> !RewritesOwner(ss[i].dac, es[i], f))
  {
    hide StepAt, GoodAt, RewritesOwner;
    SegmentSteps(ss, es, f, n);
    if forall i :: 0 <= i < n ==> !RewritesOwner(ss[i].dac, es[i], f) {
      forall i | 0 <= i <= n
        ensures SameOwner(ss[0].dac, ss[i].dac, f)
      {
        OwnersAddUp(ss, f, i);
      }
    }
    if forall i :: 0 <= i <= n ==> SameOwner(ss[0].dac, ss[i].dac, f) {
      forall i | 0 <= i < n
        ensures !RewritesOwner(ss[i].dac, es[i], f)
      {
        assert SameOwner(ss[0].dac, ss[i].dac, f) && SameOwner(ss[0].dac, ss[i + 1].dac, f);
        assert SameOwner(ss[i].dac, ss[i + 1].dac, f);
      }
    }
  }
}
