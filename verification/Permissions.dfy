/** What one event of the machine, arbitrary transitions aside, does to the permission bits. */
module Permissions {
  import opened Context
  import opened DacState
  import opened DacEvents
  import opened DacSteps
  import opened Ima
  import opened ImaRuns

  /** DACPermissions(f) after an event. */
  function PermsAfter(s: Dac, e: Event, f: File): set<Permission> {
    if Creates(e) && f == CreatedFile(e) then (if e.Symlink? then DEF_SYMLINK_PERMS else e.perms)
    else if MetaTarget(s, e) == Some(f) then e.perms
    else if e.SetAcl? && f in e.dacPermissions then e.dacPermissions[f]
    else if f in s.attrs.meta then s.attrs.meta[f].perms
    else {}
  }

  ghost predicate PermsStep(s: Dac, e: Event, a: Attrs) {
    forall f :: f in a.meta ==> a.meta[f].perms == PermsAfter(s, e, f)
  }

  lemma PermsOfNew(s: Dac, e: Event, a: Attrs, m: Meta)
    requires Creates(e) && a.meta == s.attrs.meta[CreatedFile(e) := m]
    requires m.perms == if e.Symlink? then DEF_SYMLINK_PERMS else e.perms
    ensures PermsStep(s, e, a)
  {
  }

  lemma PermsOfTarget(s: Dac, e: Event, a: Attrs, f: File)
    requires MetaTarget(s, e) == Some(f) && f in a.meta && a.meta[f].perms == e.perms
    requires a.meta == s.attrs.meta[f := a.meta[f]]
    ensures PermsStep(s, e, a)
  {
  }

  lemma PermsKept(s: Dac, e: Event, a: Attrs)
    requires !Creates(e) && MetaTarget(s, e) == None && !e.SetAcl?
    requires forall f :: f in a.meta ==> f in s.attrs.meta && a.meta[f].perms == s.attrs.meta[f].perms
    ensures PermsStep(s, e, a)
  {
  }

  lemma CreationPerms(s: Dac, e: Event)
    requires DacInv(s) && Creates(e) && FileGuard(s, e)
    ensures PermsStep(s, e, ApplyFile(s, e).attrs)
  {
    hide DacInv;
    PermsOfNew(s, e, ApplyFile(s, e).attrs, ApplyFile(s, e).attrs.meta[CreatedFile(e)]);
  }

  lemma OtherFilePerms(s: Dac, e: Event)
    requires DacInv(s) && FileEvent(e) && !Creates(e) && FileGuard(s, e)
    ensures PermsStep(s, e, ApplyFile(s, e).attrs)
  {
    hide DacInv;
    PermsKept(s, e, ApplyFile(s, e).attrs);
  }

  lemma ChmodFamilyPerms(s: Dac, e: Event)
    requires DacInv(s) && (e.Chmod? || e.Fchmod? || e.Fchmodat?) && AttrGuard(s, e)
    ensures PermsStep(s, e, ApplyAttr(s, e).attrs)
  {
    hide PermsStep;
    PermsOfTarget(s, e, ApplyAttr(s, e).attrs, if e.Fchmod? then s.descs.open[e.fd].file else e.file);
  }

  lemma ChownFamilyPerms(s: Dac, e: Event)
    requires DacInv(s) && (e.Chown? || e.Fchown? || e.Fchownat?) && AttrGuard(s, e)
    ensures PermsStep(s, e, ApplyAttr(s, e).attrs)
  {
    hide PermsStep;
    PermsOfTarget(s, e, ApplyAttr(s, e).attrs, if e.Fchown? then s.descs.open[e.fd].file else e.file);
  }

  lemma XattrKeepsPerms(s: Dac, e: Event)
    requires e.Setxattr? && e.file in s.attrs.meta
    ensures PermsStep(s, e, SetXattr(s.attrs, e.file, e.name, e.value))
  {
  }

  lemma SetxattrPerms(s: Dac, e: Event)
    requires DacInv(s) && e.Setxattr? && AttrGuard(s, e)
    ensures PermsStep(s, e, ApplyAttr(s, e).attrs)
  {
    hide PermsStep;
    XattrKeepsPerms(s, e);
  }

  lemma AttrEventPerms(s: Dac, e: Event)
    requires DacInv(s) && AttrEvent(e) && AttrGuard(s, e)
    ensures PermsStep(s, e, ApplyAttr(s, e).attrs)
  {
    hide DacInv, PermsStep;
    if e.SetAcl? {
      SetAclPerms(s, e);
    } else if e.Setxattr? {
      SetxattrPerms(s, e);
    } else if e.Chmod? || e.Fchmod? || e.Fchmodat? {
      ChmodFamilyPerms(s, e);
    } else {
      ChownFamilyPerms(s, e);
    }
  }

  lemma SetAclPerms(s: Dac, e: Event)
    requires e.SetAcl? && e.dacPermissions.Keys == s.attrs.meta.Keys
    ensures PermsStep(s, e, AttrsWithAcl(s.attrs, e))
  {
  }

  lemma OtherEventPerms(s: Dac, e: Event)
    requires ProcEvent(e) || AdminEvent(e)
    ensures PermsStep(s, e, s.attrs)
  {
    PermsKept(s, e, s.attrs);
  }

  lemma AttrsStay(s: Dac, e: Event)
    requires DacInv(s) && !FileEvent(e) && !AttrEvent(e) && !e.AnyTransition? && Guard(s, e)
    ensures Apply(s, e).attrs == s.attrs
  {
    hide DacInv;
  }

  /** Permissions are set by creation, by the chmod and chown families and by set_acl, and otherwise
      stay as they are. */
  lemma EveryEventPerms(s: Dac, e: Event)
    requires DacInv(s) && Guard(s, e) && !e.AnyTransition?
    ensures PermsStep(s, e, Apply(s, e).attrs)
  {
    hide DacInv, PermsStep;
    if Creates(e) {
      CreationPerms(s, e);
    } else if FileEvent(e) {
      OtherFilePerms(s, e);
    } else if AttrEvent(e) {
      AttrEventPerms(s, e);
    } else {
      AttrsStay(s, e);
      OtherEventPerms(s, e);
    }
  }

  // ---------- Runs ----------

  ghost predicate PermAt(ss: seq<Ima>, es: seq<ImaEvent>, i: int)
    requires 0 <= i < |es| < |ss|
  {
    && Shaped(ss[i]) && Shaped(ss[i + 1])
    && (es[i].Sys? ==> PermsStep(ss[i].dac, es[i].e, ss[i + 1].dac.attrs))
  }

  ghost predicate PermRun(ss: seq<Ima>, es: seq<ImaEvent>) {
    && |ss| == |es| + 1
    && (forall i {:trigger PermAt(ss, es, i)} :: 0 <= i < |es| ==> PermAt(ss, es, i))
  }

  lemma ShapedAfter(s: Ima, ie: ImaEvent)
    requires ImaInv(s) && ImaGuard(s, ie)
    ensures Shaped(s) && Shaped(ApplyIma(s, ie))
  {
    hide DacInv;
    GoodIsShaped(s);
    EveryImaEventKeeps(s, ie);
    GoodIsShaped(ApplyIma(s, ie));
  }

  lemma PermsOfSys(s: Ima, e: Event, h: Hashes)
    requires ImaInv(s) && ImaGuard(s, Sys(e, h))
    ensures PermsStep(s.dac, e, ApplyIma(s, Sys(e, h)).dac.attrs)
  {
    hide DacInv, PermsStep;
    EveryEventPerms(s.dac, e);
  }

  lemma PermStepOfRun(ss: seq<Ima>, es: seq<ImaEvent>, i: nat)
    requires IsRun(ss, es) && i < |es|
    ensures PermAt(ss, es, i)
  {
    hide ImaInv, Shaped, PermsStep;
    assert StepAt(ss, es, i);
    ShapedAfter(ss[i], es[i]);
    if es[i].Sys? {
      PermsOfSys(ss[i], es[i].e, es[i].h);
    }
  }

  lemma RunIsPermRun(ss: seq<Ima>, es: seq<ImaEvent>)
    requires IsRun(ss, es)
    ensures PermRun(ss, es)
  {
    forall i | 0 <= i < |es|
      ensures PermAt(ss, es, i)
    {
      PermStepOfRun(ss, es, i);
    }
  }
}
