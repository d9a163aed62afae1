/** What one event of the machine, arbitrary transitions aside, does to owner and group. */
module Owners {
  import opened Context
  import opened DacState
  import opened DacEvents
  import opened DacSteps
  import opened Ima
  import opened ImaRuns
  import opened Permissions

  datatype Owner = Owner(user: User, group: Group)

  function OwnerOf(a: Attrs, f: File): Owner
    requires f in a.meta
  {
    Owner(a.meta[f].user, a.meta[f].group)
  }

  predicate Chowns(e: Event) {
    e.Chown? || e.Fchown? || e.Fchownat?
  }

  /** FileUser(f) and FileGroup(f) after an event. */
  function OwnerAfter(s: Dac, e: Event, f: File): Option<Owner> {
    if Creates(e) && f == CreatedFile(e) then
      if e.proc !in s.procs.table then None
      else Some(Owner(s.procs.table[e.proc].user, if e.Symlink? then s.procs.table[e.proc].group else e.group))
    else if Chowns(e) && MetaTarget(s, e) == Some(f) then Some(Owner(e.owner, e.group))
    else if f in s.attrs.meta then Some(OwnerOf(s.attrs, f))
    else None
  }

  ghost predicate OwnersStep(s: Dac, e: Event, a: Attrs) {
    forall f :: f in a.meta ==> OwnerAfter(s, e, f) == Some(OwnerOf(a, f))
  }

  lemma OwnersOfNew(s: Dac, e: Event, a: Attrs, m: Meta)
    requires Creates(e) && e.proc in s.procs.table && a.meta == s.attrs.meta[CreatedFile(e) := m]
    requires m.user == s.procs.table[e.proc].user
    requires m.group == if e.Symlink? then s.procs.table[e.proc].group else e.group
    ensures OwnersStep(s, e, a)
  {
  }

  lemma OwnersOfTarget(s: Dac, e: Event, a: Attrs, f: File)
    requires Chowns(e) && MetaTarget(s, e) == Some(f) && f in a.meta && OwnerOf(a, f) == Owner(e.owner, e.group)
    requires a.meta == s.attrs.meta[f := a.meta[f]]
    ensures OwnersStep(s, e, a)
  {
  }

  lemma OwnersKept(s: Dac, e: Event, a: Attrs)
    requires !Creates(e) && !Chowns(e)
    requires forall f :: f in a.meta ==> f in s.attrs.meta && OwnerOf(a, f) == OwnerOf(s.attrs, f)
    ensures OwnersStep(s, e, a)
  {
  }

  lemma CreationOwners(s: Dac, e: Event)
    requires DacInv(s) && Creates(e) && FileGuard(s, e)
    ensures OwnersStep(s, e, ApplyFile(s, e).attrs)
  {
    hide DacInv, OwnersStep;
    OwnersOfNew(s, e, ApplyFile(s, e).attrs, ApplyFile(s, e).attrs.meta[CreatedFile(e)]);
  }

  lemma OtherFileOwners(s: Dac, e: Event)
    requires DacInv(s) && FileEvent(e) && !Creates(e) && FileGuard(s, e)
    ensures OwnersStep(s, e, ApplyFile(s, e).attrs)
  {
    hide DacInv, OwnersStep;
    OwnersKept(s, e, ApplyFile(s, e).attrs);
  }

  lemma ChownFamilyOwners(s: Dac, e: Event)
    requires DacInv(s) && Chowns(e) && AttrGuard(s, e)
    ensures OwnersStep(s, e, ApplyAttr(s, e).attrs)
  {
    hide OwnersStep;
    OwnersOfTarget(s, e, ApplyAttr(s, e).attrs, if e.Fchown? then s.descs.open[e.fd].file else e.file);
  }

  lemma OneFileKept(s: Dac, e: Event, a: Attrs, f: File)
    requires !Creates(e) && !Chowns(e) && f in s.attrs.meta && f in a.meta && OwnerOf(a, f) == OwnerOf(s.attrs, f)
    requires a.meta == s.attrs.meta[f := a.meta[f]]
    ensures OwnersStep(s, e, a)
  {
    OwnersKept(s, e, a);
  }

  lemma ChmodKeepsOwners(s: Dac, e: Event, f: File)
    requires (e.Chmod? || e.Fchmod? || e.Fchmodat?) && f in s.attrs.meta
    ensures OwnersStep(s, e, ChmodAttrs(s.attrs, f, e.mode, e.perms))
  {
    hide OwnersStep;
    OneFileKept(s, e, ChmodAttrs(s.attrs, f, e.mode, e.perms), f);
  }

  lemma ChmodFamilyOwners(s: Dac, e: Event)
    requires DacInv(s) && (e.Chmod? || e.Fchmod? || e.Fchmodat?) && AttrGuard(s, e)
    ensures OwnersStep(s, e, ApplyAttr(s, e).attrs)
  {
    hide OwnersStep, ChmodAttrs;
    ChmodKeepsOwners(s, e, if e.Fchmod? then s.descs.open[e.fd].file else e.file);
  }

  lemma SetxattrOwners(s: Dac, e: Event)
    requires DacInv(s) && e.Setxattr? && AttrGuard(s, e)
    ensures OwnersStep(s, e, ApplyAttr(s, e).attrs)
  {
    hide OwnersStep;
    OneFileKept(s, e, ApplyAttr(s, e).attrs, e.file);
  }

  lemma SetAclOwners(s: Dac, e: Event)
    requires e.SetAcl? && e.dacPermissions.Keys == s.attrs.meta.Keys
    ensures OwnersStep(s, e, AttrsWithAcl(s.attrs, e))
  {
    OwnersKept(s, e, AttrsWithAcl(s.attrs, e));
  }

  lemma AttrEventOwners(s: Dac, e: Event)
    requires DacInv(s) && AttrEvent(e) && AttrGuard(s, e)
    ensures OwnersStep(s, e, ApplyAttr(s, e).attrs)
  {
    hide DacInv, OwnersStep;
    if e.SetAcl? {
      SetAclOwners(s, e);
    } else if e.Setxattr? {
      SetxattrOwners(s, e);
    } else if Chowns(e) {
      ChownFamilyOwners(s, e);
    } else {
      ChmodFamilyOwners(s, e);
    }
  }

  lemma OtherEventOwners(s: Dac, e: Event)
    requires DacInv(s) && !FileEvent(e) && !AttrEvent(e) && !e.AnyTransition? && Guard(s, e)
    ensures OwnersStep(s, e, Apply(s, e).attrs)
  {
    hide DacInv, OwnersStep;
    OwnersKept(s, e, s.attrs);
  }

  /** Owner and group are set by creation, from the process and the event, and by the chown family, and
      otherwise stay as they are. */
  lemma EveryEventOwners(s: Dac, e: Event)
    requires DacInv(s) && Guard(s, e) && !e.AnyTransition?
    ensures OwnersStep(s, e, Apply(s, e).attrs)
  {
    hide DacInv, OwnersStep;
    if Creates(e) {
      CreationOwners(s, e);
    } else if FileEvent(e) {
      OtherFileOwners(s, e);
    } else if AttrEvent(e) {
      AttrEventOwners(s, e);
    } else {
      OtherEventOwners(s, e);
    }
  }

  // ---------- Runs ----------

  ghost predicate OwnersAt(ss: seq<Ima>, es: seq<ImaEvent>, i: int)
    requires 0 <= i < |es| < |ss|
  {
    && Shaped(ss[i]) && Shaped(ss[i + 1])
    && (es[i].Sys? ==> OwnersStep(ss[i].dac, es[i].e, ss[i + 1].dac.attrs))
  }

  ghost predicate OwnersRun(ss: seq<Ima>, es: seq<ImaEvent>) {
    && |ss| == |es| + 1
    && (forall i {:trigger OwnersAt(ss, es, i)} :: 0 <= i < |es| ==> OwnersAt(ss, es, i))
  }

  lemma OwnersOfSys(s: Ima, e: Event, h: Hashes)
    requires ImaInv(s) && ImaGuard(s, Sys(e, h))
    ensures OwnersStep(s.dac, e, ApplyIma(s, Sys(e, h)).dac.attrs)
  {
    hide DacInv, OwnersStep;
    EveryEventOwners(s.dac, e);
  }

  lemma RunIsOwnersRun(ss: seq<Ima>, es: seq<ImaEvent>)
    requires IsRun(ss, es)
    ensures OwnersRun(ss, es)
  {
    hide ImaInv, Shaped, OwnersStep;
    forall i | 0 <= i < |es|
      ensures OwnersAt(ss, es, i)
    {
      assert StepAt(ss, es, i);
      ShapedAfter(ss[i], es[i]);
      if es[i].Sys? {
        OwnersOfSys(ss[i], es[i].e, es[i].h);
      }
    }
  }
}
