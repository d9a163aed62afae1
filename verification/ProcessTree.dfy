/** The process hierarchy: across fork, login and exit with reparenting, the ProcParent chain of
    every process ends in INIT and never meets a process twice. */
module ProcessTree {
  import opened Context
  import opened DacState
  import opened DacEvents

  /** c walks ProcParent from c[0] to INIT. */
  ghost predicate IsChain(p: Procs, c: seq<Proc>) {
    && |c| > 0
    && c[|c| - 1] == INIT
    && (forall i :: 0 <= i < |c| - 1 ==> c[i] in p.parent && p.parent[c[i]] == c[i + 1])
  }

  ghost predicate ReachesInit(p: Procs, q: Proc) {
    exists c :: IsChain(p, c) && c[0] == q
  }

  ghost predicate Forest(p: Procs) {
    forall q {:trigger ReachesInit(p, q)} :: q in p.table ==> ReachesInit(p, q)
  }

  /** The chain of a process is unique. */
  lemma {:induction false} ChainUnique(p: Procs, c: seq<Proc>, d: seq<Proc>)
    requires INIT !in p.parent && IsChain(p, c) && IsChain(p, d) && c[0] == d[0]
    ensures c == d
  {
    if |c| > 1 && |d| > 1 {
      ChainUnique(p, c[1..], d[1..]);
      assert c == [c[0]] + c[1..] && d == [d[0]] + d[1..];
    }
  }

  /** A chain meets no process twice. */
  lemma ChainHasNoCycle(p: Procs, c: seq<Proc>)
    requires INIT !in p.parent && IsChain(p, c)
    ensures forall i, j :: 0 <= i < j < |c| ==> c[i] != c[j]
  {
    forall i, j | 0 <= i < j < |c|
      ensures c[i] != c[j]
    {
      if c[i] == c[j] {
        ChainUnique(p, c[i..], c[j..]);
      }
    }
  }

  /** c is the chain of q: the only one, and without a cycle. */
  ghost predicate OnlyChain(p: Procs, q: Proc, c: seq<Proc>) {
    && IsChain(p, c) && c[0] == q
    && (forall i, j :: 0 <= i < j < |c| ==> c[i] != c[j])
    && (forall d :: IsChain(p, d) && d[0] == q ==> d == c)
  }

  lemma ChainIsOnly(p: Procs, q: Proc)
    requires INIT !in p.parent && ReachesInit(p, q)
    ensures exists c :: OnlyChain(p, q, c)
  {
    var c :| IsChain(p, c) && c[0] == q;
    ChainHasNoCycle(p, c);
    forall d | IsChain(p, d) && d[0] == q
      ensures d == c
    {
      ChainUnique(p, c, d);
    }
    assert OnlyChain(p, q, c);
  }

  lemma NewChild(p: Procs, p': Procs, parent: Proc, child: Proc)
    requires Forest(p) && parent in p.table && child !in p.table && INIT in p.table
    requires p.parent.Keys == p.table.Keys - {INIT} && p'.table.Keys == p.table.Keys + {child}
    requires p'.parent == p.parent[child := parent]
    ensures Forest(p')
  {
    forall q | q in p'.table
      ensures ReachesInit(p', q)
    {
      assert ReachesInit(p, if q == child then parent else q);
      var c :| IsChain(p, c) && c[0] == if q == child then parent else q;
      forall i | 0 <= i < |c| - 1
        ensures c[i] in p'.parent && p'.parent[c[i]] == c[i + 1]
      {
        assert c[i] in p.parent;
      }
      if q == child {
        assert IsChain(p', [child] + c);
        assert ([child] + c)[0] == q;
      } else {
        assert IsChain(p', c);
      }
    }
  }

  lemma ForkKeepsForest(p: Procs, users: set<User>, groups: set<Group>, proc: Proc, newProc: Proc)
    requires ProcTypes(p, users, groups) && Forest(p) && proc in p.table && newProc !in p.table
    ensures Forest(ForkProc(p, proc, newProc))
  {
    NewChild(p, ForkProc(p, proc, newProc), proc, newProc);
  }

  lemma LoginKeepsForest(p: Procs, users: set<User>, groups: set<Group>, e: Event)
    requires ProcTypes(p, users, groups) && Forest(p) && e.Login? && e.proc !in p.table
    ensures Forest(LoginProc(p, e))
  {
    NewChild(p, LoginProc(p, e), INIT, e.proc);
  }

  /** The chain of a survivor after `proc` is gone. */
  ghost function ExitChain(c: seq<Proc>, proc: Proc): seq<Proc> {
    if proc in c then c[..FirstIndex(c, proc)] + [INIT] else c
  }

  lemma ExitChainHolds(p: Procs, p': Procs, c: seq<Proc>, proc: Proc)
    requires IsChain(p, c) && c[0] != proc && proc != INIT
    requires forall x :: x in p.parent && x != proc ==>
      x in p'.parent && p'.parent[x] == if p.parent[x] == proc then INIT else p.parent[x]
    ensures IsChain(p', ExitChain(c, proc)) && ExitChain(c, proc)[0] == c[0]
  {
  }

  /** exit: the children of the leaving process become children of INIT, so a chain through it is
      cut short there. */
  lemma ExitKeepsForest(p: Procs, users: set<User>, groups: set<Group>, proc: Proc)
    requires ProcTypes(p, users, groups) && Forest(p) && proc in p.table && proc != INIT
    ensures Forest(ExitProc(p, proc))
  {
    forall q | q in p.table && q != proc
      ensures ReachesInit(ExitProc(p, proc), q)
    {
      assert ReachesInit(p, q);
      var c :| IsChain(p, c) && c[0] == q;
      ExitChainHolds(p, ExitProc(p, proc), c, proc);
    }
  }

  ghost function FirstIndex(c: seq<Proc>, x: Proc): (k: nat)
    requires x in c
    ensures k < |c| && c[k] == x && forall i :: 0 <= i < k ==> c[i] != x
  {
    if c[0] == x then 0 else 1 + FirstIndex(c[1..], x)
  }
}
