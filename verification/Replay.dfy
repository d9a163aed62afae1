/** The replay loop of testing/spec_impl.py: events are read from a trace, and before a close is
    handled, the loop looks ahead for the __fput of the same inode, queueing what it reads on the way.

    The event handler is total here: it only logs what it is given. */
module Replay {
  import opened Context

  /** One parsed line of the trace. None stands for a key that the line does not have. */
  datatype Rec = Rec(
    syscall: Option<string>,
    call: Option<string>,
    dev: Option<int>,
    ino: Option<int>,
    contentHash: Option<Hash>,
    metaHash: Option<Hash>,
    args: string)

  datatype Outcome = Finished | NoFput | MissingKey

  /** What one comparison of the look-ahead says. */
  datatype Verdict = Match | Differs | NoKey

  /** Is e an __fput of the inode that the close names? Keys are looked up from left to right: what the
      close lacks raises, but only when the comparison gets that far; what e lacks just differs. */
  function Compare(close: Rec, e: Rec): Verdict {
    if e.call != Some("__fput") then Differs
    else if close.dev.None? then NoKey
    else if e.dev != close.dev then Differs
    else if close.ino.None? then NoKey
    else if e.ino != close.ino then Differs
    else Match
  }

  predicate IsSyscall(e: Rec) {
    e.syscall.Some? && e.syscall.value != ""
  }

  predicate IsClose(e: Rec) {
    e.syscall == Some("close")
  }

  // ---------- Specification ----------

  /** The first position from i on where the comparison with `close` stops the look-ahead. */
  ghost function StopsAt(trace: seq<Rec>, close: Rec, i: nat): (j: nat)
    requires i <= |trace|
    ensures i <= j <= |trace|
    ensures j < |trace| ==> Compare(close, trace[j]) != Differs
    ensures forall k :: i <= k < j ==> Compare(close, trace[k]) == Differs
    decreases |trace| - i
  {
    if i == |trace| || Compare(close, trace[i]) != Differs then i else StopsAt(trace, close, i + 1)
  }

  datatype Completed = Ready(event: Rec) | Fails(outcome: Outcome)

  /** The event at position i as the handler gets it, or why the replay stops there. */
  ghost function Complete(trace: seq<Rec>, i: nat): Completed
    requires i < |trace|
  {
    if !IsClose(trace[i]) then Ready(trace[i])
    else
      var j := StopsAt(trace, trace[i], i + 1);
      if j == |trace| then Fails(NoFput)
      else if Compare(trace[i], trace[j]) == NoKey then Fails(MissingKey)
      else if trace[j].contentHash.None? || trace[j].metaHash.None? then Fails(MissingKey)
      else Ready(trace[i].(contentHash := trace[j].contentHash, metaHash := trace[j].metaHash))
  }

  /** What the replay of trace[i..] hands to the handler. */
  ghost function Handled(trace: seq<Rec>, i: nat): seq<Rec>
    requires i <= |trace|
    decreases |trace| - i
  {
    if i == |trace| then []
    else if !IsSyscall(trace[i]) then Handled(trace, i + 1)
    else match Complete(trace, i)
      case Fails(_) => []
      case Ready(e) => [e] + Handled(trace, i + 1)
  }

  /** How the replay of trace[i..] ends. */
  ghost function Ends(trace: seq<Rec>, i: nat): Outcome
    requires i <= |trace|
    decreases |trace| - i
  {
    if i == |trace| then Finished
    else if !IsSyscall(trace[i]) then Ends(trace, i + 1)
    else match Complete(trace, i)
      case Fails(o) => o
      case Ready(_) => Ends(trace, i + 1)
  }

  lemma Unfold(trace: seq<Rec>, i: nat, event: Rec, log: seq<Rec>)
    requires i < |trace| && IsSyscall(trace[i]) && Complete(trace, i) == Ready(event)
    ensures log + Handled(trace, i) == (log + [event]) + Handled(trace, i + 1)
    ensures Ends(trace, i) == Ends(trace, i + 1)
  {
  }

  lemma Skips(trace: seq<Rec>, i: nat)
    requires i < |trace| && !IsSyscall(trace[i])
    ensures Handled(trace, i) == Handled(trace, i + 1) && Ends(trace, i) == Ends(trace, i + 1)
  {
  }

  lemma Breaks(trace: seq<Rec>, i: nat, o: Outcome)
    requires i < |trace| && IsSyscall(trace[i]) && Complete(trace, i) == Fails(o)
    ensures Handled(trace, i) == [] && Ends(trace, i) == o
  {
  }

  lemma AtEnd(trace: seq<Rec>)
    ensures Handled(trace, |trace|) == [] && Ends(trace, |trace|) == Finished
  {
  }

  // ---------- The loop ----------

  /** The local state of _replay_trace: the iterator, at position `next`, and the queue. */
  class Replayer {
    const trace: seq<Rec>
    var next: nat
    var queue: seq<Rec>
    var log: seq<Rec>

    ghost predicate Valid()
      reads this
    {
      && |queue| <= next <= |trace|
      && (forall k :: 0 <= k < |queue| ==> queue[k] == trace[next - |queue| + k])
    }

    /** The position of the next event to process. */
    ghost function Front(): int
      reads this
    {
      next - |queue|
    }

    constructor (trace: seq<Rec>)
      ensures Valid() && this.trace == trace && Front() == 0 && log == []
    {
      this.trace := trace;
      next, queue, log := 0, [], [];
    }

    /** __seek_matching_fput. The queue only grows by what is read; no event is lost. */
    method SeekMatchingFput(close: Rec) returns (found: Option<Rec>, outcome: Outcome)
      requires Valid()
      modifies this`next, this`queue
      ensures Valid() && Front() == old(Front()) && next >= old(next)
      ensures
        var j := StopsAt(trace, close, old(Front()));
        && (outcome == NoFput <==> j == |trace|)
        && (outcome == MissingKey <==> j < |trace| && Compare(close, trace[j]) == NoKey)
        && (outcome == Finished <==> j < |trace| && Compare(close, trace[j]) == Match)
        && found == (if outcome == Finished then Some(trace[j]) else None)
    {
      ghost var front := Front();
      var i := 0;
      while i < |queue|
        invariant 0 <= i <= |queue|
        invariant forall k :: front <= k < front + i ==> Compare(close, trace[k]) == Differs
      {
        match Compare(close, queue[i])
        case Match => return Some(queue[i]), Finished;
        case NoKey => return None, MissingKey;
        case Differs =>
        i := i + 1;
      }
      while next < |trace|
        invariant Valid() && Front() == front && next >= old(next)
        invariant forall k :: front <= k < next ==> Compare(close, trace[k]) == Differs
        decreases |trace| - next
      {
        var e := trace[next];
        queue := queue + [e];
        next := next + 1;
        match Compare(close, e)
        case Match => return Some(e), Finished;
        case NoKey => return None, MissingKey;
        case Differs =>
      }
      return None, NoFput;
    }

    /** _replay_trace. */
    method Run() returns (outcome: Outcome)
      requires Valid() && Front() == 0 && log == []
      modifies this
      ensures Valid()
      ensures log == Handled(trace, 0)
      ensures outcome == Ends(trace, 0)
    {
      hide Handled, Ends;
      while queue != [] || next < |trace|
        invariant Valid()
        invariant log + Handled(trace, Front()) == Handled(trace, 0)
        invariant Ends(trace, Front()) == Ends(trace, 0)
        decreases |trace| - Front()
      {
        ghost var i := Front();
        var event;
        if queue != [] {
          event, queue := queue[0], queue[1..];
        } else {
          event := trace[next];
          next := next + 1;
        }
        assert event == trace[i] && Valid() && Front() == i + 1;
        if IsSyscall(event) {
          if IsClose(event) {
            var found, sought := SeekMatchingFput(event);
            if found.None? {
              Breaks(trace, i, sought);
              return sought;
            }
            if found.value.contentHash.None? || found.value.metaHash.None? {
              Breaks(trace, i, MissingKey);
              return MissingKey;
            }
            event := event.(contentHash := found.value.contentHash, metaHash := found.value.metaHash);
          }
          Unfold(trace, i, event, log);
          log := log + [event];
        } else {
          Skips(trace, i);
        }
      }
      AtEnd(trace);
      return Finished;
    }
  }

  // ---------- What the replay promises ----------

  /** j is the first __fput of the inode that the close at i names. */
  ghost predicate FirstFput(trace: seq<Rec>, i: int, j: int) {
    && 0 <= i < j < |trace|
    && Compare(trace[i], trace[j]) == Match
    && (forall k :: i < k < j ==> Compare(trace[i], trace[k]) != Match)
  }

  /** Closes name an inode and every __fput carries its hashes. */
  ghost predicate WellKeyed(trace: seq<Rec>) {
    forall i :: 0 <= i < |trace| ==>
      && (IsClose(trace[i]) ==> trace[i].dev.Some? && trace[i].ino.Some?)
      && (trace[i].call == Some("__fput") ==> trace[i].contentHash.Some? && trace[i].metaHash.Some?)
  }

  /** The positions of the syscalls from i on, in order. */
  ghost function Positions(trace: seq<Rec>, i: nat): (ps: seq<nat>)
    requires i <= |trace|
    ensures forall k :: 0 <= k < |ps| ==> i <= ps[k] < |trace| && IsSyscall(trace[ps[k]])
    ensures forall k, l :: 0 <= k < l < |ps| ==> ps[k] < ps[l]
    ensures forall p :: i <= p < |trace| && IsSyscall(trace[p]) ==> p in ps
    decreases |trace| - i
  {
    if i == |trace| then []
    else if IsSyscall(trace[i]) then [i] + Positions(trace, i + 1)
    else Positions(trace, i + 1)
  }

  /** e is the syscall at position p, and if that is a close, with the hashes of its first __fput. */
  ghost predicate HandsOver(trace: seq<Rec>, p: nat, e: Rec) {
    && p < |trace|
    && if IsClose(trace[p]) then
         exists j :: FirstFput(trace, p, j)
           && e == trace[p].(contentHash := trace[j].contentHash, metaHash := trace[j].metaHash)
       else e == trace[p]
  }

  lemma CompleteMeansFirstFput(trace: seq<Rec>, i: nat)
    requires i < |trace| && WellKeyed(trace)
    ensures Complete(trace, i).Ready? ==> HandsOver(trace, i, Complete(trace, i).event)
    ensures IsClose(trace[i]) ==> (Complete(trace, i).Ready? <==> exists j :: FirstFput(trace, i, j))
    ensures Complete(trace, i).Fails? ==> Complete(trace, i).outcome == NoFput
  {
  }

  /** es are the first |es| of the syscalls at the positions ps, one by one. */
  ghost predicate InOrder(trace: seq<Rec>, ps: seq<nat>, es: seq<Rec>) {
    |es| <= |ps| && forall k :: 0 <= k < |es| ==> HandsOver(trace, ps[k], es[k])
  }

  lemma InOrderGrows(trace: seq<Rec>, p: nat, ps: seq<nat>, e: Rec, es: seq<Rec>)
    requires InOrder(trace, ps, es) && HandsOver(trace, p, e)
    ensures InOrder(trace, [p] + ps, [e] + es)
  {
  }

  /** The handler gets the trace's syscalls, each once and in trace order, up to the first close that
      cannot be completed; a close carries the hashes of the first later __fput of its inode. */
  lemma {:induction false} HandledInOrder(trace: seq<Rec>, i: nat)
    requires i <= |trace| && WellKeyed(trace)
    ensures InOrder(trace, Positions(trace, i), Handled(trace, i))
    ensures Ends(trace, i) == Finished <==> |Handled(trace, i)| == |Positions(trace, i)|
    decreases |trace| - i
  {
    if i < |trace| {
      HandledInOrder(trace, i + 1);
      CompleteMeansFirstFput(trace, i);
      if IsSyscall(trace[i]) && Complete(trace, i).Ready? {
        InOrderGrows(trace, i, Positions(trace, i + 1), Complete(trace, i).event, Handled(trace, i + 1));
      }
    }
  }

  /** A close without a later __fput of its inode. */
  ghost predicate Unmatched(trace: seq<Rec>, i: nat)
    requires i < |trace|
  {
    IsClose(trace[i]) && forall j :: !FirstFput(trace, i, j)
  }

  lemma FailureIsUnmatched(trace: seq<Rec>, i: nat)
    requires i < |trace| && WellKeyed(trace) && Complete(trace, i).Fails?
    ensures Unmatched(trace, i) && Complete(trace, i).outcome == NoFput
  {
    CompleteMeansFirstFput(trace, i);
  }

  /** If the replay fails, the next syscall would have been such a close. */
  lemma {:induction false} FailsAtUnmatchedClose(trace: seq<Rec>, i: nat)
    requires i <= |trace| && WellKeyed(trace) && Ends(trace, i) != Finished
    ensures Ends(trace, i) == NoFput && |Handled(trace, i)| < |Positions(trace, i)|
    ensures Unmatched(trace, Positions(trace, i)[|Handled(trace, i)|])
    decreases |trace| - i
  {
    hide WellKeyed, Complete, Unmatched, IsSyscall;
    if IsSyscall(trace[i]) && Complete(trace, i).Fails? {
      FailureIsUnmatched(trace, i);
    } else {
      FailsAtUnmatchedClose(trace, i + 1);
    }
  }

  /** The replay fails exactly if some close has no later __fput of its inode. */
  lemma {:induction false} FinishesIffAllMatched(trace: seq<Rec>, i: nat)
    requires i <= |trace| && WellKeyed(trace)
    ensures Ends(trace, i) == Finished <==>
      forall p :: i <= p < |trace| && IsClose(trace[p]) ==> exists j :: FirstFput(trace, p, j)
    decreases |trace| - i
  {
    if i < |trace| {
      FinishesIffAllMatched(trace, i + 1);
      CompleteMeansFirstFput(trace, i);
    }
  }
}
