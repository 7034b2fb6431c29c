/** Threads on one channel: each step is one locked section, in which a thread may park on a
    condition variable, and broadcasts mark the parked threads as notified. */
module Wakeups {
  import opened ChannelGate

  datatype Cond = ReadCond | WriteCond

  /** The four blocking calls. */
  datatype Call = BlockingWrite | Wait | WaitUntilRead | WaitUntilEmpty

  function CondOf(call: Call): Cond {
    if call == Wait then ReadCond else WriteCond
  }

  /** A thread is outside, parked in a call, or its `Wait` has returned and it is about to read. */
  datatype Phase = Outside | Parked(call: Call, notified: bool) | Granted

  datatype System = System(
    gate: Gate,
    threads: seq<Phase>,
    accepted: nat,   // items written so far
    left: nat)       // items that were acknowledged, replaced or reset away

  /** What the loop test of a call says. */
  function Test(g: Gate, call: Call, woken: bool): Next {
    match call
    case BlockingWrite => g.BlockingWrite(woken)
    case Wait => g.Wait()
    case WaitUntilRead => g.WaitUntilRead()
    case WaitUntilEmpty => g.WaitUntilEmpty()
  }

  datatype Step =
    | Enter(t: nat, call: Call)     // a thread makes a blocking call
    | Wake(t: nat)                  // a notified thread runs again, holding the mutex
    | WriteOrFail
    | WriteOrReplace
    | Read(t: nat, ok: bool)        // `ReadToCallback` after a `Wait` that returned
    | Ack
    | Rewind
    | Reset
    | CloseWriting
    | Close
    | CopyInto(n: nat)              // this channel is the destination of a `CopyTo` of `n` items

  function Broadcast(threads: seq<Phase>, cond: Cond): (r: seq<Phase>)
    ensures |r| == |threads|
    ensures forall t :: 0 <= t < |r| ==> r[t] == Notify(threads[t], cond)
  {
    seq(|threads|, t requires 0 <= t < |threads| => Notify(threads[t], cond))
  }

  function Notify(p: Phase, cond: Cond): Phase {
    if p.Parked? && CondOf(p.call) == cond then Parked(p.call, true) else p
  }

  function Written(s: System): System {
    System(s.gate.Written(), Broadcast(s.threads, ReadCond), s.accepted + 1,
           s.left + (if s.gate.SpaceLeft() then 0 else 1))
  }

  /** A thread runs its loop test, on entry or after waking. */
  function Proceed(s: System, t: nat, call: Call, woken: bool): System
    requires t < |s.threads|
  {
    var next := Test(s.gate, call, woken);
    if next == Park then s.(threads := s.threads[t := Parked(call, false)])
    else
      var s1 := s.(threads := s.threads[t := if call == Wait && next == Go then Granted else Outside]);
      if call == BlockingWrite && next == Go then Written(s1) else s1
  }

  /** `ReadToCallback` with undo on error. */
  function Reads(s: System, t: nat, ok: bool): System
    requires t < |s.threads|
  {
    var s1 := s.(threads := s.threads[t := Outside]);
    if s.gate.Empty() then s1
    else if ok then s1.(gate := s.gate.Taken(), threads := Broadcast(s1.threads, WriteCond))
    else s1.(gate := s.gate.Taken().Untaken(), threads := Broadcast(s1.threads, ReadCond))
  }

  /** One step; a step that is not enabled changes nothing. Only `readers` call `Wait` and read. */
  function Next(readers: set<nat>, s: System, step: Step): System {
    match step
    case Enter(t, call) =>
      if t < |s.threads| && s.threads[t] == Outside && (call == Wait ==> t in readers) then Proceed(s, t, call, false) else s
    case Wake(t) =>
      if t < |s.threads| && s.threads[t].Parked? && s.threads[t].notified then Proceed(s, t, s.threads[t].call, true) else s
    case WriteOrFail => if s.gate.closedWriting || !s.gate.SpaceLeft() then s else Written(s)
    case WriteOrReplace => if s.gate.closedWriting then s else Written(s)
    case Read(t, ok) => if t < |s.threads| && s.threads[t] == Granted then Reads(s, t, ok) else s
    case Ack =>
      if s.gate.ToAck() then s.(gate := s.gate.Acked(), threads := Broadcast(s.threads, WriteCond), left := s.left + 1) else s
    case Rewind =>
      s.(gate := s.gate.Rewound(), threads := if s.gate.awaiting > 0 then Broadcast(s.threads, ReadCond) else s.threads)
    case Reset =>
      s.(gate := s.gate.Cleared(), threads := Broadcast(s.threads, WriteCond),
         left := if s.gate.len > 0 then s.left + s.gate.len else s.left)
    case CloseWriting =>
      if s.gate.closedWriting then s
      else s.(gate := s.gate.WritingClosed(), threads := Broadcast(s.threads, WriteCond))
    case Close =>
      if s.gate.closed then s
      else s.(gate := s.gate.AllClosed(), threads := Broadcast(Broadcast(s.threads, ReadCond), WriteCond))
    case CopyInto(n) =>
      s.(gate := s.gate.(awaiting := 0, len := if n < s.gate.cap then n else s.gate.cap),
         threads := Broadcast(s.threads, ReadCond))
  }

  function Run(readers: set<nat>, s: System, steps: seq<Step>): System {
    if |steps| == 0 then s else Next(readers, Run(readers, s, steps[..|steps| - 1]), steps[|steps| - 1])
  }

  predicate Start(s: System) {
    && s.gate.InOrder() && !s.gate.closed && !s.gate.closedWriting && s.gate.len == 0
    && s.accepted == s.left == 0
    && forall t :: 0 <= t < |s.threads| ==> s.threads[t] == Outside
  }

  // ---------------------------------------------------------------- no lost wakeups

  /** Thread `t` is parked and not notified although its loop test would let it go on. */
  predicate Lost(s: System, t: nat)
    requires t < |s.threads|
  {
    s.threads[t].Parked? && !s.threads[t].notified && Test(s.gate, s.threads[t].call, true) != Park
  }

  /** The one way to lose a wakeup: a `Wait` that could report the end of the file. */
  predicate Stranded(s: System, t: nat)
    requires t < |s.threads|
  {
    s.threads[t] == Parked(Wait, false) && s.gate.Wait() == EndOfFile
  }

  predicate OnlyStranded(s: System) {
    forall t :: 0 <= t < |s.threads| ==> Lost(s, t) ==> Stranded(s, t)
  }

  lemma SameThreads(readers: set<nat>, s: System, step: Step)
    ensures |Next(readers, s, step).threads| == |s.threads|
  {
  }

  lemma StepKeepsWakeup(readers: set<nat>, s: System, step: Step, t: nat)
    requires t < |s.threads| == |Next(readers, s, step).threads|
    requires Lost(s, t) ==> Stranded(s, t)
    requires !step.CopyInto?
    ensures var s' := Next(readers, s, step); Lost(s', t) ==> Stranded(s', t)
  {
  }

  lemma StepKeepsWakeups(readers: set<nat>, s: System, step: Step)
    requires OnlyStranded(s) && !step.CopyInto?
    ensures OnlyStranded(Next(readers, s, step))
  {
    SameThreads(readers, s, step);
    forall t | 0 <= t < |s.threads|
      ensures var s' := Next(readers, s, step); Lost(s', t) ==> Stranded(s', t)
    {
      StepKeepsWakeup(readers, s, step, t);
    }
  }

  /** `CloseWriting` does strand every un-notified reader that finds nothing unread. */
  lemma CloseWritingStrands(readers: set<nat>, s: System, t: nat)
    requires t < |s.threads| && s.threads[t] == Parked(Wait, false) && s.gate.Wait() == Park
    ensures var s' := Next(readers, s, CloseWriting); |s'.threads| == |s.threads| && Lost(s', t)
  {
  }

  /** An undone read changes nothing and wakes every reader all the same; so a reader that `CloseWriting` stranded is let go by
      the next failure of another one. */
  lemma UndoneReadWakes(readers: set<nat>, s: System, t: nat)
    requires t < |s.threads| && s.threads[t] == Granted && !s.gate.Empty()
    ensures var s' := Next(readers, s, Read(t, false));
      && s'.gate == s.gate && |s'.threads| == |s.threads|
      && forall u :: 0 <= u < |s.threads| && u != t && s.threads[u].Parked? ==>
           s'.threads[u] == Parked(s.threads[u].call, s.threads[u].notified || s.threads[u].call == Wait)
  {
  }

  /** A thread that a copy of `n` items into the channel would strand: the copy broadcasts on `readCond` only, and makes
      room for a parked writer, or nothing to wait for. */
  predicate StrandedByCopy(s: System, n: nat, t: nat)
    requires t < |s.threads|
  {
    && s.threads[t].Parked? && !s.threads[t].notified
    && ((s.threads[t].call == BlockingWrite && n < s.gate.cap) || (s.threads[t].call == WaitUntilEmpty && n == 0))
  }

  /** What a copy does to a thread that was not lost before, or only stranded: it is lost if and only if the copy strands it. */
  lemma CopyStrandsIff(readers: set<nat>, s: System, t: nat, n: nat)
    requires s.gate.cap > 0 && t < |s.threads| && (Lost(s, t) ==> Stranded(s, t))
    ensures var s' := Next(readers, s, CopyInto(n));
      && |s'.threads| == |s.threads| && !Stranded(s', t)
      && (Lost(s', t) <==> StrandedByCopy(s, n, t))
  {
  }

  /** A step that loses nobody's wakeup: any but a copy, and a copy that strands no thread. */
  predicate Harmless(s: System, step: Step) {
    step.CopyInto? ==> forall t :: 0 <= t < |s.threads| ==> !StrandedByCopy(s, step.n, t)
  }

  predicate AllHarmless(readers: set<nat>, s: System, steps: seq<Step>) {
    |steps| == 0 ||
      (AllHarmless(readers, s, steps[..|steps| - 1]) && Harmless(Run(readers, s, steps[..|steps| - 1]), steps[|steps| - 1]))
  }

  /** Where no wakeup was lost, a step keeps it so if and only if it is harmless. */
  lemma StepKeepsWakeupsIff(readers: set<nat>, s: System, step: Step)
    requires s.gate.cap > 0 && OnlyStranded(s)
    ensures OnlyStranded(Next(readers, s, step)) <==> Harmless(s, step)
  {
    if step.CopyInto? {
      var s' := Next(readers, s, step);
      SameThreads(readers, s, step);
      forall t | 0 <= t < |s.threads|
        ensures !Stranded(s', t) && (Lost(s', t) <==> StrandedByCopy(s, step.n, t))
      {
        CopyStrandsIff(readers, s, t, step.n);
      }
    } else {
      StepKeepsWakeups(readers, s, step);
    }
  }

  // ---------------------------------------------------------------- the cursors, across a released mutex

  /** With one reader, a granted read still finds something to read, or finds the channel empty. */
  predicate Disciplined(s: System, reader: nat) {
    && s.gate.InOrder()
    && forall t :: 0 <= t < |s.threads| ==> Behaved(s, reader, t)
  }

  predicate Behaved(s: System, reader: nat, t: nat)
    requires t < |s.threads|
  {
    && (s.threads[t].Parked? && s.threads[t].call == Wait ==> t == reader)
    && (s.threads[t] == Granted ==> t == reader && (s.gate.ToRead() || s.gate.Empty()))
  }

  lemma StepKeepsDiscipline(s: System, step: Step, reader: nat)
    requires Disciplined(s, reader)
    ensures Disciplined(Next({reader}, s, step), reader)
  {
    SameThreads({reader}, s, step);
    forall t | 0 <= t < |s.threads|
      ensures Behaved(Next({reader}, s, step), reader, t)
    {
      StepKeepsBehaviour(s, step, reader, t);
    }
    StepKeepsOrder(s, step, reader);
  }

  lemma StepKeepsOrder(s: System, step: Step, reader: nat)
    requires Disciplined(s, reader)
    ensures Next({reader}, s, step).gate.InOrder()
  {
    if step.Read? && step.t < |s.threads| {
      assert Behaved(s, reader, step.t);
    }
  }

  lemma StepKeepsBehaviour(s: System, step: Step, reader: nat, t: nat)
    requires s.gate.InOrder() && t < |s.threads| == |Next({reader}, s, step).threads|
    requires Behaved(s, reader, t)
    requires step.Read? && step.t < |s.threads| ==> Behaved(s, reader, step.t)
    ensures Behaved(Next({reader}, s, step), reader, t)
  {
  }

  /** Nothing but a successful read, `Reset` and `CopyTo` lowers the number of unread items: what a
      `Wait` has promised still stands after the mutex was released and taken again. */
  lemma UnreadStable(readers: set<nat>, s: System, step: Step)
    requires s.gate.InOrder()
    requires !step.Reset? && !step.CopyInto? && !(step.Read? && step.ok)
    ensures Next(readers, s, step).gate.Unread() >= s.gate.Unread()
  {
  }

  // ---------------------------------------------------------------- over every run

  predicate Plain(steps: seq<Step>) {
    forall i :: 0 <= i < |steps| ==> !steps[i].CopyInto?
  }

  /** Cursor safety: with one reader that waits before it reads, `awaitingAck` never passes `length`,
      although `ReadToCallback` tests only for emptiness. */
  lemma {:induction false} CursorsStayInOrder(s: System, steps: seq<Step>, reader: nat)
    requires Start(s)
    ensures Disciplined(Run({reader}, s, steps), reader)
  {
    if |steps| > 0 {
      var n := |steps| - 1;
      CursorsStayInOrder(s, steps[..n], reader);
      StepKeepsDiscipline(Run({reader}, s, steps[..n]), steps[n], reader);
    }
  }

  lemma StepKeepsCapacity(readers: set<nat>, s: System, step: Step)
    ensures Next(readers, s, step).gate.cap == s.gate.cap
  {
  }

  lemma {:induction false} SameCapacity(readers: set<nat>, s: System, steps: seq<Step>)
    ensures Run(readers, s, steps).gate.cap == s.gate.cap
  {
    if |steps| > 0 {
      SameCapacity(readers, s, steps[..|steps| - 1]);
      StepKeepsCapacity(readers, Run(readers, s, steps[..|steps| - 1]), steps[|steps| - 1]);
    }
  }

  /** No lost wakeups: in every reachable state of any threads, whichever of them read, a thread that is parked and not
      notified cannot go on, unless it is in `Wait` and could only report the end of the file. Copies into the channel are
      among the steps as long as they strand no thread. */
  lemma {:induction false} NoLostWakeups(readers: set<nat>, s: System, steps: seq<Step>)
    requires Start(s) && AllHarmless(readers, s, steps)
    ensures OnlyStranded(Run(readers, s, steps))
  {
    if |steps| > 0 {
      var n := |steps| - 1;
      NoLostWakeups(readers, s, steps[..n]);
      SameCapacity(readers, s, steps[..n]);
      StepKeepsWakeupsIff(readers, Run(readers, s, steps[..n]), steps[n]);
    }
  }

  /** One reader is needed: wherever a single item is unread, two threads that each wait and then read
      are both let through, and the second read pushes the cursor past the end. */
  lemma TwoReadersOverrun(readers: set<nat>, s: System, t: nat, u: nat)
    requires s.gate.InOrder() && s.gate.Unread() == 1 && !s.gate.closed
    requires t < |s.threads| && u < |s.threads| && t != u && {t, u} <= readers
    requires s.threads[t] == s.threads[u] == Outside
    ensures var both := Next(readers, Next(readers, s, Enter(t, Wait)), Enter(u, Wait));
            var end := Next(readers, Next(readers, both, Read(t, true)), Read(u, true));
            end.gate.awaiting == end.gate.len + 1
  {
  }

  lemma Then(readers: set<nat>, s: System, steps: seq<Step>, step: Step)
    ensures Run(readers, s, steps + [step]) == Next(readers, Run(readers, s, steps), step)
  {
    assert (steps + [step])[..|steps|] == steps;
  }

  /** A write, two threads that wait, and two reads. */
  function Overrun(t: nat, u: nat): seq<Step> {
    [] + [WriteOrFail] + [Enter(t, Wait)] + [Enter(u, Wait)] + [Read(t, true)] + [Read(u, true)]
  }

  lemma OverrunHappens(readers: set<nat>, s: System, t: nat, u: nat)
    requires Start(s) && t < |s.threads| && u < |s.threads| && t != u && {t, u} <= readers
    ensures !Run(readers, s, Overrun(t, u)).gate.InOrder()
  {
    var s1 := Next(readers, s, WriteOrFail);
    Then(readers, s, [], WriteOrFail);
    Then(readers, s, [] + [WriteOrFail], Enter(t, Wait));
    Then(readers, s, [] + [WriteOrFail] + [Enter(t, Wait)], Enter(u, Wait));
    Then(readers, s, [] + [WriteOrFail] + [Enter(t, Wait)] + [Enter(u, Wait)], Read(t, true));
    Then(readers, s, [] + [WriteOrFail] + [Enter(t, Wait)] + [Enter(u, Wait)] + [Read(t, true)], Read(u, true));
    TwoReadersOverrun(readers, s1, t, u);
  }

  /** Only the threads that there are matter. */
  predicate SameReaders(readers: set<nat>, others: set<nat>, n: nat) {
    forall t :: 0 <= t < n ==> (t in readers <==> t in others)
  }

  lemma StepSameReaders(readers: set<nat>, others: set<nat>, s: System, step: Step)
    requires SameReaders(readers, others, |s.threads|)
    ensures Next(readers, s, step) == Next(others, s, step)
  {
  }

  lemma {:induction false} RunSameReaders(readers: set<nat>, others: set<nat>, s: System, steps: seq<Step>)
    requires SameReaders(readers, others, |s.threads|)
    ensures Run(readers, s, steps) == Run(others, s, steps) && |Run(readers, s, steps).threads| == |s.threads|
  {
    if |steps| > 0 {
      var r := Run(readers, s, steps[..|steps| - 1]);
      RunSameReaders(readers, others, s, steps[..|steps| - 1]);
      StepSameReaders(readers, others, r, steps[|steps| - 1]);
      SameThreads(readers, r, steps[|steps| - 1]);
    }
  }

  /** At most one of `n` threads reads. */
  predicate OneReader(readers: set<nat>, n: nat) {
    forall t, u :: 0 <= t < n && 0 <= u < n && t in readers && u in readers ==> t == u
  }

  lemma TheReader(readers: set<nat>, n: nat) returns (reader: nat)
    requires OneReader(readers, n)
    ensures SameReaders(readers, {reader}, n)
  {
    if t :| 0 <= t < n && t in readers {
      reader := t;
    } else {
      reader := n;
    }
  }

  /** Every run keeps the cursors in order if and only if at most one thread reads. */
  lemma CursorsInOrderIff(readers: set<nat>, s: System)
    requires Start(s)
    ensures (forall steps :: Run(readers, s, steps).gate.InOrder()) <==> OneReader(readers, |s.threads|)
  {
    if OneReader(readers, |s.threads|) {
      var reader := TheReader(readers, |s.threads|);
      forall steps ensures Run(readers, s, steps).gate.InOrder() {
        RunSameReaders(readers, {reader}, s, steps);
        CursorsStayInOrder(s, steps, reader);
      }
    } else {
      var t, u :| 0 <= t < |s.threads| && 0 <= u < |s.threads| && t in readers && u in readers && t != u;
      OverrunHappens(readers, s, t, u);
    }
  }

  // ---------------------------------------------------------------- shutdown

  /** Writing is closed and no writer is inside `WriteOrBlock`. */
  predicate Quiet(s: System) {
    && s.gate.closedWriting
    && forall t :: 0 <= t < |s.threads| ==> !(s.threads[t].Parked? && s.threads[t].call == BlockingWrite)
  }

  lemma StepKeepsQuiet(readers: set<nat>, s: System, step: Step)
    requires Quiet(s) && !step.CopyInto?
    ensures Quiet(Next(readers, s, step)) && Next(readers, s, step).accepted == s.accepted
    ensures s.gate.InOrder() && s.gate.Empty() ==> Next(readers, s, step).gate.Empty()
  {
  }

  /** Every accepted item is queued or has left. */
  predicate Settled(s: System) { s.gate.InOrder() && s.accepted == s.left + s.gate.len }

  lemma StepKeepsSettled(s: System, step: Step, reader: nat)
    requires Settled(s) && Disciplined(s, reader) && !step.CopyInto?
    ensures Next({reader}, s, step).accepted == Next({reader}, s, step).left + Next({reader}, s, step).gate.len
  {
  }

  lemma {:induction false} RunSettled(s: System, steps: seq<Step>, reader: nat)
    requires Start(s) && Plain(steps)
    ensures Settled(Run({reader}, s, steps))
  {
    CursorsStayInOrder(s, steps, reader);
    if |steps| > 0 {
      var n := |steps| - 1;
      RunSettled(s, steps[..n], reader);
      CursorsStayInOrder(s, steps[..n], reader);
      StepKeepsSettled(Run({reader}, s, steps[..n]), steps[n], reader);
    }
  }

  /** Shutdown safety: from a state in which writing is closed and no writer is parked, no run accepts
      another item; and once the channel is empty it stays empty and every accepted item has left. */
  lemma {:induction false} ShutdownSafe(s: System, before: seq<Step>, after: seq<Step>, reader: nat)
    requires Start(s) && Plain(before) && Plain(after) && Quiet(Run({reader}, s, before))
    ensures var mid := Run({reader}, s, before); var end := Run({reader}, mid, after);
            && Quiet(end) && end.accepted == mid.accepted && Disciplined(end, reader) && Settled(end)
            && (mid.gate.Empty() ==> end.gate.Empty() && end.accepted == end.left)
    decreases |after|
  {
    var mid := Run({reader}, s, before);
    if |after| == 0 {
      CursorsStayInOrder(s, before, reader);
      RunSettled(s, before, reader);
    } else {
      var n := |after| - 1;
      ShutdownSafe(s, before, after[..n], reader);
      var r := Run({reader}, mid, after[..n]);
      StepKeepsQuiet({reader}, r, after[n]);
      StepKeepsDiscipline(r, after[n], reader);
      StepKeepsSettled(r, after[n], reader);
    }
  }

  /** A writer that is parked when writing is closed, with something in flight, can still write: the next
      acknowledgement makes room and the woken writer does not look at the flag again. */
  lemma ParkedWriterStillWrites(readers: set<nat>, s: System, t: nat)
    requires s.gate.InOrder() && t < |s.threads| && s.threads[t].Parked? && s.threads[t].call == BlockingWrite
    requires !s.gate.closedWriting && s.gate.ToAck()
    ensures var end := Next(readers, Next(readers, Next(readers, s, CloseWriting), Ack), Wake(t));
            end.gate.closedWriting && end.accepted == s.accepted + 1
  {
  }

  lemma {:induction false} QuietAcceptsNothing(readers: set<nat>, s: System, steps: seq<Step>)
    requires Quiet(s) && Plain(steps)
    ensures Quiet(Run(readers, s, steps)) && Run(readers, s, steps).accepted == s.accepted
  {
    if |steps| > 0 {
      var n := |steps| - 1;
      QuietAcceptsNothing(readers, s, steps[..n]);
      StepKeepsQuiet(readers, Run(readers, s, steps[..n]), steps[n]);
    }
  }

  predicate Accepts(readers: set<nat>, s: System, steps: seq<Step>) {
    Plain(steps) && Run(readers, s, steps).accepted > s.accepted
  }

  lemma ParkedWriterAccepts(readers: set<nat>, s: System, t: nat)
    requires s.gate.cap > 0 && t < |s.threads| && s.threads[t].Parked? && s.threads[t].call == BlockingWrite
    ensures Accepts(readers, s, [Reset, Wake(t)])
  {
    assert [Reset, Wake(t)][..1] == [Reset] && [Reset][..0] == [];
    assert Run(readers, s, [Reset]) == Next(readers, s, Reset);
  }

  /** Once writing is closed, from any state and for any readers: some run accepts another item if and only if
      a writer is parked in `WriteOrBlock`. */
  lemma LateWriteIff(readers: set<nat>, s: System)
    requires s.gate.closedWriting && s.gate.cap > 0
    ensures (exists steps :: Accepts(readers, s, steps)) <==> !Quiet(s)
  {
    if Quiet(s) {
      forall steps ensures !Accepts(readers, s, steps) {
        if Plain(steps) {
          QuietAcceptsNothing(readers, s, steps);
        }
      }
    } else {
      var t :| 0 <= t < |s.threads| && s.threads[t].Parked? && s.threads[t].call == BlockingWrite;
      ParkedWriterAccepts(readers, s, t);
    }
  }

  // ---------------------------------------------------------------- closing

  /** The channel is closed both ways and every parked thread was notified. */
  predicate Released(s: System) {
    && s.gate.closed && s.gate.closedWriting
    && forall t :: 0 <= t < |s.threads| ==> s.threads[t].Parked? ==> s.threads[t].notified
  }

  predicate FlagsAgree(s: System) { s.gate.closed ==> s.gate.closedWriting }

  lemma CloseReleases(readers: set<nat>, s: System)
    requires !s.gate.closed
    ensures Released(Next(readers, s, Close))
  {
  }

  lemma StepKeepsReleased(readers: set<nat>, s: System, step: Step)
    requires FlagsAgree(s)
    ensures FlagsAgree(Next(readers, s, step))
    ensures Released(s) ==> Released(Next(readers, s, step))
    ensures Next(readers, s, step).gate.closed <==> s.gate.closed || step == Close
  {
  }

  /** Over every run, whatever threads do and copies included: once `Close` was called no thread waits any more. Each one
      that is still parked was notified, and when it runs again it leaves its call; a writer among them writes only if it
      finds room. */
  lemma {:induction false} NobodyWaitsAfterClose(readers: set<nat>, s: System, steps: seq<Step>)
    requires Start(s)
    ensures var r := Run(readers, s, steps);
      && FlagsAgree(r)
      && (r.gate.closed <==> Close in steps)
      && (Close in steps ==> Released(r) && forall t :: 0 <= t < |r.threads| && r.threads[t].Parked? ==> Leaves(readers, r, t))
  {
    if |steps| > 0 {
      var n := |steps| - 1;
      NobodyWaitsAfterClose(readers, s, steps[..n]);
      var r := Run(readers, s, steps[..n]);
      assert steps == steps[..n] + [steps[n]];
      StepKeepsReleased(readers, r, steps[n]);
      if steps[n] == Close && !r.gate.closed {
        CloseReleases(readers, r);
      }
      ReleasedLeave(readers, Run(readers, s, steps));
    }
  }

  /** Thread `t` runs again and is then outside. */
  predicate Leaves(readers: set<nat>, s: System, t: nat)
    requires t < |s.threads| && s.threads[t].Parked?
  {
    var s' := Next(readers, s, Wake(t));
    && |s'.threads| == |s.threads| && s'.threads[t] == Outside
    && s'.accepted == s.accepted + (if s.threads[t].call == BlockingWrite && s.gate.len < s.gate.cap then 1 else 0)
  }

  lemma ReleasedLeave(readers: set<nat>, s: System)
    ensures Released(s) ==> forall t :: 0 <= t < |s.threads| && s.threads[t].Parked? ==> Leaves(readers, s, t)
  {
  }

  /** The end of the file does not mean that everything was delivered: a rewind brings items back. */
  lemma EndOfFileIsNotDrained(g: Gate)
    requires g.InOrder() && !g.closed && g.closedWriting && !g.ToRead()
    ensures g.Wait() == EndOfFile
    ensures g.Rewound().Wait() == Go <==> !g.Empty()
  {
  }
}
