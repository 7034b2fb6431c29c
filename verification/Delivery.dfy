/** The client's sender and responder threads, the connections they open, and the server at the
    other end. An entry is identified by its position in the order of writing. */
module Delivery {
  import opened ChannelGate
  import opened RunEvents

  /** One connection. `sent` are the entries whose bytes all went out, in order; after a send error
      nothing more is sent (`broken`). The server has read `handled` of them and written `replies`
      answers, of which the client has read `consumed`. */
  datatype Conn = Conn(sent: seq<nat>, broken: bool, handled: nat, replies: nat, consumed: nat, open: bool)

  /** The client's current connection, an index into all connections made. */
  datatype Link = NoLink | Link(i: nat)

  /** `processEntries`: waiting; `Wait` returned; connection ensured; send failed. */
  datatype Sender = Idle | Ready | Linked | Failed

  /** `processResponses`: in `WaitUntilRead`; returned from it; holding a connection to read from;
      got a byte; got an error; disconnected and about to rewind. */
  datatype Responder = Waiting | Woken | Holding(i: nat) | Acking | Failing | Rewinding

  datatype State = State(
    gate: Gate,
    base: nat,            // the oldest entry in the queue
    accepted: nat,        // entries written so far
    conns: seq<Conn>,
    lag: nat,             // entries in flight when the newest connection was opened
    link: Link,
    sender: Sender,
    responder: Responder,
    answered: set<nat>,   // entries the server has read and answered, OK or not
    replaced: set<nat>)   // entries a full channel let go of
  {
    function Last(): Conn requires |conns| > 0 { conns[|conns| - 1] }
  }

  datatype Step =
    | Write
    | Replace
    | SenderWait
    | UseLink
    | Connect
    | Send
    | SendFails(full: bool)   // an error, with all bytes of the entry delivered or not
    | SenderDrops
    | Handle(i: nat, replied: bool)
    | ResponderWait
    | Load
    | Reply
    | AckOldest
    | ReplyFails
    | ResponderDrops
    | RewindAll
    | StopWriting
    | Shut
    | HangUp                  // the disconnect that ends a forceful close

  function Init(cap: nat): State {
    State(Gate(cap, 0, 0, false, false), 0, 0, [], 0, NoLink, Idle, Waiting, {}, {})
  }

  /** `disconnect`: swaps in no connection and closes the one that was current. */
  function Dropped(s: State): State {
    match s.link
    case NoLink => s
    case Link(i) =>
      if i < |s.conns| then s.(link := NoLink, conns := s.conns[i := s.conns[i].(open := false)])
      else s.(link := NoLink)
  }

  predicate HasLink(s: State) { s.link.Link? && s.link.i < |s.conns| }

  function Enabled(s: State, step: Step): bool {
    match step
    case Write => s.gate.SpaceLeft()   // a blocked writer may write even after writing was closed
    case Replace => !s.gate.closedWriting && !s.gate.SpaceLeft()
    case SenderWait => s.sender == Idle && s.gate.Wait() == Go
    case UseLink => s.sender == Ready && s.link != NoLink
    case Connect => s.sender == Ready && s.link == NoLink
    case Send => s.sender == Linked && HasLink(s) && !s.gate.Empty()
    case SendFails(_) => s.sender == Linked && HasLink(s) && !s.gate.Empty()
    case SenderDrops => s.sender == Failed
    case Handle(i, _) => i < |s.conns| && s.conns[i].handled < |s.conns[i].sent|
    case ResponderWait => s.responder == Waiting && s.gate.WaitUntilRead() == Go
    case Load => s.responder == Woken
    case Reply =>
      && s.responder.Holding? && s.responder.i < |s.conns|
      && s.conns[s.responder.i].open && s.conns[s.responder.i].consumed < s.conns[s.responder.i].replies
    case AckOldest => s.responder == Acking
    case ReplyFails => s.responder.Holding?
    case ResponderDrops => s.responder == Failing
    case RewindAll => s.responder == Rewinding
    case StopWriting => true
    case Shut => true
    case HangUp => s.gate.closed
  }

  function WithConn(s: State, i: nat, c: Conn): State
    requires i < |s.conns|
  {
    s.(conns := s.conns[i := c])
  }

  /** Positions are naturals; the read position is one whenever the cursors are in order. */
  function ReadPos(s: State): nat { if s.gate.awaiting >= 0 then s.base + s.gate.awaiting else 0 }

  /** The entries in flight that a new session finds, except one that is about to be acknowledged. */
  function Lagging(s: State): nat {
    var n := s.gate.awaiting - (if s.responder == Acking then 1 else 0);
    if n > 0 then n else 0
  }

  function Effect(s: State, step: Step): State
    requires Enabled(s, step)
  {
    match step
    case Write => s.(gate := s.gate.Written(), accepted := s.accepted + 1)
    case Replace => s.(gate := s.gate.Written(), accepted := s.accepted + 1, base := s.base + 1, replaced := s.replaced + {s.base})
    case SenderWait => s.(sender := Ready)
    case UseLink => s.(sender := Linked)
    case Connect =>
      s.(sender := Linked, link := Link(|s.conns|), conns := s.conns + [Conn([], false, 0, 0, 0, true)],
         lag := Lagging(s))
    case Send =>
      var c := s.conns[s.link.i];
      WithConn(s, s.link.i, c.(sent := c.sent + [ReadPos(s)])).(gate := s.gate.Taken(), sender := Idle)
    case SendFails(full) =>
      var c := s.conns[s.link.i];
      WithConn(s, s.link.i, c.(broken := true, sent := if full then c.sent + [ReadPos(s)] else c.sent)).(sender := Failed)
    case SenderDrops => Dropped(s).(sender := Idle)
    case Handle(i, replied) =>
      var c := s.conns[i];
      if replied && c.replies == c.handled then
        WithConn(s, i, c.(handled := c.handled + 1, replies := c.replies + 1)).(answered := s.answered + {c.sent[c.handled]})
      else
        WithConn(s, i, c.(handled := c.handled + 1))
    case ResponderWait => s.(responder := Woken)
    case Load => s.(responder := if s.link.Link? then Holding(s.link.i) else Waiting)
    case Reply =>
      var c := s.conns[s.responder.i];
      WithConn(s, s.responder.i, c.(consumed := c.consumed + 1)).(responder := Acking)
    case AckOldest =>
      if s.gate.ToAck() then s.(responder := Waiting, gate := s.gate.Acked(), base := s.base + 1) else s.(responder := Waiting)
    case ReplyFails => s.(responder := Failing)
    case ResponderDrops => Dropped(s).(responder := Rewinding)
    case RewindAll => s.(responder := Waiting, gate := s.gate.Rewound())
    case StopWriting => s.(gate := s.gate.WritingClosed())
    case Shut => s.(gate := s.gate.AllClosed())
    case HangUp => Dropped(s)
  }

  /** One step; a step that is not enabled changes nothing. */
  function Next(s: State, step: Step): State {
    if Enabled(s, step) then Effect(s, step) else s
  }

  function Run(s: State, steps: seq<Step>): State {
    if |steps| == 0 then s else Next(Run(s, steps[..|steps| - 1]), steps[|steps| - 1])
  }

  /** Everything in flight was answered, so nothing of it can be lost. */
  predicate FlightAnswered(s: State) {
    forall p :: s.base <= p < s.base + s.gate.awaiting ==> p in s.answered
  }

  /** The responder can only fail, drop the current connection and rewind: its read has failed, or goes to a connection that
      is closed. */
  predicate Retiring(s: State) {
    || s.responder == Failing
    || (s.responder.Holding? && s.responder.i < |s.conns| && !s.conns[s.responder.i].open)
  }

  /** Opening a connection does no harm: the responder is retiring, so that everything in flight will be sent again; or it is
      not about to rewind, and everything in flight was answered. */
  predicate CleanConnect(s: State) {
    Retiring(s) || (s.responder != Rewinding && FlightAnswered(s))
  }

  /** The hypothesis: a full channel lets go of an item only with nothing in flight, and sessions start cleanly. */
  predicate CleanStep(s: State, step: Step) {
    Enabled(s, step) ==> (step.Replace? ==> s.gate.awaiting == 0) && (step.Connect? ==> CleanConnect(s))
  }

  predicate Clean(s: State, steps: seq<Step>) {
    |steps| == 0 || (Clean(s, steps[..|steps| - 1]) && CleanStep(Run(s, steps[..|steps| - 1]), steps[|steps| - 1]))
  }

  // ---------------------------------------------------------------- the invariant of clean runs

  /** Answers that were acknowledged: a byte that was read is not acknowledged yet while in `Acking`. */
  function AckedReplies(s: State): int
    requires |s.conns| > 0
  {
    s.Last().consumed - (if s.responder == Acking then 1 else 0)
  }

  /** What the server did on a connection is in order. */
  predicate ConnSound(c: Conn, answered: set<nat>) {
    && c.consumed <= c.replies <= c.handled <= |c.sent|
    && forall j :: 0 <= j < c.replies ==> c.sent[j] in answered
  }

  /** Behind the entries that were in flight before, which were answered, the entries in flight are the ones of the
      newest connection that were not acknowledged, in order. The acknowledgements lag that far behind the answers. An
      acknowledgement that was due when the connection was opened counts as one for an entry before its first. */
  predicate InFlight(s: State)
    requires |s.conns| > 0
  {
    var c, a, n := s.Last(), AckedReplies(s), s.gate.awaiting - s.lag;
    && -1 <= a && (n > 0 ==> a + n <= |c.sent|)
    && (a == -1 ==> s.base + s.lag in s.answered)
    && (forall j :: 0 <= j && a <= j < a + n ==> c.sent[j] == s.base + s.lag + (j - a))
    && (s.link.Link? && !c.broken ==> a + n == |c.sent|)
    && (forall p :: s.base <= p < s.base + s.lag && p < s.base + s.gate.awaiting ==> p in s.answered)
  }

  /** The responder is in the middle of a round. */
  predicate Busy(r: Responder) { r != Waiting }

  /** Answers can still be acknowledged without a rewind before them. */
  predicate InFlightDue(s: State) {
    |s.conns| > 0 && !Retiring(s) && s.responder != Rewinding && (s.gate.ToAck() || s.link.Link?)
  }

  /** The cursors are in order and the threads are where they can be with them. */
  predicate Phased(s: State) {
    && s.gate.InOrder()
    && (s.sender == Ready || s.sender == Linked ==> s.gate.ToRead())
    && (Busy(s.responder) ==> s.gate.ToAck())
    && (s.responder == Rewinding ==> s.link == NoLink)
    && (s.responder.Holding? ==> s.responder.i < |s.conns|)
    && (s.gate.ToAck() ==> |s.conns| > 0)
    && (forall p :: p in s.replaced ==> p < s.base)
  }

  /** Only the newest connection can be current, and only the current one is open. */
  predicate Connected(s: State) {
    && (s.link.Link? ==> s.link.i == |s.conns| - 1 && s.Last().open && (s.Last().broken ==> s.sender == Failed))
    && (forall i :: 0 <= i < |s.conns| && s.conns[i].open ==> s.link == Link(i))
  }

  predicate AllSound(s: State) {
    forall i :: 0 <= i < |s.conns| ==> ConnSound(s.conns[i], s.answered)
  }

  predicate Aligned(s: State) {
    Phased(s) && Connected(s) && AllSound(s) && (InFlightDue(s) ==> InFlight(s))
  }

  /** Every accepted entry is in the queue, or was answered by the server, or was replaced. */
  predicate Delivered(s: State) {
    && s.accepted == s.base + s.gate.len
    && forall p :: 0 <= p < s.base ==> p in s.answered || p in s.replaced
  }

  lemma SendKeepsFlight(s: State, step: Step)
    requires Aligned(s) && (step.Send? || step.SendFails?) && Enabled(s, step) && InFlight(s)
    ensures InFlight(Effect(s, step))
  {
    var t := Effect(s, step);
    assert t.Last().sent[..|s.Last().sent|] == s.Last().sent;
  }

  lemma SendKeepsSound(s: State, step: Step)
    requires Aligned(s) && (step.Send? || step.SendFails?) && Enabled(s, step)
    ensures AllSound(Effect(s, step))
  {
    var t := Effect(s, step);
    forall i | 0 <= i < |t.conns| ensures ConnSound(t.conns[i], t.answered) {
      assert ConnSound(s.conns[i], s.answered);
    }
  }

  lemma SendKeepsAligned(s: State, step: Step)
    requires Aligned(s) && (step.Send? || step.SendFails?)
    ensures Aligned(Next(s, step))
  {
    if Enabled(s, step) {
      SendKeepsSound(s, step);
      if InFlightDue(s) {
        SendKeepsFlight(s, step);
      }
    }
  }

  lemma HandleKeepsSound(s: State, i: nat, replied: bool)
    requires Enabled(s, Handle(i, replied)) && AllSound(s)
    ensures AllSound(Effect(s, Handle(i, replied)))
  {
    var t := Effect(s, Handle(i, replied));
    forall k | 0 <= k < |t.conns| ensures ConnSound(t.conns[k], t.answered) {
      assert ConnSound(s.conns[k], s.answered);
    }
  }

  lemma HandleKeepsConnected(s: State, i: nat, replied: bool)
    requires Enabled(s, Handle(i, replied)) && Connected(s)
    ensures Connected(Effect(s, Handle(i, replied)))
    ensures Retiring(Effect(s, Handle(i, replied))) == Retiring(s)
  {
  }

  lemma HandleKeepsFlight(s: State, i: nat, replied: bool)
    requires Enabled(s, Handle(i, replied)) && InFlight(s)
    ensures InFlight(Effect(s, Handle(i, replied)))
  {
  }

  lemma HandleKeepsAligned(s: State, step: Step)
    requires Aligned(s) && step.Handle?
    ensures Aligned(Next(s, step))
  {
    if Enabled(s, step) {
      HandleKeepsSound(s, step.i, step.replied);
      HandleKeepsConnected(s, step.i, step.replied);
      if InFlightDue(s) {
        HandleKeepsFlight(s, step.i, step.replied);
      }
    }
  }

  lemma ReplyKeepsAligned(s: State)
    requires Aligned(s)
    ensures Aligned(Next(s, Reply))
  {
  }

  lemma AckKeepsAligned(s: State)
    requires Aligned(s)
    ensures Aligned(Next(s, AckOldest))
  {
    if s.responder == Acking {
      var c, a := s.Last(), AckedReplies(s);
      assert InFlight(s) && ConnSound(c, s.answered);
      if s.gate.awaiting > s.lag && a >= 0 {
        assert c.sent[a] == s.base + s.lag && c.sent[a] in s.answered;
      }
    }
  }

  lemma ConnectKeepsAligned(s: State)
    requires Aligned(s) && CleanStep(s, Connect)
    ensures Aligned(Next(s, Connect))
  {
  }

  lemma DroppedAligned(s: State)
    requires Aligned(s)
    ensures Aligned(Dropped(s)) && Dropped(s).link == NoLink
  {
  }

  lemma DropKeepsAligned(s: State, step: Step)
    requires Aligned(s) && (step.SenderDrops? || step.ResponderDrops? || step.HangUp?)
    ensures Aligned(Next(s, step))
  {
    DroppedAligned(s);
    if Enabled(s, step) {
      IdleAligned(Dropped(s));
    }
  }

  /** With no connection the sender may go idle, and the responder may be about to rewind if something is in flight. */
  lemma IdleAligned(s: State)
    requires Aligned(s) && s.link == NoLink
    ensures Aligned(s.(sender := Idle))
    ensures s.gate.ToAck() ==> Aligned(s.(responder := Rewinding))
  {
  }

  lemma WriteKeepsAligned(s: State, step: Step)
    requires Aligned(s) && (step.Write? || step.Replace?) && CleanStep(s, step)
    ensures Aligned(Next(s, step))
  {
  }

  lemma RewindKeepsAligned(s: State)
    requires Aligned(s)
    ensures Aligned(Next(s, RewindAll))
  {
  }

  lemma ClosingKeepsAligned(s: State, step: Step)
    requires Aligned(s) && (step.StopWriting? || step.Shut?)
    ensures Aligned(Next(s, step))
  {
  }

  lemma SenderKeepsAligned(s: State, step: Step)
    requires Aligned(s) && (step.SenderWait? || step.UseLink?)
    ensures Aligned(Next(s, step))
  {
  }

  lemma WokenKeepsAligned(s: State)
    requires Aligned(s)
    ensures Aligned(Next(s, ResponderWait))
  {
  }

  lemma LoadKeepsAligned(s: State)
    requires Aligned(s)
    ensures Aligned(Next(s, Load))
  {
  }

  lemma ReplyFailsKeepsAligned(s: State)
    requires Aligned(s)
    ensures Aligned(Next(s, ReplyFails))
  {
  }

  lemma StepKeepsAligned(s: State, step: Step)
    requires Aligned(s) && CleanStep(s, step)
    ensures Aligned(Next(s, step))
  {
    match step
    case Send => SendKeepsAligned(s, step);
    case SendFails(_) => SendKeepsAligned(s, step);
    case Handle(_, _) => HandleKeepsAligned(s, step);
    case Reply => ReplyKeepsAligned(s);
    case AckOldest => AckKeepsAligned(s);
    case Connect => ConnectKeepsAligned(s);
    case SenderDrops => DropKeepsAligned(s, step);
    case ResponderDrops => DropKeepsAligned(s, step);
    case HangUp => DropKeepsAligned(s, step);
    case Write => WriteKeepsAligned(s, step);
    case Replace => WriteKeepsAligned(s, step);
    case SenderWait => SenderKeepsAligned(s, step);
    case UseLink => SenderKeepsAligned(s, step);
    case ResponderWait => WokenKeepsAligned(s);
    case Load => LoadKeepsAligned(s);
    case ReplyFails => ReplyFailsKeepsAligned(s);
    case RewindAll => RewindKeepsAligned(s);
    case StopWriting => ClosingKeepsAligned(s, step);
    case Shut => ClosingKeepsAligned(s, step);
  }

  /** The reply being acknowledged is the server's answer to the oldest entry. */
  lemma AckIsForOldest(s: State)
    requires Aligned(s) && s.responder == Acking
    ensures s.gate.ToAck() && s.base in s.answered
  {
    var c, a := s.Last(), AckedReplies(s);
    assert InFlight(s) && ConnSound(c, s.answered);
    if s.lag == 0 && a >= 0 {
      assert c.sent[a] == s.base;
    }
  }

  lemma StepDelivers(s: State, step: Step)
    requires Aligned(s) && Delivered(s) && CleanStep(s, step)
    ensures Delivered(Next(s, step))
  {
    if step.AckOldest? && Enabled(s, step) {
      AckIsForOldest(s);
    }
  }

  lemma {:induction false} CleanRunKeeps(s: State, steps: seq<Step>)
    requires Aligned(s) && Delivered(s) && Clean(s, steps)
    ensures Aligned(Run(s, steps)) && Delivered(Run(s, steps))
  {
    if |steps| > 0 {
      var before := steps[..|steps| - 1];
      CleanRunKeeps(s, before);
      StepKeepsAligned(Run(s, before), steps[|steps| - 1]);
      StepDelivers(Run(s, before), steps[|steps| - 1]);
    }
  }

  // ---------------------------------------------------------------- what a run records

  predicate RepliedOn(c: Conn, p: nat) {
    exists j :: 0 <= j < c.replies && j < |c.sent| && c.sent[j] == p
  }

  /** The server wrote an answer to entry `p` on one of the connections. */
  predicate Replied(s: State, p: nat) {
    exists i :: 0 <= i < |s.conns| && RepliedOn(s.conns[i], p)
  }

  /** The answers on a connection are to the first entries that it sent, and `answered` are the entries with an answer. */
  ghost predicate Recorded(s: State) {
    && (forall i :: 0 <= i < |s.conns| ==> s.conns[i].replies <= s.conns[i].handled <= |s.conns[i].sent|)
    && (forall p :: p in s.answered <==> Replied(s, p))
  }

  lemma SameReplies(s: State, t: State)
    requires |s.conns| <= |t.conns|
    requires forall i :: 0 <= i < |s.conns| ==>
      s.conns[i].replies == t.conns[i].replies <= |s.conns[i].sent| && s.conns[i].sent <= t.conns[i].sent
    requires forall i :: |s.conns| <= i < |t.conns| ==> t.conns[i].replies == 0
    ensures forall p :: Replied(s, p) <==> Replied(t, p)
  {
    forall p ensures Replied(s, p) <==> Replied(t, p) {
      if Replied(s, p) {
        var i :| 0 <= i < |s.conns| && RepliedOn(s.conns[i], p);
        assert RepliedOn(t.conns[i], p);
      }
      if Replied(t, p) {
        var i :| 0 <= i < |t.conns| && RepliedOn(t.conns[i], p);
        assert RepliedOn(s.conns[i], p);
      }
    }
  }

  lemma AnswerRecorded(s: State, i: nat)
    requires Recorded(s) && Enabled(s, Handle(i, true)) && s.conns[i].replies == s.conns[i].handled
    ensures Recorded(Effect(s, Handle(i, true)))
  {
    var t, c := Effect(s, Handle(i, true)), s.conns[i];
    forall p ensures Replied(t, p) <==> Replied(s, p) || p == c.sent[c.handled] {
      if Replied(s, p) {
        var k :| 0 <= k < |s.conns| && RepliedOn(s.conns[k], p);
        assert RepliedOn(t.conns[k], p);
      }
      if p == c.sent[c.handled] {
        assert t.conns[i].sent[c.handled] == p && RepliedOn(t.conns[i], p);
      }
      if Replied(t, p) && p != c.sent[c.handled] {
        var k :| 0 <= k < |t.conns| && RepliedOn(t.conns[k], p);
        assert RepliedOn(s.conns[k], p);
      }
    }
  }

  lemma StepKeepsRecorded(s: State, step: Step)
    requires Recorded(s)
    ensures Recorded(Next(s, step))
  {
    if Enabled(s, step) {
      if step.Handle? && step.replied && s.conns[step.i].replies == s.conns[step.i].handled {
        AnswerRecorded(s, step.i);
      } else {
        SameReplies(s, Next(s, step));
      }
    }
  }

  /** Over every run, clean or not: an entry counts as answered if and only if the server wrote an answer to it on one of
      the connections. */
  lemma {:induction false} AnsweredIff(cap: nat, steps: seq<Step>)
    ensures Recorded(Run(Init(cap), steps))
  {
    if |steps| > 0 {
      AnsweredIff(cap, steps[..|steps| - 1]);
      StepKeepsRecorded(Run(Init(cap), steps[..|steps| - 1]), steps[|steps| - 1]);
    }
  }

  predicate Replaces(s: State, step: Step, p: nat) {
    step.Replace? && !s.gate.closedWriting && s.gate.len >= s.gate.cap && s.base == p
  }

  function ReplacementOf(s: State, p: nat): Event<Step> {
    (before: seq<Step>, step: Step) => Replaces(Run(s, before), step, p)
  }

  /** Some step of the run was a write to a full channel whose oldest entry was `p`. */
  predicate ReplacedIn(s: State, steps: seq<Step>, p: nat) {
    Happens(ReplacementOf(s, p), steps)
  }

  lemma StepReplaces(s: State, step: Step, p: nat)
    ensures p in Next(s, step).replaced <==> p in s.replaced || Replaces(s, step, p)
  {
  }

  /** Over every run: an entry counts as replaced if and only if some write replaced it. */
  lemma {:induction false} ReplacedIff(cap: nat, steps: seq<Step>)
    ensures forall p :: p in Run(Init(cap), steps).replaced <==> ReplacedIn(Init(cap), steps, p)
  {
    if |steps| > 0 {
      ReplacedIff(cap, steps[..|steps| - 1]);
      forall p ensures p in Run(Init(cap), steps).replaced <==> ReplacedIn(Init(cap), steps, p) {
        HappensNext(ReplacementOf(Init(cap), p), steps);
        StepReplaces(Run(Init(cap), steps[..|steps| - 1]), steps[|steps| - 1], p);
      }
    }
  }

  /** Where entry `p`, once accepted, can be: still in the queue; answered on one of the connections; or replaced. */
  predicate AccountedFor(cap: nat, steps: seq<Step>, p: nat) {
    var s := Run(Init(cap), steps);
    s.base <= p < s.base + s.gate.len || Replied(s, p) || ReplacedIn(Init(cap), steps, p)
  }

  /** At-least-once delivery: over every run, with any number of lost connections and torn sends, in which sessions start
      cleanly, an accepted entry is still in the queue, or the server read it and wrote an answer to it on one of the
      connections, unless a full channel replaced it; with writers that never replace, an entry leaves the queue only after
      such an answer. */
  lemma AtLeastOnce(cap: nat, steps: seq<Step>)
    requires cap > 0 && Clean(Init(cap), steps)
    ensures Delivered(Run(Init(cap), steps))
    ensures forall p :: 0 <= p < Run(Init(cap), steps).accepted ==> AccountedFor(cap, steps, p)
    ensures (forall k :: 0 <= k < |steps| ==> steps[k] != Replace) ==>
      forall p :: 0 <= p < Run(Init(cap), steps).base ==> Replied(Run(Init(cap), steps), p)
  {
    CleanRunKeeps(Init(cap), steps);
    AnsweredIff(cap, steps);
    ReplacedIff(cap, steps);
    if forall k :: 0 <= k < |steps| ==> steps[k] != Replace {
      NothingReplaced(cap, steps);
    }
  }

  /** Writers that block or fail never replace, so there every entry that left the queue was answered. */
  lemma {:induction false} NothingReplaced(cap: nat, steps: seq<Step>)
    requires forall k :: 0 <= k < |steps| ==> steps[k] != Replace
    ensures Run(Init(cap), steps).replaced == {}
  {
    if |steps| > 0 {
      NothingReplaced(cap, steps[..|steps| - 1]);
    }
  }

  /** Connection `i` as it is now: nothing more is answered on it. */
  predicate Silenced(s: State, i: nat, replies: nat) {
    i < |s.conns| && s.conns[i].replies == replies < s.conns[i].handled
  }

  lemma StepKeepsSilence(s: State, i: nat, replies: nat, step: Step)
    requires Silenced(s, i, replies)
    ensures Silenced(Next(s, step), i, replies)
  {
  }

  /** An answer that could not be written is the last: the connection has no later one, over every run. */
  lemma {:induction false} FailedAnswerIsLast(s: State, i: nat, steps: seq<Step>)
    requires Enabled(s, Handle(i, false)) && s.conns[i].replies <= s.conns[i].handled
    ensures var t := Next(s, Handle(i, false)); t.answered == s.answered && Silenced(Run(t, steps), i, s.conns[i].replies)
  {
    if |steps| > 0 {
      FailedAnswerIsLast(s, i, steps[..|steps| - 1]);
      StepKeepsSilence(Run(Next(s, Handle(i, false)), steps[..|steps| - 1]), i, s.conns[i].replies, steps[|steps| - 1]);
    }
  }

  // ---------------------------------------------------------------- closing

  lemma StepFlags(s: State, step: Step)
    requires s.gate.closed ==> s.gate.closedWriting
    ensures Next(s, step).gate.closed <==> s.gate.closed || step.Shut?
    ensures Next(s, step).gate.closedWriting <==> s.gate.closedWriting || step.Shut? || step.StopWriting?
  {
  }

  /** Over every run: the channel is closed if and only if the client was closed forcefully, and closed to writers if and only if
      it was closed in either way. */
  lemma {:induction false} ClosedIff(cap: nat, steps: seq<Step>)
    ensures var g := Run(Init(cap), steps).gate;
      (g.closed <==> Shut in steps) && (g.closedWriting <==> Shut in steps || StopWriting in steps)
  {
    if |steps| > 0 {
      var n := |steps| - 1;
      ClosedIff(cap, steps[..n]);
      StepFlags(Run(Init(cap), steps[..n]), steps[n]);
      assert steps == steps[..n] + [steps[n]];
    }
  }

  /** Both threads are between two rounds. */
  predicate Resting(s: State) { s.sender == Idle && s.responder == Waiting }

  /** Nothing was sent, read or acknowledged between `s` and `t`. */
  predicate SameTraffic(s: State, t: State) {
    && t.base == s.base && t.gate.awaiting == s.gate.awaiting && |t.conns| == |s.conns|
    && forall i :: 0 <= i < |s.conns| ==> t.conns[i].sent == s.conns[i].sent && t.conns[i].consumed == s.conns[i].consumed
  }

  lemma RestingStep(s: State, step: Step)
    requires Resting(s) && s.gate.closed && s.gate.closedWriting
    ensures var t := Next(s, step); Resting(t) && t.gate.closed && t.gate.closedWriting && SameTraffic(s, t)
  {
  }

  /** After a forceful close, over every run: no thread starts another round, and once both have finished the round they were in,
      nothing is sent, read or acknowledged any more, whatever else happens. */
  lemma {:induction false} ClosedIsFinal(cap: nat, steps: seq<Step>, more: seq<Step>)
    requires Shut in steps
    ensures var s := Run(Init(cap), steps); var t := Run(s, more);
      && !Enabled(s, SenderWait) && !Enabled(s, ResponderWait)
      && (Resting(s) ==> Resting(t) && t.gate.closed && t.gate.closedWriting && SameTraffic(s, t))
    decreases |more|
  {
    ClosedIff(cap, steps);
    if |more| > 0 {
      var n := |more| - 1;
      var s := Run(Init(cap), steps);
      ClosedIsFinal(cap, steps, more[..n]);
      if Resting(s) {
        RestingStep(Run(s, more[..n]), more[n]);
      }
    }
  }

  /** The disconnect at the end of a forceful close leaves no connection open. */
  lemma HangUpDisconnects(s: State)
    requires Aligned(s) && s.gate.closed
    ensures var t := Next(s, HangUp); t.link == NoLink && forall i :: 0 <= i < |t.conns| ==> !t.conns[i].open
  {
  }

  // ---------------------------------------------------------------- runs, loss and safety

  /** Entry `p` left the queue although the server neither answered it nor had it replaced. */
  predicate LostEntry(s: State, p: nat) {
    p < s.base && p !in s.answered && p !in s.replaced
  }

  lemma Then(s: State, steps: seq<Step>, step: Step)
    ensures Run(s, steps + [step]) == Next(Run(s, steps), step)
  {
    assert (steps + [step])[..|steps|] == steps;
  }

  lemma {:induction false} RunAppend(s: State, xs: seq<Step>, ys: seq<Step>)
    ensures Run(s, xs + ys) == Run(Run(s, xs), ys)
  {
    if |ys| == 0 {
      assert xs + ys == xs;
    } else {
      RunAppend(s, xs, ys[..|ys| - 1]);
      assert (xs + ys)[..|xs + ys| - 1] == xs + ys[..|ys| - 1];
    }
  }

  lemma RunTwo(s: State, a: Step, b: Step)
    ensures Run(s, [a, b]) == Next(Next(s, a), b)
  {
    Then(s, [], a);
    Then(s, [a], b);
    assert [] + [a] == [a];
  }

  lemma {:induction false} QuietRunIsClean(s: State, steps: seq<Step>)
    requires forall k :: 0 <= k < |steps| ==> steps[k] != Connect && steps[k] != Replace
    ensures Clean(s, steps)
  {
    if |steps| > 0 {
      QuietRunIsClean(s, steps[..|steps| - 1]);
    }
  }

  /** Every clean continuation delivers. */
  ghost predicate Safe(s: State) {
    forall steps :: Clean(s, steps) ==> Delivered(Run(s, steps))
  }

  lemma AlignedIsSafe(s: State)
    requires Aligned(s) && Delivered(s)
    ensures Safe(s)
  {
    forall steps | Clean(s, steps) ensures Delivered(Run(s, steps)) {
      CleanRunKeeps(s, steps);
    }
  }

  lemma LossIsUnsafe(s: State, steps: seq<Step>, p: nat)
    requires Clean(s, steps) && LostEntry(Run(s, steps), p)
    ensures !Safe(s)
  {
    assert !Delivered(Run(s, steps));
  }
}
