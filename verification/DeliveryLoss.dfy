/** What happens to delivery without the hypothesis on sessions and replacements: which steps are safe, exactly. */
module DeliveryLoss {
  import ChannelGate
  import opened Delivery

  // ---------------------------------------------------------------- what the parts of a session do

  function Current(s: State): Conn
    requires HasLink(s)
  {
    s.conns[s.link.i]
  }

  /** The sender sends the next unread entry on the connection it has; steps that it is already past do nothing. */
  function SendOne(): seq<Step> { [SenderWait, UseLink] + [Send] }

  function AfterSend(s: State): State
    requires HasLink(s)
  {
    WithConn(s, s.link.i, Current(s).(sent := Current(s).sent + [ReadPos(s)])).(gate := s.gate.Taken(), sender := Idle)
  }

  lemma Sends(s: State)
    requires s.gate.InOrder() && s.gate.ToRead() && !s.gate.closed && s.sender != Failed && HasLink(s)
    ensures Run(s, SendOne()) == AfterSend(s)
  {
    var s1 := ReadyToSend(s);
    SendTakes(s);
    RunTwo(s, SenderWait, UseLink);
    Then(s, [SenderWait, UseLink], Send);
  }

  lemma SendTakes(s: State)
    requires s.gate.InOrder() && s.gate.ToRead() && HasLink(s)
    ensures Next(s.(sender := Linked), Send) == AfterSend(s)
  {
  }

  lemma ReadyToSend(s: State) returns (t: State)
    requires s.gate.ToRead() && !s.gate.closed && s.sender != Failed && HasLink(s)
    ensures t == Next(Next(s, SenderWait), UseLink) == s.(sender := Linked)
  {
    t := s.(sender := Linked);
  }

  /** The responder reads one answer and acknowledges the oldest entry, whatever entry the answer is for. */
  function AckOne(): seq<Step> { [ResponderWait, Load] + [Reply, AckOldest] }

  function AfterAck(s: State): State
    requires HasLink(s)
  {
    WithConn(s, s.link.i, Current(s).(consumed := Current(s).consumed + 1)).(
      gate := s.gate.Acked(), base := s.base + 1, responder := Waiting)
  }

  /** The responder waits, was woken, or reads from the current connection. */
  predicate CanRead(s: State) {
    s.responder == Waiting || s.responder == Woken || (s.link.Link? && s.responder == Holding(s.link.i))
  }

  lemma Acks(s: State)
    requires HasLink(s) && CanRead(s) && s.gate.ToAck() && !s.gate.closed
    requires Current(s).open && Current(s).consumed < Current(s).replies
    ensures Run(s, AckOne()) == AfterAck(s)
  {
    var s1 := ReadyToRead(s);
    RunTwo(s, ResponderWait, Load);
    ReadsAndAcks(s);
    RunTwo(s1, Reply, AckOldest);
    RunAppend(s, [ResponderWait, Load], [Reply, AckOldest]);
  }

  lemma ReadsAndAcks(s: State)
    requires HasLink(s) && s.gate.ToAck() && Current(s).open && Current(s).consumed < Current(s).replies
    ensures Next(Next(s.(responder := Holding(s.link.i)), Reply), AckOldest) == AfterAck(s)
  {
  }

  lemma ReadyToRead(s: State) returns (t: State)
    requires HasLink(s) && CanRead(s) && s.gate.ToAck() && !s.gate.closed
    ensures t == Next(Next(s, ResponderWait), Load) == s.(responder := Holding(s.link.i))
  {
    t := s.(responder := Holding(s.link.i));
  }

  /** The server answers the next entry. */
  function AfterAnswer(s: State): State
    requires HasLink(s) && Current(s).handled < |Current(s).sent|
  {
    var c := Current(s);
    WithConn(s, s.link.i, c.(handled := c.handled + 1, replies := c.replies + 1)).(answered := s.answered + {c.sent[c.handled]})
  }

  lemma RunOne(s: State, step: Step)
    ensures Run(s, [step]) == Next(s, step)
  {
    Then(s, [], step);
    assert [] + [step] == [step];
  }

  lemma ServerAnswers(s: State, n: nat)
    requires HasLink(s) && n == s.link.i && Current(s).replies == Current(s).handled < |Current(s).sent|
    ensures Run(s, [Handle(n, true)]) == AfterAnswer(s)
  {
    HandleAnswers(s, n);
    RunOne(s, Handle(n, true));
  }

  lemma HandleAnswers(s: State, n: nat)
    requires HasLink(s) && n == s.link.i && Current(s).replies == Current(s).handled < |Current(s).sent|
    ensures Next(s, Handle(n, true)) == AfterAnswer(s)
  {
  }

  // ---------------------------------------------------------------- a session that lags behind

  /** A session in which every entry sent was answered and every answer read, with entries in flight from before it. */
  predicate Steady(s: State, n: nat) {
    && s.link == Link(n) && HasLink(s) && CanRead(s) && s.sender != Failed
    && s.gate.InOrder() && s.gate.ToRead() && s.gate.ToAck() && !s.gate.closed
    && Current(s).open && |Current(s).sent| == Current(s).handled == Current(s).replies == Current(s).consumed
  }

  /** An entry is sent and answered, the oldest is acknowledged, and another is written. */
  function Cycle(n: nat): seq<Step> { SendOne() + [Handle(n, true)] + (AckOne() + [Write]) }

  lemma CycleLags(s: State, n: nat)
    requires Steady(s, n)
    ensures var t := Run(s, Cycle(n));
      && Steady(t, n) && t.gate.awaiting == s.gate.awaiting && t.base == s.base + 1
      && t.answered == s.answered + {s.base + s.gate.awaiting} && t.replaced == s.replaced
  {
    var s1 := AfterSend(s);
    var s2 := AfterAnswer(s1);
    var s3 := AfterAck(s2);
    Sends(s);
    ServerAnswers(s1, n);
    RunAppend(s, SendOne(), [Handle(n, true)]);
    Acks(s2);
    Then(s2, AckOne(), Write);
    RunAppend(s, SendOne() + [Handle(n, true)], AckOne() + [Write]);
  }

  function Cycles(n: nat, k: nat): seq<Step> {
    if k == 0 then [] else Cycles(n, k - 1) + Cycle(n)
  }

  lemma {:induction false} CyclesLag(s: State, n: nat, k: nat)
    requires Steady(s, n)
    ensures var t := Run(s, Cycles(n, k));
      && Steady(t, n) && t.gate.awaiting == s.gate.awaiting && t.base == s.base + k && t.replaced == s.replaced
      && forall p :: p in t.answered ==> p in s.answered || p >= s.base + s.gate.awaiting
  {
    if k > 0 {
      CyclesLag(s, n, k - 1);
      CycleLags(Run(s, Cycles(n, k - 1)), n);
      RunAppend(s, Cycles(n, k - 1), Cycle(n));
    }
  }

  /** No step of `steps` opens a connection or replaces an entry. */
  predicate Tame(steps: seq<Step>) {
    forall k :: 0 <= k < |steps| ==> steps[k] != Connect && steps[k] != Replace
  }

  lemma TameAppend(xs: seq<Step>, ys: seq<Step>)
    requires Tame(xs) && Tame(ys)
    ensures Tame(xs + ys)
  {
  }

  lemma {:induction false} CyclesTame(n: nat, k: nat)
    ensures Tame(Cycles(n, k))
  {
    if k > 0 {
      CyclesTame(n, k - 1);
      TameAppend(Cycles(n, k - 1), Cycle(n));
    }
  }

  lemma LostBy(s: State, steps: seq<Step>, p: nat)
    requires Tame(steps) && LostEntry(Run(s, steps), p)
    ensures !Safe(s)
  {
    QuietRunIsClean(s, steps);
    LossIsUnsafe(s, steps, p);
  }

  /** In a session that lags behind, an unanswered entry from before it is lost when its turn comes: the answers to
      newer entries acknowledge it. */
  lemma LaggingLoses(s: State, n: nat, p: nat) returns (steps: seq<Step>)
    requires Steady(s, n) && s.base <= p < s.base + s.gate.awaiting && p !in s.answered && p !in s.replaced
    ensures Tame(steps) && LostEntry(Run(s, steps), p)
  {
    steps := Cycles(n, p - s.base + 1);
    CyclesLag(s, n, p - s.base + 1);
    CyclesTame(n, p - s.base + 1);
  }

  /** A connection is opened with the responder between two reads. */
  lemma OpensSteady(s: State)
    requires s.gate.InOrder() && s.gate.ToRead() && s.gate.ToAck() && !s.gate.closed
    requires s.sender == Ready && s.link == NoLink && CanRead(s)
    ensures var t := Next(s, Connect);
      Steady(t, |s.conns|) && t.gate == s.gate && t.base == s.base && t.answered == s.answered && t.replaced == s.replaced
  {
  }

  /** A connection is opened while an acknowledgement is due. */
  lemma OpensAcking(s: State)
    requires s.gate.InOrder() && s.gate.ToRead() && s.gate.awaiting >= 2 && !s.gate.closed
    requires s.sender == Ready && s.link == NoLink && s.responder == Acking
    ensures var t := Run(Next(s, Connect), [AckOldest]);
      && Steady(t, |s.conns|) && t.gate.awaiting == s.gate.awaiting - 1 && t.base == s.base + 1
      && t.answered == s.answered && t.replaced == s.replaced
  {
    RunOne(Next(s, Connect), AckOldest);
  }

  /** Unless the responder is retiring or rewinding, a session opened with an unanswered entry in flight can lose it. */
  lemma ConnectLoses(s: State, p: nat) returns (steps: seq<Step>)
    requires Aligned(s) && !s.gate.closed && s.sender == Ready && s.link == NoLink
    requires !Retiring(s) && s.responder != Rewinding
    requires s.base <= p < s.base + s.gate.awaiting && p !in s.answered
    ensures Tame(steps) && LostEntry(Run(Next(s, Connect), steps), p)
  {
    if s.responder == Acking {
      AckIsForOldest(s);
      OpensAcking(s);
      var rest := LaggingLoses(Run(Next(s, Connect), [AckOldest]), |s.conns|, p);
      LosesLater(Next(s, Connect), [AckOldest], rest, p);
      steps := [AckOldest] + rest;
    } else {
      OpensSteady(s);
      steps := LaggingLoses(Next(s, Connect), |s.conns|, p);
    }
  }

  // ---------------------------------------------------------------- a session opened before the rewind

  /** A session with one answer more than there are entries in flight. */
  predicate Skewed(s: State, n: nat) {
    && s.link == Link(n) && HasLink(s) && CanRead(s) && s.sender != Failed
    && s.gate.InOrder() && s.gate.awaiting == 0 && s.gate.ToRead() && !s.gate.closed
    && Current(s).open && |Current(s).sent| == Current(s).handled == Current(s).replies == Current(s).consumed + 1
  }

  /** An answer is there to be read although it is for an entry that is not in flight any more. */
  predicate AnswerPending(s: State) {
    && HasLink(s) && CanRead(s) && s.sender != Failed
    && s.gate.InOrder() && s.gate.ToRead() && !s.gate.closed
    && Current(s).open && Current(s).consumed < Current(s).replies
  }

  /** An entry is sent, and that answer acknowledges the oldest one. */
  function HalfCycle(): seq<Step> { SendOne() + AckOne() }

  lemma AcksEarly(s: State)
    requires AnswerPending(s)
    ensures Run(s, HalfCycle()) == AfterAck(AfterSend(s))
  {
    Sends(s);
    Acks(AfterSend(s));
    RunAppend(s, SendOne(), AckOne());
  }

  lemma PendingLoses(s: State)
    requires AnswerPending(s) && s.base !in s.answered && s.base !in s.replaced
    ensures LostEntry(Run(s, HalfCycle()), s.base)
  {
    AcksEarly(s);
  }

  /** Then the server answers it, and another is written. */
  function SkewedCycle(n: nat): seq<Step> { HalfCycle() + ([Handle(n, true)] + [Write]) }

  lemma SkewedStays(s: State, n: nat)
    requires Skewed(s, n)
    ensures var t := Run(s, SkewedCycle(n));
      Skewed(t, n) && t.base == s.base + 1 && t.answered == s.answered + {s.base} && t.replaced == s.replaced
  {
    var s1 := AfterAck(AfterSend(s));
    AcksEarly(s);
    ServerAnswers(s1, n);
    Then(s1, [Handle(n, true)], Write);
    RunAppend(s, HalfCycle(), [Handle(n, true)] + [Write]);
  }

  function SkewedCycles(n: nat, k: nat): seq<Step> {
    if k == 0 then [] else SkewedCycles(n, k - 1) + SkewedCycle(n)
  }

  lemma {:induction false} SkewedTame(n: nat, k: nat)
    ensures Tame(SkewedCycles(n, k))
  {
    if k > 0 {
      SkewedTame(n, k - 1);
      TameAppend(SkewedCycles(n, k - 1), SkewedCycle(n));
    }
  }

  lemma {:induction false} SkewedRuns(s: State, n: nat, k: nat)
    requires Skewed(s, n)
    ensures var t := Run(s, SkewedCycles(n, k));
      && Skewed(t, n) && t.base == s.base + k && t.replaced == s.replaced
      && forall p :: p in t.answered ==> p in s.answered || p < s.base + k
  {
    if k > 0 {
      SkewedRuns(s, n, k - 1);
      SkewedStays(Run(s, SkewedCycles(n, k - 1)), n);
      RunAppend(s, SkewedCycles(n, k - 1), SkewedCycle(n));
    }
  }

  /** Some position from `from` on is not in a finite set. */
  lemma {:induction false} Outside(taken: set<nat>, from: nat) returns (p: nat)
    ensures p >= from && p !in taken
    decreases |taken|
  {
    if from !in taken {
      p := from;
    } else {
      p := Outside(taken - {from}, from + 1);
    }
  }

  /** So in a skewed session the first entry that was not answered before is lost, and there always is one to come. */
  lemma SkewedLoses(s: State, n: nat) returns (steps: seq<Step>, p: nat)
    requires Skewed(s, n) && forall q :: q in s.replaced ==> q < s.base
    ensures Tame(steps) && LostEntry(Run(s, steps), p)
  {
    p := Outside(s.answered, s.base);
    var cycles := SkewedCycles(n, p - s.base);
    SkewedReaches(s, n, p, Run(s, cycles));
    SkewedTame(n, p - s.base);
    HalfCycleTame();
    LosesLater(s, cycles, HalfCycle(), p);
    steps := cycles + HalfCycle();
  }

  lemma HalfCycleTame()
    ensures Tame(HalfCycle())
  {
  }

  lemma LosesLater(s: State, xs: seq<Step>, ys: seq<Step>, p: nat)
    requires Tame(xs) && Tame(ys) && LostEntry(Run(Run(s, xs), ys), p)
    ensures Tame(xs + ys) && LostEntry(Run(s, xs + ys), p)
  {
    RunAppend(s, xs, ys);
    TameAppend(xs, ys);
  }

  lemma SkewedReaches(s: State, n: nat, p: nat, t: State)
    requires Skewed(s, n) && s.base <= p && p !in s.answered && forall q :: q in s.replaced ==> q < s.base
    requires t == Run(s, SkewedCycles(n, p - s.base))
    ensures LostEntry(Run(t, HalfCycle()), p)
  {
    SkewedRuns(s, n, p - s.base);
    SkewedIsPending(t, n);
    PendingLoses(t);
  }

  lemma SkewedIsPending(s: State, n: nat)
    requires Skewed(s, n)
    ensures AnswerPending(s)
  {
  }

  /** A connection is opened, carries an answered entry, and then the responder rewinds. */
  function Gap(n: nat): seq<Step> { SendOne() + ([Handle(n, true)] + [RewindAll]) }

  lemma GapSkews(s: State, n: nat)
    requires s.gate.InOrder() && s.gate.ToRead() && s.gate.ToAck() && !s.gate.closed
    requires s.sender == Ready && s.link == NoLink && s.responder == Rewinding && n == |s.conns|
    ensures var t := Run(Next(s, Connect), Gap(n));
      Skewed(t, n) && t.base == s.base && t.replaced == s.replaced
  {
    var s1 := Next(s, Connect);
    var s2 := AfterSend(s1);
    Sends(s1);
    ServerAnswers(s2, n);
    Then(s2, [Handle(n, true)], RewindAll);
    RunAppend(s1, SendOne(), [Handle(n, true)] + [RewindAll]);
  }

  /** The response path drops the connection and rewinds in two steps. Opening a connection between them is never safe:
      afterwards every answer acknowledges an entry that comes after the one it is for. */
  lemma RewindingNeverSafe(s: State)
    requires Aligned(s) && !s.gate.closed && s.sender == Ready && s.link == NoLink && s.responder == Rewinding
    ensures !Safe(Next(s, Connect))
  {
    var n, s1 := |s.conns|, Next(s, Connect);
    GapSkews(s, n);
    var steps, p := SkewedLoses(Run(s1, Gap(n)), n);
    LosesLater(s1, Gap(n), steps, p);
    LostBy(s1, Gap(n) + steps, p);
  }

  /** In every phase of the responder, opening a connection is safe if and only if it is clean: a retiring responder makes
      it safe whatever is in flight, a rewinding one never, and otherwise every entry in flight must have been answered. */
  lemma ConnectSafeIff(s: State)
    requires Aligned(s) && Delivered(s) && !s.gate.closed && s.sender == Ready && s.link == NoLink
    ensures Safe(Next(s, Connect)) <==> CleanConnect(s)
  {
    if CleanConnect(s) {
      StepKeepsAligned(s, Connect);
      StepDelivers(s, Connect);
      AlignedIsSafe(Next(s, Connect));
    } else if s.responder == Rewinding {
      RewindingNeverSafe(s);
    } else {
      var p :| s.base <= p < s.base + s.gate.awaiting && p !in s.answered;
      var steps := ConnectLoses(s, p);
      LostBy(Next(s, Connect), steps, p);
    }
  }

  // ---------------------------------------------------------------- replacing an entry in flight

  /** A full channel and a working session that started with nothing in flight. */
  predicate Replaceable(s: State) {
    && !s.gate.SpaceLeft() && !s.gate.closed && !s.gate.closedWriting
    && HasLink(s) && !Current(s).broken && Current(s).replies == Current(s).handled
    && s.sender != Failed && (CanRead(s) || s.responder == Acking) && s.lag == 0
  }

  /** A session with one answer more to come than there are entries in flight. */
  predicate OneTooMany(s: State, n: nat) {
    && s.link == Link(n) && HasLink(s) && CanRead(s) && s.sender != Failed
    && s.gate.InOrder() && s.gate.ToRead() && !s.gate.closed
    && Current(s).open && Current(s).consumed <= Current(s).replies == Current(s).handled <= |Current(s).sent|
    && |Current(s).sent| == Current(s).consumed + s.gate.awaiting + 1
  }

  lemma ReplaceMakesOneTooMany(s: State, n: nat)
    requires Aligned(s) && Replaceable(s) && CanRead(s) && s.gate.ToAck() && n == s.link.i
    ensures var t := Next(s, Replace); OneTooMany(t, n) && t.base == s.base + 1 && t.replaced == s.replaced + {s.base}
  {
    assert InFlight(s);
  }

  /** An acknowledgement that was due for the replaced entry goes to another one, sent before it. */
  lemma ReplaceBeforeAck(s: State, n: nat)
    requires Aligned(s) && Replaceable(s) && s.responder == Acking && n == s.link.i
    ensures var t := Run(Next(s, Replace), SendOne() + ([AckOldest] + [Write]));
      OneTooMany(t, n) && t.base >= s.base + 1 && t.replaced == s.replaced + {s.base}
  {
    var s1 := Next(s, Replace);
    var s2 := AfterSend(s1);
    assert InFlight(s);
    Sends(s1);
    AckThenWrite(s2, n);
    RunAppend(s1, SendOne(), [AckOldest] + [Write]);
  }

  lemma AckThenWrite(s: State, n: nat)
    requires s.link == Link(n) && HasLink(s) && s.responder == Acking && s.sender != Failed
    requires s.gate.InOrder() && s.gate.ToAck() && !s.gate.closed
    requires Current(s).open && Current(s).consumed <= Current(s).replies == Current(s).handled <= |Current(s).sent|
    requires |Current(s).sent| == Current(s).consumed + s.gate.awaiting
    ensures var t := Run(s, [AckOldest] + [Write]); OneTooMany(t, n) && t.base == s.base + 1 && t.replaced == s.replaced
  {
    RunOne(s, AckOldest);
    Then(s, [AckOldest], Write);
  }

  /** The server answers all there is, and the responder reads all but one answer. */
  lemma {:induction false} Drains(s: State, n: nat) returns (steps: seq<Step>)
    requires OneTooMany(s, n)
    ensures Tame(steps)
    ensures var t := Run(s, steps); Skewed(t, n) && t.base >= s.base && t.replaced == s.replaced
    decreases |s.conns[n].sent| - s.conns[n].handled, s.gate.awaiting
  {
    if Current(s).handled < |Current(s).sent| {
      DrainAnswer(s, n);
      var rest := Drains(AfterAnswer(s), n);
      RunAppend(s, [Handle(n, true)], rest);
      steps := [Handle(n, true)] + rest;
    } else if s.gate.awaiting > 0 {
      DrainAck(s, n);
      var rest := Drains(AfterAck(s), n);
      RunAppend(s, AckOne(), rest);
      TameAppend(AckOne(), rest);
      steps := AckOne() + rest;
    } else {
      steps := [];
    }
  }

  lemma DrainAnswer(s: State, n: nat)
    requires OneTooMany(s, n) && Current(s).handled < |Current(s).sent|
    ensures Run(s, [Handle(n, true)]) == AfterAnswer(s) && OneTooMany(AfterAnswer(s), n)
  {
    ServerAnswers(s, n);
  }

  lemma DrainAck(s: State, n: nat)
    requires OneTooMany(s, n) && Current(s).handled == |Current(s).sent| && s.gate.awaiting > 0
    ensures Run(s, AckOne()) == AfterAck(s) && OneTooMany(AfterAck(s), n)
  {
    Acks(s);
  }

  lemma OneTooManyLoses(s: State, n: nat) returns (steps: seq<Step>, p: nat)
    requires OneTooMany(s, n) && forall q :: q in s.replaced ==> q < s.base
    ensures Tame(steps) && LostEntry(Run(s, steps), p)
  {
    var drain := Drains(s, n);
    var rest;
    rest, p := SkewedLoses(Run(s, drain), n);
    LosesLater(s, drain, rest, p);
    steps := drain + rest;
  }

  /** With a working session, replacing an entry in flight is never safe. */
  lemma ReplaceLoses(s: State) returns (steps: seq<Step>, p: nat)
    requires Aligned(s) && Replaceable(s) && s.gate.ToAck()
    ensures Tame(steps) && LostEntry(Run(Next(s, Replace), steps), p)
  {
    var s1, n := Next(s, Replace), s.link.i;
    if s.responder == Acking {
      var first := SendOne() + ([AckOldest] + [Write]);
      ReplaceBeforeAck(s, n);
      steps, p := OneTooManyLoses(Run(s1, first), n);
      LosesLater(s1, first, steps, p);
      steps := first + steps;
    } else {
      ReplaceMakesOneTooMany(s, n);
      steps, p := OneTooManyLoses(s1, n);
    }
  }

  /** Letting go of the oldest entry is safe if and only if nothing is in flight. */
  lemma ReplaceSafeIff(s: State)
    requires Aligned(s) && Delivered(s) && Replaceable(s)
    ensures Safe(Next(s, Replace)) <==> s.gate.awaiting == 0
  {
    if s.gate.awaiting == 0 {
      StepKeepsAligned(s, Replace);
      StepDelivers(s, Replace);
      AlignedIsSafe(Next(s, Replace));
    } else {
      var steps, p := ReplaceLoses(s);
      LostBy(Next(s, Replace), steps, p);
    }
  }

  /** An answer to the only entry in flight that is read before the entry is replaced acknowledges nothing afterwards. */
  lemma LateAckIsIgnored(s: State)
    requires s.responder == Acking && s.gate.awaiting == 1 && s.gate.InOrder() && !s.gate.SpaceLeft() && !s.gate.closedWriting
    ensures var t := Next(Next(s, Replace), AckOldest);
      t == Next(s, Replace).(responder := Waiting) && t.base == s.base + 1 && t.gate.len == s.gate.len && t.gate.awaiting == 0
  {
  }

  // ---------------------------------------------------------------- how the code gets there

  /** The send-failure path: the send fails, the connection is dropped without rewinding, and the sender is ready again. */
  function Failure(): seq<Step> { [SendFails(false), SenderDrops] + [SenderWait] }

  lemma SendFailureStrands(s: State)
    requires Aligned(s) && s.sender == Linked && s.link.Link? && !s.gate.closed
    ensures var t := Run(s, Failure());
      && t.gate == s.gate && t.responder == s.responder && |t.conns| == |s.conns|
      && t.sender == Ready && t.link == NoLink && t.accepted == s.accepted
      && t.base == s.base && t.answered == s.answered && t.replaced == s.replaced
  {
    RunTwo(s, SendFails(false), SenderDrops);
    Then(s, [SendFails(false), SenderDrops], SenderWait);
  }

  lemma SendFailureKeeps(s: State)
    requires Aligned(s)
    ensures Aligned(Run(s, Failure()))
  {
    StepKeepsAligned(s, SendFails(false));
    StepKeepsAligned(Next(s, SendFails(false)), SenderDrops);
    RunTwo(s, SendFails(false), SenderDrops);
    StepKeepsAligned(Run(s, [SendFails(false), SenderDrops]), SenderWait);
    Then(s, [SendFails(false), SenderDrops], SenderWait);
  }

  lemma SendFailureRetires(s: State, t: State)
    requires Aligned(s) && s.link.Link? && Aligned(t) && t.link == NoLink && t.responder == s.responder
    requires |t.conns| == |s.conns|
    ensures Retiring(t) <==> s.responder == Failing || s.responder.Holding?
  {
  }

  /** From every aligned state in the middle of a session: after a failed send, opening the next connection is safe if and
      only if the responder is reading or has failed, so that it will rewind, or everything in flight was answered. */
  lemma SendFailureSafeIff(s: State)
    requires Aligned(s) && Delivered(s) && s.sender == Linked && s.link.Link? && !s.gate.closed
    ensures Safe(Next(Run(s, Failure()), Connect)) <==>
      s.responder == Failing || s.responder.Holding? || FlightAnswered(s)
  {
    SendFailureStrands(s);
    SendFailureKeeps(s);
    SendFailureRetires(s, Run(s, Failure()));
    ConnectSafeIff(Run(s, Failure()));
  }

  /** Otherwise it can lose any unanswered entry in flight. */
  lemma SendFailureLoses(s: State, p: nat) returns (steps: seq<Step>)
    requires Aligned(s) && s.sender == Linked && s.link.Link? && !s.gate.closed
    requires s.responder != Failing && !s.responder.Holding?
    requires s.base <= p < s.base + s.gate.awaiting && p !in s.answered
    ensures LostEntry(Run(s, steps), p)
  {
    SendFailureStrands(s);
    SendFailureKeeps(s);
    var t := Run(s, Failure());
    SendFailureRetires(s, t);
    var rest := ConnectLoses(t, p);
    Then(s, Failure(), Connect);
    RunAppend(s, Failure() + [Connect], rest);
    steps := Failure() + [Connect] + rest;
  }

  /** Two writes, one send, and the sender about to send again: nothing here is out of the ordinary. */
  const MID_SESSION: State :=
    State(ChannelGate.Gate(2, 2, 1, false, false), 0, 2, [Conn([0], false, 0, 0, 0, true)], 0, Link(0), Linked, Waiting, {}, {})

  const TO_MID_SESSION: seq<Step> := [Write, Write] + [SenderWait, Connect] + ([Send, SenderWait] + [UseLink])

  lemma FirstConnection()
    ensures Run(Init(2), [Write, Write] + [SenderWait, Connect])
         == MID_SESSION.(gate := ChannelGate.Gate(2, 2, 0, false, false), conns := [Conn([], false, 0, 0, 0, true)])
  {
    RunTwo(Init(2), Write, Write);
    RunTwo(Run(Init(2), [Write, Write]), SenderWait, Connect);
    RunAppend(Init(2), [Write, Write], [SenderWait, Connect]);
  }

  lemma MidSession()
    ensures Run(Init(2), TO_MID_SESSION) == MID_SESSION
  {
    FirstConnection();
    var s := Run(Init(2), [Write, Write] + [SenderWait, Connect]);
    assert s.conns[0].sent + [0] == [0];
    RunTwo(s, Send, SenderWait);
    assert Run(s, [Send, SenderWait]).conns == MID_SESSION.conns;
    Then(s, [Send, SenderWait], UseLink);
    RunAppend(Init(2), [Write, Write] + [SenderWait, Connect], [Send, SenderWait] + [UseLink]);
  }

  /** Without the hypothesis on sessions at-least-once delivery fails: a run of the code loses entry 0. */
  lemma LossIsReachable() returns (steps: seq<Step>)
    ensures LostEntry(Run(Init(2), steps), 0) && !AccountedFor(2, steps, 0)
  {
    MidSession();
    var rest := SendFailureLoses(MID_SESSION, 0);
    RunAppend(Init(2), TO_MID_SESSION, rest);
    steps := TO_MID_SESSION + rest;
    LostIsUnaccounted(steps, 0);
  }

  /** A lost entry was answered on no connection and replaced by no write. */
  lemma LostIsUnaccounted(steps: seq<Step>, p: nat)
    requires LostEntry(Run(Init(2), steps), p)
    ensures !AccountedFor(2, steps, p)
  {
    AnsweredIff(2, steps);
    ReplacedIff(2, steps);
  }

  /** Without the one on replacing it fails too: a run that replaces entry 0, in flight, loses a later entry. */
  lemma ReplaceLossIsReachable() returns (steps: seq<Step>, p: nat)
    ensures LostEntry(Run(Init(2), steps), p) && !AccountedFor(2, steps, p)
  {
    MidSession();
    var rest;
    rest, p := ReplaceLoses(MID_SESSION);
    Then(Init(2), TO_MID_SESSION, Replace);
    RunAppend(Init(2), TO_MID_SESSION + [Replace], rest);
    steps := TO_MID_SESSION + [Replace] + rest;
    LostIsUnaccounted(steps, p);
  }

  predicate IsResponders(step: Step) {
    step.ResponderWait? || step.Load? || step.Reply? || step.AckOldest? || step.ReplyFails? || step.ResponderDrops? || step.RewindAll?
  }

  /** While there is no connection the responder only polls: whatever it does, nothing is acknowledged and nothing is rewound, so
      what a failed send left in flight stays there until the next session. */
  lemma {:induction false} PollsWithoutLink(s: State, steps: seq<Step>)
    requires s.link == NoLink && (s.responder == Waiting || s.responder == Woken)
    requires forall k :: 0 <= k < |steps| ==> IsResponders(steps[k])
    ensures var t := Run(s, steps); t == s.(responder := t.responder) && (t.responder == Waiting || t.responder == Woken)
  {
    if |steps| > 0 {
      var n := |steps| - 1;
      PollsWithoutLink(s, steps[..n]);
      PollWithoutLink(Run(s, steps[..n]), steps[n]);
    }
  }

  lemma PollWithoutLink(s: State, step: Step)
    requires s.link == NoLink && (s.responder == Waiting || s.responder == Woken) && IsResponders(step)
    ensures var t := Next(s, step); t == s.(responder := t.responder) && (t.responder == Waiting || t.responder == Woken)
  {
  }

  // ---------------------------------------------------------------- a failed read

  /** The response path: the sender has just found something to send when the read fails and the connection is dropped. */
  function ReadFailure(): seq<Step> { [SenderWait] + ([ResponderWait, Load] + [ReplyFails, ResponderDrops]) }

  lemma ReadFailureDrops(s: State)
    requires Aligned(s) && s.link.Link? && CanRead(s) && s.gate.ToAck() && s.gate.ToRead() && s.sender == Idle && !s.gate.closed
    ensures var t := Run(s, ReadFailure());
      && t.gate == s.gate && t.responder == Rewinding && t.sender == Ready && t.link == NoLink && |t.conns| == |s.conns|
      && t.accepted == s.accepted && t.base == s.base && t.answered == s.answered && t.replaced == s.replaced
  {
    var s0 := Next(s, SenderWait);
    RunOne(s, SenderWait);
    var s1 := ReadyToRead(s0);
    RunTwo(s0, ResponderWait, Load);
    var s2 := FailsAndDrops(s1);
    RunAppend(s0, [ResponderWait, Load], [ReplyFails, ResponderDrops]);
    RunAppend(s, [SenderWait], [ResponderWait, Load] + [ReplyFails, ResponderDrops]);
  }

  lemma FailsAndDrops(s: State) returns (t: State)
    requires s.responder.Holding? && HasLink(s)
    ensures t == Run(s, [ReplyFails, ResponderDrops]) && |t.conns| == |s.conns|
    ensures t == s.(responder := Rewinding, link := NoLink, conns := t.conns)
  {
    RunTwo(s, ReplyFails, ResponderDrops);
    t := Next(Next(s, ReplyFails), ResponderDrops);
  }

  lemma ReadFailureKeeps(s: State)
    requires Aligned(s) && Delivered(s)
    ensures Aligned(Run(s, ReadFailure())) && Delivered(Run(s, ReadFailure()))
  {
    QuietRunIsClean(s, ReadFailure());
    CleanRunKeeps(s, ReadFailure());
  }

  /** From every aligned state in the middle of a session: after a failed read, opening the next connection before the rewind is
      never safe, and after it always is, for then nothing is in flight. */
  lemma ReadFailureSafety(s: State)
    requires Aligned(s) && Delivered(s) && s.link.Link? && CanRead(s) && s.gate.ToAck() && s.gate.ToRead()
    requires s.sender == Idle && !s.gate.closed
    ensures var t := Run(s, ReadFailure());
      && !Safe(Next(t, Connect))
      && Safe(Next(Next(t, RewindAll), Connect)) && Next(t, RewindAll).gate.awaiting == 0
  {
    var t := Run(s, ReadFailure());
    ReadFailureDrops(s);
    ReadFailureKeeps(s);
    RewindingNeverSafe(t);
    RewoundIsSafe(t);
  }

  lemma RewoundIsSafe(s: State)
    requires Aligned(s) && Delivered(s) && !s.gate.closed && s.sender == Ready && s.link == NoLink && s.responder == Rewinding
    ensures Safe(Next(Next(s, RewindAll), Connect)) && Next(s, RewindAll).gate.awaiting == 0
  {
    RewindKeepsAligned(s);
    StepDelivers(s, RewindAll);
    ConnectSafeIff(Next(s, RewindAll));
  }

  /** This happens: a run from the start in which a session opens in that gap loses an entry. */
  lemma GapLossIsReachable() returns (steps: seq<Step>, p: nat)
    ensures LostEntry(Run(Init(2), steps), p) && !AccountedFor(2, steps, p)
  {
    var first := [Write, Write] + [SenderWait, Connect] + [Send];
    var s := MID_SESSION.(sender := Idle);
    FirstConnection();
    Then(Init(2), [Write, Write] + [SenderWait, Connect], Send);
    assert Run(Init(2), [Write, Write] + [SenderWait, Connect]).conns[0].sent + [0] == [0];
    assert Run(Init(2), first).conns == s.conns;
    ReadFailureDrops(s);
    ReadFailureKeeps(s);
    var t := Run(s, ReadFailure());
    var n, t1 := |t.conns|, Next(t, Connect);
    GapSkews(t, n);
    var rest;
    rest, p := SkewedLoses(Run(t1, Gap(n)), n);
    RunAppend(t1, Gap(n), rest);
    Then(s, ReadFailure(), Connect);
    RunAppend(s, ReadFailure() + [Connect], Gap(n) + rest);
    RunAppend(Init(2), first, ReadFailure() + [Connect] + (Gap(n) + rest));
    steps := first + (ReadFailure() + [Connect] + (Gap(n) + rest));
    LostIsUnaccounted(steps, p);
  }

  // ---------------------------------------------------------------- at least once, not exactly once

  /** A send that fails after all bytes went out, an answer that nobody reads, and the same entry on the next connection. */
  function Twice(i: nat, n: nat): seq<Step> {
    [SendFails(true), SenderDrops] + [Handle(i, true), SenderWait] + [Connect, Send] + [Handle(n, true)]
  }

  /** From every state in which the sender is about to send on a connection that is answered so far: the entry can be answered
      on two connections. So delivery is not exactly once, with clean sessions either. */
  lemma AnsweredTwice(s: State, i: nat, n: nat)
    requires s.gate.InOrder() && s.gate.ToRead() && !s.gate.closed && s.sender == Linked && HasLink(s)
    requires i == s.link.i && n == |s.conns| && Current(s).handled == Current(s).replies == |Current(s).sent|
    ensures var t := Run(s, Twice(i, n));
      |t.conns| == n + 1 && i < n && RepliedOn(t.conns[i], ReadPos(s)) && RepliedOn(t.conns[n], ReadPos(s))
  {
    var s1 := FailsAfterAll(s, i);
    var s2 := AnsweredLate(s1, i, ReadPos(s));
    RunAppend(s, [SendFails(true), SenderDrops], [Handle(i, true), SenderWait]);
    SentAgain(s2, n);
    var first, last := [SendFails(true), SenderDrops] + [Handle(i, true), SenderWait], [Connect, Send] + [Handle(n, true)];
    RunAppend(s, first, last);
    assert first + last == Twice(i, n);
    assert Run(s2, last).conns[i] == s2.conns[i];
  }

  lemma FailsAfterAll(s: State, i: nat) returns (t: State)
    requires s.gate.InOrder() && s.gate.ToRead() && s.sender == Linked && HasLink(s) && i == s.link.i
    ensures t == Run(s, [SendFails(true), SenderDrops]) && t.gate == s.gate && t.base == s.base
    ensures t.sender == Idle && t.link == NoLink && |t.conns| == |s.conns|
    ensures t.conns[i] == Current(s).(broken := true, sent := Current(s).sent + [ReadPos(s)], open := false)
  {
    RunTwo(s, SendFails(true), SenderDrops);
    t := Next(Next(s, SendFails(true)), SenderDrops);
  }

  lemma AnsweredLate(s: State, i: nat, p: nat) returns (t: State)
    requires i < |s.conns| && s.gate.ToRead() && !s.gate.closed && s.sender == Idle && s.link == NoLink
    requires var c := s.conns[i]; c.handled == c.replies == |c.sent| - 1 && c.sent[|c.sent| - 1] == p
    ensures t == Run(s, [Handle(i, true), SenderWait]) && t.gate == s.gate && t.base == s.base
    ensures t.sender == Ready && t.link == NoLink && |t.conns| == |s.conns| && RepliedOn(t.conns[i], p)
  {
    RunTwo(s, Handle(i, true), SenderWait);
    t := Next(Next(s, Handle(i, true)), SenderWait);
    assert t.conns[i].sent[t.conns[i].replies - 1] == p;
  }

  lemma SentAgain(s: State, n: nat)
    requires s.gate.InOrder() && s.gate.ToRead() && s.sender == Ready && s.link == NoLink && n == |s.conns|
    ensures var t := Run(s, [Connect, Send] + [Handle(n, true)]);
      |t.conns| == n + 1 && t.conns[..n] == s.conns && RepliedOn(t.conns[n], ReadPos(s))
  {
    RunTwo(s, Connect, Send);
    var t := Next(Next(s, Connect), Send);
    assert t.conns[n].sent == [ReadPos(s)];
    Then(s, [Connect, Send], Handle(n, true));
    assert Next(t, Handle(n, true)).conns[n].sent[0] == ReadPos(s);
  }
}
