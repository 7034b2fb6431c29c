/** One connection at the server, as a function of the bytes that arrive: what is answered, counted and
    handed on. */
module ServerSession {
  import opened Bytes
  import opened EntryWire
  import opened Buckets

  /** What the server writes: the one-byte answer to a ping, and the acknowledgements. */
  datatype Reply = Pong | AckOk | AckNok

  /** How handling an entry ends. A read past the deadline is told apart from every other error. */
  datatype Fault = None | TimedOut | Other | Died

  /** The outside of the server: which buckets are allowed, whether the client wants answers, whether the
      bytes end because of the deadline, and whether the n-th write and the n-th hand-over succeed. */
  datatype Env = Env(allowed: GoodAllowed, ack: bool, timesOut: bool, writes: nat -> bool, processes: nat -> bool)

  datatype Session = Session(
    input: seq<byte>,         // bytes still to arrive
    entry: RawEntry,          // the entry object that is decoded into
    pingsReceived: nat,
    pongsSent: nat,
    entriesReceived: nat,
    entriesSucceeded: nat,
    replies: seq<Reply>,      // all writes attempted
    handed: seq<RawEntry>)    // all entries handed to the processor

  datatype Turn = Turn(s: Session, fault: Fault)

  function ReadFault(env: Env): Fault { if env.timesOut then TimedOut else Other }

  function Size(input: seq<byte>): u16
    requires |input| >= 2
  {
    Get16(input[..2])
  }

  /** `handleEntry`. */
  function Handled(env: Env, s: Session): Turn {
    if |s.input| < 2 then Turn(s.(input := []), ReadFault(env))
    else if Size(s.input) == 0 then Pinged(env, s.(input := s.input[2..]))
    else Sized(env, s.(entriesReceived := s.entriesReceived + 1), Size(s.input))
  }

  /** A ping: a pong, or else the two bytes count as an entry that is too short. */
  function Pinged(env: Env, s: Session): Turn {
    var s1 := s.(pingsReceived := s.pingsReceived + 1, replies := s.replies + [Pong]);
    if env.writes(|s.replies|) then Turn(s1.(pongsSent := s1.pongsSent + 1), Other)
    else Turn(s1.(entriesReceived := s1.entriesReceived + 1), Other)
  }

  /** A frame that is announced to be of length `size`, two bytes of which were read. */
  function Sized(env: Env, s: Session, size: u16): Turn
    requires |s.input| >= 2
  {
    if size < 6 then Turn(s.(input := s.input[2..]), Other)
    else if |s.input| < size then Turn(s.(input := []), ReadFault(env))
    else Decide(env, s.(input := s.input[size..]), s.input[..size])
  }

  /** A whole frame has arrived. */
  function Decide(env: Env, s: Session, frame: seq<byte>): Turn
    requires |frame| >= 6
  {
    if !Allows(env.allowed, frame[2..6]) then Turn(s, Other) else
    match Decoded(Wrapping, frame, s.entry)
    case Crashed => Turn(s, Died)
    case TooShort(e) => Turn(s.(entry := e), Other)
    case Corrupt(e) => Turn(s.(entry := e), Other)
    case Accepted(e) =>
      var s1 := s.(entry := e, handed := s.handed + [e]);
      if env.processes(|s.handed|) then Turn(s1.(entriesSucceeded := s1.entriesSucceeded + 1), None)
      else Turn(s1, Other)
  }

  /** What `listen` does after handling an entry; whether it goes on. */
  function Answered(env: Env, t: Turn): Session {
    if !env.ack || t.fault == TimedOut || t.fault == Died then t.s
    else t.s.(replies := t.s.replies + [if t.fault == None then AckOk else AckNok])
  }

  /** `listen`. */
  function Served(env: Env, s: Session): Session
    decreases |s.input|
  {
    var t := Handled(env, s);
    if t.fault == None then Served(env, Answered(env, t)) else Answered(env, t)
  }

  /** `listen` goes on with less to read, or is done. */
  lemma ServedTurn(env: Env, s: Session, t: Turn)
    requires t == Handled(env, s)
    ensures Served(env, s) == if t.fault == None then Served(env, Answered(env, t)) else Answered(env, t)
    ensures t.fault == None ==> |t.s.input| < |s.input|
  {
  }

  // ---------------------------------------------------------------- accounting

  function Count(replies: seq<Reply>, r: Reply): nat {
    if |replies| == 0 then 0
    else Count(replies[..|replies| - 1], r) + (if replies[|replies| - 1] == r then 1 else 0)
  }

  /** Before an entry is handled: every entry so far succeeded and was answered, and there was no ping. */
  predicate NothingPending(env: Env, s: Session) {
    && s.pingsReceived == s.pongsSent == 0
    && s.entriesReceived == s.entriesSucceeded
    && Count(s.replies, AckOk) == (if env.ack then s.entriesSucceeded else 0)
    && Count(s.replies, AckNok) == 0 && Count(s.replies, Pong) == 0
  }

  /** When the connection is done. */
  predicate Closed(env: Env, s: Session) {
    && s.pongsSent <= s.pingsReceived == Count(s.replies, Pong) <= 1
    && s.entriesSucceeded <= s.entriesReceived <= s.entriesSucceeded + 1
    && Count(s.replies, AckOk) == (if env.ack then s.entriesSucceeded else 0)
    && Count(s.replies, AckNok) <= (if env.ack then 1 else 0)
    && (Count(s.replies, AckNok) == 1 ==> s.replies[|s.replies| - 1] == AckNok)
  }

  lemma CountNext(replies: seq<Reply>, x: Reply, r: Reply)
    ensures Count(replies + [x], r) == Count(replies, r) + (if x == r then 1 else 0)
  {
    assert (replies + [x])[..|replies|] == replies;
  }

  /** An entry is received and succeeds, or at most one more is received and handling ends. */
  predicate Tallied(s: Session, t: Turn) {
    if t.fault == None then
      t.s.entriesReceived == s.entriesReceived + 1 && t.s.entriesSucceeded == s.entriesSucceeded + 1
    else
      s.entriesReceived <= t.s.entriesReceived <= s.entriesReceived + 1 && t.s.entriesSucceeded == s.entriesSucceeded
  }

  predicate NoPing(s: Session, t: Turn) {
    t.s.pingsReceived == s.pingsReceived && t.s.pongsSent == s.pongsSent && t.s.replies == s.replies
  }

  predicate OnePing(s: Session, t: Turn) {
    && t.fault == Other && t.s.pingsReceived == s.pingsReceived + 1
    && s.pongsSent <= t.s.pongsSent <= s.pongsSent + 1 && t.s.replies == s.replies + [Pong]
  }

  lemma DecideCounts(env: Env, s: Session, frame: seq<byte>, before: Session)
    requires |frame| >= 6 && s.entriesReceived == before.entriesReceived + 1
    requires s.entriesSucceeded == before.entriesSucceeded && NoPing(before, Turn(s, None))
    ensures Tallied(before, Decide(env, s, frame)) && NoPing(before, Decide(env, s, frame))
  {
  }

  lemma TurnCounts(env: Env, s: Session)
    ensures var t := Handled(env, s); Tallied(s, t) && (NoPing(s, t) || OnePing(s, t))
  {
    if |s.input| >= 2 && 6 <= Size(s.input) <= |s.input| {
      var size := Size(s.input);
      DecideCounts(env, s.(entriesReceived := s.entriesReceived + 1, input := s.input[size..]), s.input[..size], s);
    }
  }

  lemma CountsNext(replies: seq<Reply>, x: Reply)
    ensures Count(replies + [x], Pong) == Count(replies, Pong) + (if x == Pong then 1 else 0)
    ensures Count(replies + [x], AckOk) == Count(replies, AckOk) + (if x == AckOk then 1 else 0)
    ensures Count(replies + [x], AckNok) == Count(replies, AckNok) + (if x == AckNok then 1 else 0)
  {
    CountNext(replies, x, Pong);
    CountNext(replies, x, AckOk);
    CountNext(replies, x, AckNok);
  }

  lemma AnswerBalances(env: Env, s: Session, t: Turn)
    requires NothingPending(env, s) && Tallied(s, t) && (NoPing(s, t) || OnePing(s, t))
    ensures if t.fault == None then NothingPending(env, Answered(env, t)) else Closed(env, Answered(env, t))
  {
    if OnePing(s, t) {
      CountsNext(s.replies, Pong);
    }
    if Answered(env, t) != t.s {
      CountsNext(t.s.replies, if t.fault == None then AckOk else AckNok);
    }
  }

  /** Over every run of `listen`, whatever arrives and whatever fails. */
  lemma {:induction false} Accounting(env: Env, s: Session)
    requires NothingPending(env, s)
    ensures Closed(env, Served(env, s))
    decreases |s.input|
  {
    var t := Handled(env, s);
    TurnCounts(env, s);
    AnswerBalances(env, s, t);
    if t.fault == None {
      Accounting(env, Answered(env, t));
    }
  }
}
