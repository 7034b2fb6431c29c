/** The byte stream of one connection: what the client sends, and how the server cuts it up again. */
module Framing {
  import opened Bytes
  import opened EntryWire
  import opened EntryTheorems
  import opened EntryLaws
  import opened Buckets
  import opened ServerSession

  /** The record of an entry has the length it claims. */
  predicate Framed(e: Sendable) { |Record(e)| <= MAX_ENTRY_SIZE }

  predicate AllFramed(es: seq<Sendable>) {
    forall k :: 0 <= k < |es| ==> Framed(es[k])
  }

  function Records(es: seq<Sendable>): (rows: seq<seq<byte>>)
    ensures |rows| == |es|
  {
    seq(|es|, k requires 0 <= k < |es| => Record(es[k]))
  }

  lemma {:induction false} FlattenFront(rows: seq<seq<byte>>)
    requires |rows| > 0
    ensures Flatten(rows) == rows[0] + Flatten(rows[1..])
  {
    var n := |rows| - 1;
    if n > 0 {
      FlattenFront(rows[..n]);
      assert rows[1..][..n - 1] == rows[..n][1..];
    }
  }

  /** Nothing, or what a send that failed part of the way leaves: less than the whole record of `e`. */
  predicate Torn(t: seq<byte>, e: Sendable) {
    t == [] || (Framed(e) && |t| < |Record(e)| && t == Record(e)[..|t|])
  }

  lemma TornIsNoFrame(t: seq<byte>, e: Sendable)
    requires Torn(t, e) && |t| >= 2
    ensures Size(t) > |t| && Size(t) >= 6
  {
    RecordHolds(e);
    RecordSize(e);
    assert t[..2] == Record(e)[..2];
  }

  lemma RecordIsFrame(e: Sendable, rest: seq<byte>)
    requires Framed(e)
    ensures |Record(e)| >= 6
    ensures var input := Record(e) + rest;
      Size(input) == |Record(e)| && input[..|Record(e)|] == Record(e) && input[|Record(e)|..] == rest
  {
    RecordHolds(e);
    RecordSize(e);
    assert (Record(e) + rest)[..2] == Record(e)[..2];
  }

  /** Cutting a stream into frames by their size annotations: the whole frames, and what is left. */
  datatype Cutting = Cutting(frames: seq<seq<byte>>, rest: seq<byte>)

  function Frames(input: seq<byte>): Cutting {
    if |input| < 2 || Size(input) < 6 || Size(input) > |input| then Cutting([], input)
    else
      var c := Frames(input[Size(input)..]);
      Cutting([input[..Size(input)]] + c.frames, c.rest)
  }

  /** The stream of any entries with a torn one at the end is cut into exactly those entries' records. */
  lemma {:induction false} FramesAreRecords(es: seq<Sendable>, t: seq<byte>, last: Sendable)
    requires AllFramed(es) && Torn(t, last)
    ensures Frames(Flatten(Records(es)) + t) == Cutting(Records(es), t)
  {
    if |es| == 0 {
      assert Flatten(Records(es)) + t == t;
      if |t| >= 2 {
        TornIsNoFrame(t, last);
      }
    } else {
      var rest := Flatten(Records(es[1..])) + t;
      FramesAreRecords(es[1..], t, last);
      RecordIsFrame(es[0], rest);
      StreamFront(es, t);
    }
  }

  lemma StreamFront(es: seq<Sendable>, t: seq<byte>)
    requires |es| > 0
    ensures Flatten(Records(es)) + t == Record(es[0]) + (Flatten(Records(es[1..])) + t)
    ensures Records(es) == [Record(es[0])] + Records(es[1..])
  {
    RecordsFront(es);
    RowsFront(Records(es), Records(es[1..]), t);
  }

  lemma RecordsFront(es: seq<Sendable>)
    requires |es| > 0
    ensures Records(es) == [Record(es[0])] + Records(es[1..])
  {
  }

  lemma RowsFront(rows: seq<seq<byte>>, rest: seq<seq<byte>>, t: seq<byte>)
    requires |rows| > 0 && rows == [rows[0]] + rest
    ensures Flatten(rows) + t == rows[0] + (Flatten(rest) + t)
  {
    FlattenFront(rows);
    assert rows[1..] == rest;
  }

  // ---------------------------------------------------------------- what the server makes of frames

  /** What becomes of a whole frame: it is handed on and succeeds, or the connection ends with `fault`, the
      entry having been handed on and failed (`seen`) or not. */
  datatype Judgement = Passed(d: RawEntry) | Refused(fault: Fault, seen: seq<RawEntry>)

  /** From what the entry object holds, the number of hand-overs so far, and the frame. */
  type Judge = (RawEntry, nat, seq<byte>) -> Judgement

  function Judged(env: Env, prior: RawEntry, k: nat, frame: seq<byte>): Judgement {
    if |frame| < 6 || !Allows(env.allowed, frame[2..6]) then Refused(Other, []) else
    match Decoded(Wrapping, frame, prior)
    case Crashed => Refused(Died, [])
    case TooShort(_) => Refused(Other, [])
    case Corrupt(_) => Refused(Other, [])
    case Accepted(d) => if env.processes(k) then Passed(d) else Refused(Other, [d])
  }

  function JudgeOf(env: Env): Judge {
    (prior: RawEntry, k: nat, frame: seq<byte>) => Judged(env, prior, k, frame)
  }

  /** How a sequence of frames fares: how many succeed, what is handed on, and how it ends. */
  datatype Story = Story(n: nat, ds: seq<RawEntry>, fault: Fault)

  function Told(judge: Judge, prior: RawEntry, k: nat, frames: seq<seq<byte>>, end: Fault): Story
    decreases |frames|
  {
    if |frames| == 0 then Story(0, [], end) else
    match judge(prior, k, frames[0])
    case Refused(fault, seen) => Story(0, seen, fault)
    case Passed(d) =>
      var rest := Told(judge, d, k + 1, frames[1..], end);
      Story(rest.n + 1, [d] + rest.ds, rest.fault)
  }

  /** The answers of a session in which `n` entries succeeded: an OK for each, a pong if a ping came then, and
      a NOK unless the deadline passed or the server died. */
  function Answers(env: Env, n: nat, pinged: bool, fault: Fault): seq<Reply> {
    if n > 0 then (if env.ack then [AckOk] else []) + Answers(env, n - 1, pinged, fault)
    else (if pinged then [Pong] else []) + (if env.ack && fault != TimedOut && fault != Died then [AckNok] else [])
  }

  /** The session went from `s` to `r` as the story tells. */
  predicate Follows(env: Env, s: Session, r: Session, story: Story, pinged: bool) {
    && r.handed == s.handed + story.ds
    && r.entriesSucceeded == s.entriesSucceeded + story.n
    && r.pingsReceived == s.pingsReceived + (if pinged then 1 else 0)
    && r.replies == s.replies + Answers(env, story.n, pinged, story.fault)
  }

  predicate IsPing(rest: seq<byte>) { |rest| >= 2 && Size(rest) == 0 }

  /** How the connection ends on bytes that are not a whole frame. */
  function RestFault(env: Env, rest: seq<byte>): Fault {
    if |rest| < 2 || Size(rest) >= 6 then ReadFault(env) else Other
  }

  /** A turn went from `s` to `t` as was judged. */
  predicate Ruled(j: Judgement, s: Session, t: Turn) {
    match j
    case Passed(d) =>
      && t.fault == None && t.s.entry == d && t.s.handed == s.handed + [d]
      && t.s.entriesSucceeded == s.entriesSucceeded + 1
    case Refused(fault, seen) =>
      && t.fault == fault != None && t.s.handed == s.handed + seen
      && t.s.entriesSucceeded == s.entriesSucceeded
  }

  /** One turn on a whole frame. */
  lemma FrameTurn(env: Env, s: Session)
    requires |s.input| >= 2 && 6 <= Size(s.input) <= |s.input|
    ensures var t, size := Handled(env, s), Size(s.input);
      && NoPing(s, t) && t.s.input == s.input[size..]
      && Ruled(JudgeOf(env)(s.entry, |s.handed|, s.input[..size]), s, t)
  {
  }

  /** The last turn, on what is not a whole frame. */
  lemma RestTurn(env: Env, s: Session)
    requires Frames(s.input).frames == []
    ensures var t := Handled(env, s);
      && t.fault == RestFault(env, s.input) != None && t.s.handed == s.handed
      && t.s.entriesSucceeded == s.entriesSucceeded
      && t.s.pingsReceived == s.pingsReceived + (if IsPing(s.input) then 1 else 0)
      && t.s.replies == s.replies + (if IsPing(s.input) then [Pong] else [])
  {
  }

  /** The story of a stream of frames starts with the judgement of its first frame. */
  lemma FollowsNext(judge: Judge, env: Env, s: Session, t: Turn, r: Session, frames: seq<seq<byte>>, end: Fault, ping: bool)
    requires |frames| > 0 && NoPing(s, t) && Ruled(judge(s.entry, |s.handed|, frames[0]), s, t)
    requires t.fault != None ==> r == Answered(env, t)
    requires t.fault == None ==>
      var rest := Told(judge, t.s.entry, |t.s.handed|, frames[1..], end);
      Follows(env, Answered(env, t), r, rest, ping && rest.n == |frames| - 1)
    ensures var story := Told(judge, s.entry, |s.handed|, frames, end);
      Follows(env, s, r, story, ping && story.n == |frames|)
  {
  }

  /** Every byte stream, whatever the environment does: the server handles exactly the frames that the stream is cut
      into, one after the other, up to the first that is refused, and nothing but a ping behind the last frame is
      taken for one. */
  lemma {:induction false} ServedFrames(env: Env, s: Session)
    ensures var c := Frames(s.input);
      var story := Told(JudgeOf(env), s.entry, |s.handed|, c.frames, RestFault(env, c.rest));
      Follows(env, s, Served(env, s), story, IsPing(c.rest) && story.n == |c.frames|)
    decreases |s.input|
  {
    var c, t := Frames(s.input), Handled(env, s);
    ServedTurn(env, s, t);
    if c.frames == [] {
      RestTurn(env, s);
    } else {
      FrameTurn(env, s);
      if t.fault == None {
        ServedFrames(env, Answered(env, t));
      }
      FollowsNext(JudgeOf(env), env, s, t, Served(env, s), c.frames, RestFault(env, c.rest), IsPing(c.rest));
    }
  }

  // ---------------------------------------------------------------- what the story of a session says

  /** How an entry comes from a frame and what the entry object held before. */
  type Reading = (RawEntry, seq<byte>, RawEntry) -> bool

  predicate IsDecoding(prior: RawEntry, frame: seq<byte>, d: RawEntry) {
    Decoded(Wrapping, frame, prior) == Accepted(d)
  }

  /** Each of `ds` is read from its own frame, into the entry object as the one before left it. */
  predicate AllRead(read: Reading, prior: RawEntry, ds: seq<RawEntry>, frames: seq<seq<byte>>)
    decreases |ds|
  {
    |ds| == 0 || (|frames| > 0 && read(prior, frames[0], ds[0]) && AllRead(read, ds[0], ds[1..], frames[1..]))
  }

  /** What a judge hands on is read from the frame. */
  predicate HandsOnWhatIsRead(read: Reading, judge: Judge, prior: RawEntry, k: nat, frame: seq<byte>) {
    match judge(prior, k, frame)
    case Passed(d) => read(prior, frame, d)
    case Refused(_, seen) => seen == [] || (|seen| == 1 && read(prior, frame, seen[0]))
  }

  /** What the entry object holds when frame `n` is judged. */
  function Before(prior: RawEntry, ds: seq<RawEntry>, n: nat): RawEntry
    requires n <= |ds|
  {
    if n == 0 then prior else ds[n - 1]
  }

  /** A story hands on a prefix of the frames, each as read from its own frame; it stops at the first frame that is
      refused, which was handed on or not, and otherwise reaches the end. */
  ghost predicate IsPrefix(read: Reading, judge: Judge, prior: RawEntry, k: nat, frames: seq<seq<byte>>, end: Fault, st: Story) {
    && st.n <= |st.ds| <= st.n + 1 && |st.ds| <= |frames| && AllRead(read, prior, st.ds, frames)
    && (st.n == |frames| ==> st.fault == end)
    && (st.n < |frames| ==> judge(Before(prior, st.ds, st.n), k + st.n, frames[st.n]) == Refused(st.fault, st.ds[st.n..]))
  }

  lemma {:induction false} ToldIsPrefix(read: Reading, judge: Judge, prior: RawEntry, k: nat, frames: seq<seq<byte>>, end: Fault)
    requires forall p, i, f :: HandsOnWhatIsRead(read, judge, p, i, f)
    ensures IsPrefix(read, judge, prior, k, frames, end, Told(judge, prior, k, frames, end))
    decreases |frames|
  {
    if |frames| > 0 {
      var j := judge(prior, k, frames[0]);
      assert HandsOnWhatIsRead(read, judge, prior, k, frames[0]);
      if j.Passed? {
        ToldIsPrefix(read, judge, j.d, k + 1, frames[1..], end);
        PrefixNext(read, judge, prior, k, frames, end, j.d, Told(judge, j.d, k + 1, frames[1..], end));
      } else {
        PrefixStops(read, judge, prior, k, frames, end, j);
      }
    }
  }

  lemma PrefixStops(read: Reading, judge: Judge, prior: RawEntry, k: nat, frames: seq<seq<byte>>, end: Fault, j: Judgement)
    requires |frames| > 0 && j == judge(prior, k, frames[0]) && j.Refused? && HandsOnWhatIsRead(read, judge, prior, k, frames[0])
    ensures IsPrefix(read, judge, prior, k, frames, end, Story(0, j.seen, j.fault))
  {
    assert j.seen[0..] == j.seen;
  }

  lemma PrefixNext(read: Reading, judge: Judge, prior: RawEntry, k: nat, frames: seq<seq<byte>>, end: Fault, d: RawEntry, rest: Story)
    requires |frames| > 0 && read(prior, frames[0], d)
    requires IsPrefix(read, judge, d, k + 1, frames[1..], end, rest)
    ensures IsPrefix(read, judge, prior, k, frames, end, Story(rest.n + 1, [d] + rest.ds, rest.fault))
  {
    var ds := [d] + rest.ds;
    assert ds[1..] == rest.ds && ds[rest.n + 1..] == rest.ds[rest.n..];
    assert Before(prior, ds, rest.n + 1) == Before(d, rest.ds, rest.n);
  }

  /** What the server hands on is a prefix of the frames, each as its own accepted decoding. */
  lemma StoryIsPrefix(env: Env, prior: RawEntry, k: nat, frames: seq<seq<byte>>, end: Fault)
    ensures IsPrefix(IsDecoding, JudgeOf(env), prior, k, frames, end, Told(JudgeOf(env), prior, k, frames, end))
  {
    ToldIsPrefix(IsDecoding, JudgeOf(env), prior, k, frames, end);
  }

  // ---------------------------------------------------------------- how a session ends, from the bytes alone

  /** How the frames of the input fare; the fault is `None` if all of them pass. */
  function Fate(env: Env, s: Session): Story {
    Told(JudgeOf(env), s.entry, |s.handed|, Frames(s.input).frames, None)
  }

  /** How the stream ends does not matter to the frames before the end. */
  lemma {:induction false} ToldEnd(judge: Judge, prior: RawEntry, k: nat, frames: seq<seq<byte>>, end: Fault)
    ensures var st, st' := Told(judge, prior, k, frames, None), Told(judge, prior, k, frames, end);
      st.n == st'.n <= |frames| && st.ds == st'.ds && st'.fault == if st.n == |frames| then end else st.fault
    decreases |frames|
  {
    if |frames| > 0 {
      match judge(prior, k, frames[0])
      case Refused(_, _) =>
      case Passed(d) => ToldEnd(judge, d, k + 1, frames[1..], end);
    }
  }

  /** Less than a whole frame: no size yet, or a size that promises more bytes than there are. */
  predicate Unfinished(rest: seq<byte>) { |rest| < 2 || (Size(rest) >= 6 && Size(rest) > |rest|) }

  /** The frame at which the story stops is allowed, and decoding it panics. */
  predicate Kills(env: Env, s: Session, st: Story) {
    var frames := Frames(s.input).frames;
    && st.n < |frames| && st.n <= |st.ds| && |frames[st.n]| >= 6 && Allows(env.allowed, frames[st.n][2..6])
    && Decoded(Wrapping, frames[st.n], Before(s.entry, st.ds, st.n)) == Crashed
  }

  /** The session ends without a negative answer: the client wants none; or all frames passed and the deadline came in the
      middle of the next, or before it; or the server died. */
  predicate EndsSilently(env: Env, s: Session) {
    var c, st := Frames(s.input), Fate(env, s);
    || !env.ack
    || (st.n == |c.frames| && env.timesOut && Unfinished(c.rest))
    || Kills(env, s, st)
  }

  lemma {:induction false} WholeFrames(input: seq<byte>)
    ensures var c := Frames(input);
      && (forall k :: 0 <= k < |c.frames| ==> |c.frames[k]| >= 6)
      && (|c.rest| < 2 || Size(c.rest) < 6 || Size(c.rest) > |c.rest|)
  {
    if |input| >= 2 && 6 <= Size(input) <= |input| {
      WholeFrames(input[Size(input)..]);
    }
  }

  function Oks(env: Env, n: nat): (r: seq<Reply>)
    ensures |r| == if env.ack then n else 0
  {
    if env.ack then seq(n, _ => AckOk) else []
  }

  lemma {:induction false} AnswersAre(env: Env, n: nat, pinged: bool, fault: Fault)
    ensures Answers(env, n, pinged, fault) ==
      Oks(env, n) + (if pinged then [Pong] else []) + (if env.ack && fault != TimedOut && fault != Died then [AckNok] else [])
  {
    if n > 0 {
      AnswersAre(env, n - 1, pinged, fault);
      assert env.ack ==> [AckOk] + Oks(env, n - 1) == Oks(env, n);
    }
  }

  /** A frame that stops the story ends the session with a time-out never, and with a death if and only if it kills. */
  lemma StopFault(env: Env, s: Session)
    requires Fate(env, s).n < |Frames(s.input).frames|
    ensures Fate(env, s).fault == if Kills(env, s, Fate(env, s)) then Died else Other
  {
    var frames, st := Frames(s.input).frames, Fate(env, s);
    WholeFrames(s.input);
    StoryIsPrefix(env, s.entry, |s.handed|, frames, None);
    RefusedFault(env, Before(s.entry, st.ds, st.n), |s.handed| + st.n, frames[st.n], st.fault, st.ds[st.n..]);
  }

  lemma RefusedFault(env: Env, prior: RawEntry, k: nat, frame: seq<byte>, fault: Fault, seen: seq<RawEntry>)
    requires |frame| >= 6 && JudgeOf(env)(prior, k, frame) == Refused(fault, seen)
    ensures fault == if Allows(env.allowed, frame[2..6]) && Decoded(Wrapping, frame, prior) == Crashed then Died else Other
  {
  }

  function Answering(env: Env, s: Session): seq<Reply> {
    var c, st := Frames(s.input), Fate(env, s);
    Oks(env, st.n) + (if IsPing(c.rest) && st.n == |c.frames| then [Pong] else []) + (if EndsSilently(env, s) then [] else [AckNok])
  }

  /** For every byte stream and every environment, what the server answers: an OK for each frame that passes, a pong if a ping
      follows them, and then a NOK unless the session ends silently. A deadline is silent, every other failed read is not. */
  lemma RepliesAre(env: Env, s: Session)
    ensures Served(env, s).replies == s.replies + Answering(env, s)
  {
    var c, st := Frames(s.input), Fate(env, s);
    var end := RestFault(env, c.rest);
    WholeFrames(s.input);
    ServedFrames(env, s);
    ToldEnd(JudgeOf(env), s.entry, |s.handed|, c.frames, end);
    if st.n < |c.frames| {
      StopFault(env, s);
    }
    AnswersAre(env, st.n, IsPing(c.rest) && st.n == |c.frames|, Told(JudgeOf(env), s.entry, |s.handed|, c.frames, end).fault);
  }

  /** An idle client, or one that stops in the middle of a frame, gets no NOK if the deadline ends the read and gets one if
      anything else does; before that every entry got its OK. */
  lemma TimeoutIsSilent(env: Env, s: Session)
    requires var c := Frames(s.input); Unfinished(c.rest) && Fate(env, s).n == |c.frames|
    ensures var n := |Frames(s.input).frames|;
      Served(env, s).replies == s.replies + Oks(env, n) + (if env.ack && !env.timesOut then [AckNok] else [])
  {
    RepliesAre(env, s);
  }

  // ---------------------------------------------------------------- counters and hand-overs, from the bytes alone

  /** What the last bytes add to the entries received: nothing if no size arrived or it was a ping that was answered. */
  function Extra(env: Env, answers: nat, rest: seq<byte>): nat {
    if |rest| < 2 || (Size(rest) == 0 && env.writes(answers)) then 0 else 1
  }

  /** The counters of the session from `s` to `r`, of whose `frames` the first `n` passed. */
  predicate Counts(env: Env, s: Session, r: Session, n: nat, frames: nat, rest: seq<byte>) {
    var answers := |s.replies| + (if env.ack then n else 0);
    && r.entriesReceived == s.entriesReceived + n + (if n < frames then 1 else Extra(env, answers, rest))
    && r.pongsSent == s.pongsSent + (if n == frames && IsPing(rest) && env.writes(answers) then 1 else 0)
  }

  /** The first frame, and what is left after its turn. */
  lemma FateNext(env: Env, s: Session, t: Turn)
    requires t == Handled(env, s) && Frames(s.input).frames != []
    ensures t.fault == None ==>
      && Frames(s.input).frames[1..] == Frames(Answered(env, t).input).frames
      && Frames(s.input).rest == Frames(Answered(env, t).input).rest
    ensures Fate(env, s).n == if t.fault == None then Fate(env, Answered(env, t)).n + 1 else 0
  {
    FrameTurn(env, s);
    FramesNext(s.input);
    ToldNext(JudgeOf(env), s, t, Answered(env, t), Frames(s.input).frames);
  }

  lemma FramesNext(input: seq<byte>)
    requires Frames(input).frames != []
    ensures |input| >= 2 && 6 <= Size(input) <= |input| && Frames(input).frames[0] == input[..Size(input)]
    ensures Frames(input[Size(input)..]) == Cutting(Frames(input).frames[1..], Frames(input).rest)
  {
  }

  lemma ToldNext(judge: Judge, s: Session, t: Turn, u: Session, frames: seq<seq<byte>>)
    requires |frames| > 0 && Ruled(judge(s.entry, |s.handed|, frames[0]), s, t) && u.entry == t.s.entry && u.handed == t.s.handed
    ensures Told(judge, s.entry, |s.handed|, frames, None).n ==
      if t.fault == None then Told(judge, u.entry, |u.handed|, frames[1..], None).n + 1 else 0
  {
  }

  lemma FrameCounts(env: Env, s: Session)
    requires |s.input| >= 2 && 6 <= Size(s.input) <= |s.input|
    ensures var t := Handled(env, s);
      t.s.entriesReceived == s.entriesReceived + 1 && t.s.pongsSent == s.pongsSent && t.s.replies == s.replies
  {
  }

  lemma RestCounts(env: Env, s: Session)
    requires Frames(s.input).frames == []
    ensures Counts(env, s, Handled(env, s).s, 0, 0, s.input)
  {
  }

  /** A frame before the others adds one entry received, and one answer if answers are wanted. */
  lemma CountsNextFrame(env: Env, s: Session, t: Turn, r: Session, n: nat, all: nat, frames: nat, rest: seq<byte>)
    requires t.s.entriesReceived == s.entriesReceived + 1 && t.s.pongsSent == s.pongsSent && t.s.replies == s.replies
    requires if t.fault == None then Counts(env, Answered(env, t), r, n, frames, rest) else r == Answered(env, t)
    requires all == if t.fault == None then n + 1 else 0
    ensures Counts(env, s, r, all, frames + 1, rest)
  {
    if t.fault == None && env.ack {
      assert |Answered(env, t).replies| == |s.replies| + 1;
    }
  }

  /** The counters of a session are those of its frames and of what is left behind them. */
  predicate CountsAll(env: Env, s: Session) {
    var c := Frames(s.input);
    Counts(env, s, Served(env, s), Fate(env, s).n, |c.frames|, c.rest)
  }

  lemma ReceivedAtEnd(env: Env, s: Session)
    requires Frames(s.input).frames == []
    ensures CountsAll(env, s)
  {
    ServedTurn(env, s, Handled(env, s));
    RestTurn(env, s);
    RestCounts(env, s);
  }

  lemma ReceivedFirst(env: Env, s: Session, t: Turn)
    requires t == Handled(env, s) && Frames(s.input).frames != [] && (t.fault == None ==> CountsAll(env, Answered(env, t)))
    ensures CountsAll(env, s)
  {
    var c := Frames(s.input);
    var n, r := FirstTurn(env, s, t);
    CountsNextFrame(env, s, t, r, n, Fate(env, s).n, |c.frames| - 1, c.rest);
  }

  lemma FirstTurn(env: Env, s: Session, t: Turn) returns (n: nat, r: Session)
    requires t == Handled(env, s) && Frames(s.input).frames != [] && (t.fault == None ==> CountsAll(env, Answered(env, t)))
    ensures t.s.entriesReceived == s.entriesReceived + 1 && t.s.pongsSent == s.pongsSent && t.s.replies == s.replies
    ensures var c := Frames(s.input);
      r == Served(env, s) && if t.fault == None then Counts(env, Answered(env, t), r, n, |c.frames| - 1, c.rest) else r == Answered(env, t)
    ensures Fate(env, s).n == if t.fault == None then n + 1 else 0
  {
    n, r := Fate(env, Answered(env, t)).n, Served(env, s);
    ServedTurn(env, s, t);
    FramesNext(s.input);
    FrameCounts(env, s);
    FateNext(env, s, t);
  }

  /** For every byte stream: an entry counts as received once its size was read, whatever becomes of it, and so does a ping
      whose pong could not be written; a pong counts as sent if and only if the write succeeded. */
  lemma {:induction false} ReceivedIs(env: Env, s: Session)
    ensures CountsAll(env, s)
    decreases |s.input|
  {
    if Frames(s.input).frames == [] {
      ReceivedAtEnd(env, s);
    } else {
      var t := Handled(env, s);
      ServedTurn(env, s, t);
      if t.fault == None {
        ReceivedIs(env, Answered(env, t));
      }
      ReceivedFirst(env, s, t);
    }
  }

  /** A judge passes a frame, or hands it on and refuses it, as the processor `takes` it or not. */
  predicate Obeys(takes: nat -> bool, judge: Judge, prior: RawEntry, k: nat, frame: seq<byte>) {
    match judge(prior, k, frame)
    case Passed(_) => takes(k)
    case Refused(_, seen) => seen == [] || (|seen| == 1 && !takes(k))
  }

  lemma JudgeObeys(env: Env, prior: RawEntry, k: nat, frame: seq<byte>)
    ensures Obeys(env.processes, JudgeOf(env), prior, k, frame)
  {
  }

  /** A frame counts as succeeded if and only if the processor took it. */
  lemma {:induction false} ToldProcesses(takes: nat -> bool, judge: Judge, prior: RawEntry, k: nat, frames: seq<seq<byte>>, end: Fault)
    requires forall p, i, f :: Obeys(takes, judge, p, i, f)
    ensures var st := Told(judge, prior, k, frames, end);
      st.n <= |st.ds| && forall i :: k <= i < k + |st.ds| ==> (takes(i) <==> i < k + st.n)
    decreases |frames|
  {
    if |frames| > 0 {
      assert Obeys(takes, judge, prior, k, frames[0]);
      match judge(prior, k, frames[0])
      case Refused(_, _) =>
      case Passed(d) => ToldProcesses(takes, judge, d, k + 1, frames[1..], end);
    }
  }

  /** The bucket that a client names is the one its frames hold. */
  predicate IsAllowedDecoding(ids: seq<u32>, prior: RawEntry, frame: seq<byte>, d: RawEntry) {
    d.bucketId in ids
  }

  function AllowedDecoding(ids: seq<u32>): Reading {
    (prior: RawEntry, frame: seq<byte>, d: RawEntry) => IsAllowedDecoding(ids, prior, frame, d)
  }

  lemma {:induction false} AllReadIn(ids: seq<u32>, prior: RawEntry, ds: seq<RawEntry>, frames: seq<seq<byte>>)
    requires AllRead(AllowedDecoding(ids), prior, ds, frames)
    ensures forall i :: 0 <= i < |ds| ==> ds[i].bucketId in ids
    decreases |ds|
  {
    if |ds| > 0 {
      AllReadIn(ids, ds[0], ds[1..], frames[1..]);
    }
  }

  lemma HandsOnAllowed(env: Env, ids: seq<u32>, prior: RawEntry, k: nat, frame: seq<byte>)
    requires env.allowed == Only(Packed(ids))
    ensures HandsOnWhatIsRead(AllowedDecoding(ids), JudgeOf(env), prior, k, frame)
  {
    var o := Decoded(Wrapping, frame, prior);
    if |frame| >= 6 && Allows(env.allowed, frame[2..6]) && o.Accepted? {
      AcceptedBucket(Wrapping, frame, prior);
      Put32Inverse(0, frame[2..6]);
      ListsIff(ids, 0, o.e.bucketId);
      assert ids[0..] == ids;
    }
  }

  /** What the server hands on in this session. */
  function HandedOn(env: Env, s: Session): seq<RawEntry> {
    Told(JudgeOf(env), s.entry, |s.handed|, Frames(s.input).frames, None).ds
  }

  lemma HandedIs(env: Env, s: Session)
    ensures Served(env, s).handed == s.handed + HandedOn(env, s)
    ensures Served(env, s).entriesSucceeded == s.entriesSucceeded + Fate(env, s).n
  {
    var c := Frames(s.input);
    ServedFrames(env, s);
    ToldEnd(JudgeOf(env), s.entry, |s.handed|, c.frames, RestFault(env, c.rest));
  }

  lemma HandedOnAllowed(env: Env, s: Session, ids: seq<u32>)
    requires env.allowed == Only(Packed(ids))
    ensures forall i :: 0 <= i < |HandedOn(env, s)| ==> HandedOn(env, s)[i].bucketId in ids
  {
    var frames := Frames(s.input).frames;
    forall p, k, f ensures HandsOnWhatIsRead(AllowedDecoding(ids), JudgeOf(env), p, k, f) {
      HandsOnAllowed(env, ids, p, k, f);
    }
    ToldIsPrefix(AllowedDecoding(ids), JudgeOf(env), s.entry, |s.handed|, frames, None);
    AllReadIn(ids, s.entry, HandedOn(env, s), frames);
  }

  /** For every byte stream that a client may send: every entry that the processor ever sees is in a bucket of the client's
      certificate. */
  lemma OnlyAllowedBuckets(env: Env, s: Session, ids: seq<u32>)
    requires env.allowed == Only(Packed(ids))
    ensures var r := Served(env, s);
      s.handed <= r.handed && forall i :: |s.handed| <= i < |r.handed| ==> r.handed[i].bucketId in ids
  {
    HandedIs(env, s);
    HandedOnAllowed(env, s, ids);
  }

  /** For every byte stream: an entry counts as succeeded if and only if it was handed to the processor and the processor took
      it. */
  lemma SucceededIff(env: Env, s: Session)
    ensures var r := Served(env, s); var n := r.entriesSucceeded - s.entriesSucceeded;
      && s.handed <= r.handed
      && forall i :: |s.handed| <= i < |r.handed| ==> (env.processes(i) <==> i < |s.handed| + n)
  {
    HandedIs(env, s);
    forall p, i, f ensures Obeys(env.processes, JudgeOf(env), p, i, f) {
      JudgeObeys(env, p, i, f);
    }
    ToldProcesses(env.processes, JudgeOf(env), s.entry, |s.handed|, Frames(s.input).frames, None);
  }

  // ---------------------------------------------------------------- sessions of encoded entries

  /** The story of the entries `es`, sent on a connection in the state `s`. */
  function StoryOf(env: Env, s: Session, es: seq<Sendable>): Story {
    Told(JudgeOf(env), s.entry, |s.handed|, Records(es), ReadFault(env))
  }

  /** For every sequence of encoded entries with a torn one at the end, and whatever the server's environment does:
      the server takes the stream for exactly those records, up to the first it refuses, never sees a ping, and
      neither hands on nor answers anything of the torn one. */
  lemma SessionTells(env: Env, s: Session, es: seq<Sendable>, t: seq<byte>, last: Sendable)
    requires s.input == Flatten(Records(es)) + t && AllFramed(es) && Torn(t, last)
    ensures Follows(env, s, Served(env, s), StoryOf(env, s, es), false)
    ensures IsPrefix(IsDecoding, JudgeOf(env), s.entry, |s.handed|, Records(es), ReadFault(env), StoryOf(env, s, es))
  {
    StoryIsPrefix(env, s.entry, |s.handed|, Records(es), ReadFault(env));
    FramesAreRecords(es, t, last);
    if |t| >= 2 {
      TornIsNoFrame(t, last);
    }
    ServedFrames(env, s);
  }

  // ---------------------------------------------------------------- sessions in which nothing is refused

  /** What the codec needs to bring an entry over, and a level that carries everything from the message on. */
  predicate Deliverable(e: Sendable) {
    && WellFormed(e) && e.level >= 4
    && (e.level >= 6 ==> MetricsMatchPaths(e)) && (e.level == 7 ==> !EndsEmpty(e))
  }

  /** `d` shows what the record of `e` carries; from level 4 on nothing else shows through. */
  predicate Shows(d: RawEntry, e: Sendable) {
    Counted(d) && d.level == e.level && Shown(d) == Carried(e, d, e.level + 1)
  }

  /** How a received entry relates to a sent one. */
  type Relation = (RawEntry, Sendable) -> bool

  /** One by one, in order, and no others. */
  predicate Match(rel: Relation, ds: seq<RawEntry>, es: seq<Sendable>) {
    if |es| == 0 then |ds| == 0
    else |ds| > 0 && rel(ds[0], es[0]) && Match(rel, ds[1..], es[1..])
  }

  ghost predicate AllGoThrough(env: Env, es: seq<Sendable>) {
    && (forall k :: 0 <= k < |es| ==> Deliverable(es[k]) && Allows(env.allowed, Put32(es[k].bucketId)))
    && (forall n :: env.processes(n))
  }

  lemma RestGoThrough(env: Env, es: seq<Sendable>)
    requires |es| > 0 && AllGoThrough(env, es)
    ensures AllGoThrough(env, es[1..])
  {
  }

  /** A deliverable record in an allowed bucket passes and shows what was sent. */
  lemma RecordPasses(env: Env, prior: RawEntry, k: nat, e: Sendable)
    requires Deliverable(e) && Allows(env.allowed, Put32(e.bucketId)) && env.processes(k) && Shaped(prior)
    ensures var j := Judged(env, prior, k, Record(e)); j.Passed? && Shaped(j.d) && Shows(j.d, e)
  {
    RecordBucket(e);
    RoundTripIff(Wrapping, e, prior);
    var d := Judged(env, prior, k, Record(e)).d;
    assert Carried(e, prior, e.level + 1) == Carried(e, d, e.level + 1);
  }

  lemma MatchNext(rel: Relation, d: RawEntry, ds: seq<RawEntry>, es: seq<Sendable>)
    requires |es| > 0 && rel(d, es[0]) && Match(rel, ds, es[1..])
    ensures Match(rel, [d] + ds, es)
  {
    assert ([d] + ds)[1..] == ds;
  }

  lemma {:induction false} AllPass(env: Env, prior: RawEntry, k: nat, es: seq<Sendable>)
    requires AllGoThrough(env, es) && Shaped(prior)
    ensures var st := Told(JudgeOf(env), prior, k, Records(es), ReadFault(env));
      st.n == |es| && st.fault == ReadFault(env) && Match(Shows, st.ds, es)
    decreases |es|
  {
    if |es| > 0 {
      RecordPasses(env, prior, k, es[0]);
      var d := Judged(env, prior, k, Record(es[0])).d;
      RestGoThrough(env, es);
      RecordsFront(es);
      AllPass(env, d, k + 1, es[1..]);
      MatchNext(Shows, d, Told(JudgeOf(env), d, k + 1, Records(es[1..]), ReadFault(env)).ds, es);
    }
  }

  /** Entries that the codec can bring over, in allowed buckets and with a processor that takes them, are all handed
      on, in order, each showing what was sent, and each is answered with an OK. */
  lemma SessionDelivers(env: Env, s: Session, es: seq<Sendable>, t: seq<byte>, last: Sendable) returns (ds: seq<RawEntry>)
    requires s.input == Flatten(Records(es)) + t && Torn(t, last)
    requires Shaped(s.entry) && AllGoThrough(env, es)
    ensures Follows(env, s, Served(env, s), Story(|es|, ds, ReadFault(env)), false) && Match(Shows, ds, es)
  {
    AllPass(env, s.entry, |s.handed|, es);
    SessionTells(env, s, es, t, last);
    ds := StoryOf(env, s, es).ds;
  }
}
