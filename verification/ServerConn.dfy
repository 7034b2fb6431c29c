/** The server's connection object: a buffer, an entry to decode into, and counters. */
module ServerConns {
  import opened Bytes
  import opened EntryWire
  import opened Entries
  import opened Buckets
  import opened ServerSession
  import F = Framing
  import Buffer

  class ServerConn {
    const env: Env
    const buf: array<byte>
    const entry: Entry
    var input: seq<byte>          // what the connection will still deliver
    var pingsReceived: nat
    var pongsSent: nat
    var entriesReceived: nat
    var entriesSucceeded: nat
    var replies: seq<Reply>       // writes attempted so far
    var handed: seq<RawEntry>     // entries handed to the processor so far

    ghost predicate Valid()
      reads this
    {
      buf.Length == MAX_ENTRY_SIZE
    }

    constructor (env: Env, entry: Entry, input: seq<byte>)
      ensures Valid() && fresh(buf) && this.env == env && this.entry == entry
      ensures View() == Session(input, entry.Val(), 0, 0, 0, 0, [], [])
      ensures NothingPending(env, View())
    {
      this.env := env;
      this.entry := entry;
      this.input := input;
      buf := new byte[MAX_ENTRY_SIZE](_ => 0);
      pingsReceived, pongsSent, entriesReceived, entriesSucceeded := 0, 0, 0, 0;
      replies, handed := [], [];
    }

    function View(): Session
      reads this, entry
    {
      Session(input, entry.Val(), pingsReceived, pongsSent, entriesReceived, entriesSucceeded, replies, handed)
    }

    /** `io.ReadFull` into `buf[lo..hi]`; on failure all that was left is consumed. */
    method ReadFull(lo: nat, hi: nat) returns (ok: bool)
      requires lo <= hi <= buf.Length
      modifies this`input, buf
      ensures ok <==> |old(input)| >= hi - lo
      ensures ok ==> input == old(input)[hi - lo..] && buf[..hi] == old(buf[..lo]) + old(input)[..hi - lo]
      ensures !ok ==> input == []
    {
      ok := |input| >= hi - lo;
      var n := if ok then hi - lo else |input|;
      ghost var before := buf[..];
      var _ := Buffer.Copy(buf, lo, input[..n]);
      Buffer.PatchedIs(before, lo, input[..n]);
      input := input[n..];
    }

    /** A write of one byte. */
    method Write(r: Reply) returns (ok: bool)
      modifies this`replies
      ensures replies == old(replies) + [r] && ok == env.writes(|old(replies)|)
    {
      ok := env.writes(|replies|);
      replies := replies + [r];
    }

    /** The whole of `handleEntry`. After a panic only the entry object is in doubt. */
    method HandleEntry() returns (fault: Fault)
      requires Valid()
      modifies this, buf, entry
      ensures Ends(Handled(env, old(View())), fault)
    {
      ghost var s := View();
      var ok := ReadFull(0, 2);
      if !ok { return ReadFault(env); }
      assert buf[..2] == s.input[..2];
      var size := Get16(buf[..2]);
      if size == 0 {
        fault := AnswerPing();
      } else {
        entriesReceived := entriesReceived + 1;
        fault := HandleFrame(size, s.(entriesReceived := s.entriesReceived + 1));
      }
    }

    ghost predicate Ends(t: Turn, fault: Fault)
      reads this, entry
    {
      fault == t.fault && View() == t.s.(entry := View().entry) && (fault != Died ==> View() == t.s)
    }

    method AnswerPing() returns (fault: Fault)
      modifies this`pingsReceived, this`pongsSent, this`entriesReceived, this`replies
      ensures Turn(View(), fault) == Pinged(env, old(View()))
    {
      pingsReceived := pingsReceived + 1;
      var ok := Write(Pong);
      if ok {
        pongsSent := pongsSent + 1;
        return Other;
      }
      entriesReceived := entriesReceived + 1;
      return Other;
    }

    /** The part of `handleEntry` after the size was read; `s` is the session with those bytes unread. */
    method HandleFrame(size: u16, ghost s: Session) returns (fault: Fault)
      requires Valid() && |s.input| >= 2 && View() == s.(input := s.input[2..]) && buf[..2] == s.input[..2]
      modifies this`input, this`entriesSucceeded, this`handed, buf, entry
      ensures Ends(Sized(env, s, size), fault)
    {
      if size < 6 { return Other; }
      var ok := ReadFull(2, size);
      if !ok { return ReadFault(env); }
      assert input == s.input[size..] && buf[..size] == s.input[..size];
      fault := DecideEntry(size);
    }

    /** The part of `handleEntry` after the whole frame was read. */
    method DecideEntry(size: nat) returns (fault: Fault)
      requires Valid() && 6 <= size <= MAX_ENTRY_SIZE
      modifies this`entriesSucceeded, this`handed, entry
      ensures Ends(Decide(env, old(View()), buf[..size]), fault)
    {
      assert buf[..size][2..6] == buf[2..6];
      var valid := ValidBucketId(env.allowed, buf);
      if !valid { return Other; }
      var r := entry.Decode(buf[..size]);
      if r == Panic { return Died; }
      if r != NoError { return Other; }
      var ok := env.processes(|handed|);
      handed := handed + [entry.Val()];
      if !ok { return Other; }
      entriesSucceeded := entriesSucceeded + 1;
      return None;
    }

    /** What `listen` writes after handling an entry. */
    method Answer(fault: Fault)
      modifies this`replies
      ensures View() == Answered(env, Turn(old(View()), fault))
    {
      if env.ack && fault != TimedOut && fault != Died {
        var _ := Write(if fault == None then AckOk else AckNok);
      }
    }

    /** `listen`: until handling an entry ends in an error. */
    method Listen()
      requires Valid()
      modifies this, buf, entry
      ensures View() == Served(env, old(View())).(entry := View().entry)
      ensures NothingPending(env, old(View())) ==> Closed(env, View())
      ensures replies == old(replies) + F.Answering(env, old(View()))
    {
      F.RepliesAre(env, View());
      if NothingPending(env, View()) {
        Accounting(env, View());
      }
      ghost var goal := Served(env, View());
      var fault := None;
      while fault == None
        invariant if fault == None then Served(env, View()) == goal else View() == goal.(entry := View().entry)
        decreases fault == None, |input|
      {
        ghost var s := View();
        fault := HandleEntry();
        ServedTurn(env, s, Handled(env, s));
        Answer(fault);
      }
    }
  }
}
