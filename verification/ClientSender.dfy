/** The client's sending side: one entry over a connection that may write short or fail. */
module ClientSender {
  import opened PartialWrites
  import opened Bytes
  import opened EntryWire
  import opened EntryTheorems
  import opened ServerSession
  import opened Framing
  import opened EntryWriter
  import opened EntryPanics
  import History = ChannelHistory
  import Channel = ByteChannel

  /** A slot of the channel: `itemSize` bytes, the record first and stale bytes after it. */
  type Slot = s: seq<byte> | |s| == MAX_ENTRY_SIZE witness seq(MAX_ENTRY_SIZE, _ => 0)

  /** `entrySize`. */
  function EntrySize(slot: Slot): u16 { Get16(slot[..2]) }

  /** `processEntry`. `script` is how the writes go; after it the connection is broken. It succeeds if and only if the writes
      before the first failure take the whole record; what went out is as much of the record as the writes took, the one
      that failed included. */
  method ProcessEntry(slot: Slot, script: seq<WriteResult>) returns (sent: seq<byte>, ok: bool, used: nat)
    ensures ok <==> Takes(EntrySize(slot), script)
    ensures sent == slot[..Min(EntrySize(slot), Total(UntilBroken(script)))]
    ensures ok ==> sent == slot[..EntrySize(slot)]
    ensures used <= |script| && (ok ==> Unbroken(script[..used]) && used == Need(EntrySize(slot), script))
  {
    var size := EntrySize(slot);
    var b := slot[..size];
    var bytesWritten: nat := 0;
    used, sent := 0, [];
    while bytesWritten < size
      invariant used <= |script| && Unbroken(script[..used])
      invariant bytesWritten == Min(size, Total(script[..used])) && sent == b[..bytesWritten]
      invariant Need(size, script) == NeedFrom(size, script, used)
      decreases |script| - used
    {
      if used == |script| {
        StopsShort(size, script, used);
        return sent, false, used;
      }
      var w := script[used];
      var n := if w.n < size - bytesWritten then w.n else size - bytesWritten;
      TotalNext(script, used);
      if w.err == Broken { StopsShort(size, script, used); }
      used := used + 1;
      sent := sent + b[bytesWritten..bytesWritten + n];
      bytesWritten := bytesWritten + n;
      if w.err == Broken { return sent, false, used; }
    }
    ok := true;
    Enough(size, script, used);
  }

  /** The slot holds the record of `e`, whatever is behind it. */
  predicate HoldsRecord(slot: Slot, e: Sendable) {
    |Record(e)| <= MAX_ENTRY_SIZE && slot[..|Record(e)|] == Record(e)
  }

  /** `Encode` into the slot that the channel passes, for every entry within its caps and whatever the slot held:
      it panics exactly when the metric loop comes to a seventeenth metric or the record is longer than the slot, and
      otherwise keeps the slot's size and fills it with the record. */
  lemma EncodingFillsIff(e: EntryVal, slot: Slot)
    requires WithinCaps(e)
    ensures Encoded(e, slot).Ok? <==> !RunsPast(e) && Framed(Trimmed(e))
    ensures Encoded(e, slot).Ok? ==>
      |Encoded(e, slot).value.w| == |slot| && HoldsRecord(Encoded(e, slot).value.w, Trimmed(e))
  {
    EncodePanicsIff(e, slot);
  }

  /** What the client passes to the channel's write methods. Where `Encode` panics there is no write: the panic
      leaves the call before the channel counts the item. */
  function Encoding(e: EntryVal): Channel.Filler {
    (slot: seq<byte>) => match Encoded(e, slot) case Ok(o) => o.w case Crash => slot
  }

  lemma EncodingFits(e: Sendable, slot: Slot)
    requires WithinCaps(e) && Framed(e)
    ensures Channel.Fits(Encoding(e), slot) && HoldsRecord(Encoding(e)(slot), e)
  {
    EncodingFillsIff(e, slot);
  }

  /** Stale bytes are never sent: the bytes that go out are those of the record. */
  lemma SlotSends(slot: Slot, e: Sendable)
    requires HoldsRecord(slot, e)
    ensures slot[..EntrySize(slot)] == Record(e)
  {
    RecordHolds(e);
    RecordSize(e);
    assert slot[..2] == slot[..|Record(e)|][..2];
  }

  predicate AllHoldRecords(slots: seq<Slot>, es: seq<Sendable>) {
    |slots| == |es| && forall k :: 0 <= k < |es| ==> HoldsRecord(slots[k], es[k])
  }

  /** Every item ever written to the channel is a slot that holds the record of its entry. */
  predicate HistoryHolds(q: History.Queue<seq<byte>>, es: seq<Sendable>) {
    && |q.written| == |es|
    && forall k :: 0 <= k < |es| ==> |q.written[k]| == MAX_ENTRY_SIZE && HoldsRecord(q.written[k], es[k])
  }

  /** A channel that is written through `Encoding` holds records, whatever the slots held before. */
  lemma WriteHolds(q: History.Queue<seq<byte>>, es: seq<Sendable>, e: Sendable, slot: Slot)
    requires HistoryHolds(q, es) && WithinCaps(e) && Framed(e)
    ensures HistoryHolds(History.Put(q, Encoding(e)(slot)), es + [e])
  {
    EncodingFits(e, slot);
  }

  /** So what the sender finds in it are the slots of the entries that are still queued. */
  lemma WindowHolds(q: History.Queue<seq<byte>>, es: seq<Sendable>) returns (slots: seq<Slot>)
    requires HistoryHolds(q, es)
    ensures q.base <= |es| && slots == q.Window() && AllHoldRecords(slots, es[q.base..])
  {
    slots := q.Window();
  }

  function Sizes(es: seq<Sendable>): (sizes: seq<nat>)
    ensures |sizes| == |es|
  {
    seq(|es|, k requires 0 <= k < |es| => |Record(es[k])|)
  }

  /** As much of the record of `e` as the writes take. */
  function Part(e: Sendable, script: seq<WriteResult>): seq<byte> {
    Record(e)[..Min(|Record(e)|, Total(UntilBroken(script)))]
  }

  /** What `ProcessEntry` says, for a slot that holds a record. */
  lemma SlotPart(slot: Slot, e: Sendable, script: seq<WriteResult>)
    requires HoldsRecord(slot, e)
    ensures EntrySize(slot) == |Record(e)| && slot[..EntrySize(slot)] == Record(e)
    ensures slot[..Min(EntrySize(slot), Total(UntilBroken(script)))] == Part(e, script) <= Record(e)
  {
    SlotSends(slot, e);
  }

  /** As many of the entries as the writes can take one after the other are sent whole, and of the entry at which sending
      stops as much as the writes left over take. */
  predicate SentBy(script: seq<WriteResult>, es: seq<Sendable>, n: nat, stream: seq<byte>) {
    var sizes := Sizes(es);
    && n <= |es| && TakesAll(sizes[..n], script) && (n == |es| <==> TakesAll(sizes, script))
    && (n < |es| ==> !TakesAll(sizes[..n + 1], script))
    && stream == Flatten(Records(es[..n])) + (if n < |es| then Part(es[n], script[Spent(sizes, n, script)..]) else [])
  }

  /** The first `n` entries are sent, and the writes from `at` on are left. */
  predicate Sending(script: seq<WriteResult>, es: seq<Sendable>, n: nat, at: nat, stream: seq<byte>) {
    && n <= |es| && stream == Flatten(Records(es[..n]))
    && TakesAll(Sizes(es)[..n], script) && at == Spent(Sizes(es), n, script)
  }

  lemma SendingNext(script: seq<WriteResult>, es: seq<Sendable>, n: nat, at: nat, stream: seq<byte>, used: nat)
    requires Sending(script, es, n, at, stream) && n < |es|
    requires Takes(|Record(es[n])|, script[at..]) && used == Need(|Record(es[n])|, script[at..])
    ensures Sending(script, es, n + 1, at + used, stream + Record(es[n]))
  {
    TakesNext(Sizes(es), script, n);
    RecordsNext(es, n);
  }

  lemma SendingStops(script: seq<WriteResult>, es: seq<Sendable>, n: nat, at: nat, stream: seq<byte>)
    requires Sending(script, es, n, at, stream) && (n < |es| ==> !Takes(|Record(es[n])|, script[at..]))
    ensures SentBy(script, es, n, stream + if n < |es| then Part(es[n], script[at..]) else [])
  {
    var sizes := Sizes(es);
    if n < |es| {
      TakesNext(sizes, script, n);
      if TakesAll(sizes, script) {
        TakesFewer(sizes, script, n + 1);
      }
    } else {
      assert sizes[..n] == sizes;
    }
  }

  /** The entries sent on one connection, until all are sent or a send fails. The stream holds the records of the first `m`
      entries and a torn part of the next. Entries reported as sent are among the first `m`. */
  method SendEntries(slots: seq<Slot>, script: seq<WriteResult>, ghost es: seq<Sendable>)
    returns (stream: seq<byte>, n: nat, ghost m: nat, ghost torn: seq<byte>)
    requires AllHoldRecords(slots, es)
    ensures SentBy(script, es, n, stream)
    ensures n <= m <= |es| && m <= n + 1 && stream == Flatten(Records(es[..m])) + torn
    ensures if m < |es| then Torn(torn, es[m]) else torn == []
  {
    var at: nat := 0;
    stream, n := [], 0;
    while n < |slots|
      invariant Sending(script, es, n, at, stream)
    {
      var sent, ok, used := ProcessEntry(slots[n], script[at..]);
      assert HoldsRecord(slots[n], es[n]);
      SlotPart(slots[n], es[n], script[at..]);
      if !ok {
        SendingStops(script, es, n, at, stream);
        m, torn := Tear(es, n, sent);
        stream := stream + sent;
        return;
      }
      SendingNext(script, es, n, at, stream, used);
      at := at + used;
      stream := stream + sent;
      n := n + 1;
    }
    SendingStops(script, es, n, at, stream);
    m, torn := n, [];
  }

  /** A part of a record is torn, unless it is the whole of it. */
  lemma Tear(es: seq<Sendable>, n: nat, sent: seq<byte>) returns (m: nat, torn: seq<byte>)
    requires n < |es| && Framed(es[n]) && sent <= Record(es[n])
    ensures n <= m <= n + 1 && Flatten(Records(es[..n])) + sent == Flatten(Records(es[..m])) + torn
    ensures if m < |es| then Torn(torn, es[m]) else torn == []
  {
    if sent == Record(es[n]) {
      m, torn := n + 1, [];
      RecordsNext(es, n);
    } else {
      m, torn := n, sent;
    }
  }

  lemma RecordsNext(es: seq<Sendable>, n: nat)
    requires n < |es|
    ensures Flatten(Records(es[..n + 1])) == Flatten(Records(es[..n])) + Record(es[n])
  {
    assert Records(es[..n + 1])[..n] == Records(es[..n]);
  }

  /** From the client's slots to the server's processor: what `SendEntries` put on the wire is what the server
      judges, record by record, up to the first it refuses; it sees no ping and nothing of a torn record. */
  lemma SentIsHanded(env: Env, s: Session, es: seq<Sendable>, m: nat, torn: seq<byte>)
    requires AllFramed(es) && m <= |es| && s.input == Flatten(Records(es[..m])) + torn
    requires if m < |es| then Torn(torn, es[m]) else torn == []
    ensures Follows(env, s, Served(env, s), StoryOf(env, s, es[..m]), false)
  {
    SessionTells(env, s, es[..m], torn, if m < |es| then es[m] else BLANK);
  }
}
