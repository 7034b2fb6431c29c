/** The ring buffer of `internal/channel`. Each method is one locked section of the source: from
    taking the mutex, or from waking up with it, to releasing it or parking. */
module ByteChannel {
  import opened Bytes
  import opened ChannelGate
  import opened ChannelHistory
  import Ring

  /** A callback that fills a slot, and one that consumes it and says whether it succeeded. */
  type Filler = seq<byte> -> seq<byte>
  type Consumer = seq<byte> -> bool

  predicate Fits(cb: Filler, slot: seq<byte>) { |cb(slot)| == |slot| }

  /** What `ReadToCallback` gives back: nothing was queued, or the slot that was handed over. */
  datatype Handover = NothingQueued | Handed(item: seq<byte>, ok: bool)

  class ByteChannel {
    const data: array<byte>
    const itemSize: nat
    const capacity: nat
    var startIdx: nat
    var awaitingAck: int
    var length: int
    var itemsWritten: nat
    var itemsRead: nat
    var closed: bool
    var closedWriting: bool
    var readCond: nat    // broadcasts made on `readCond` so far
    var writeCond: nat   // broadcasts made on `writeCond` so far

    /** The history that this buffer is a window on. */
    ghost var q: Queue<seq<byte>>

    /** The bytes of all slots. */
    ghost var slots: seq<seq<byte>>

    /** `slice` */
    function Slot(i: nat): (s: seq<byte>)
      requires data.Length == capacity * itemSize && i < capacity
      reads data
      ensures |s| == itemSize
    {
      Ring.SlotRange(i, capacity, itemSize);
      data[i * itemSize..i * itemSize + itemSize]
    }

    /** The byte array holds the slots, one after the other. */
    ghost predicate Backed()
      reads `slots, data
    {
      && data.Length == capacity * itemSize && |slots| == capacity
      && forall i :: 0 <= i < capacity ==> slots[i] == Slot(i)
    }

    ghost function Cursors(): Gate
      reads this
    {
      Gate(capacity, length, awaitingAck, closed, closedWriting)
    }

    /** The slots from `startIdx` on hold exactly the window of the history, in order. */
    ghost predicate Valid()
      reads this, data
    {
      && 0 < capacity && startIdx < capacity && Backed()
      && q.gate == Cursors() && q.itemsWritten == itemsWritten && q.itemsRead == itemsRead
      && Refines(q, slots, startIdx)
    }

    constructor (capacity: nat, itemSize: nat)
      requires 0 < capacity
      ensures Valid() && fresh(data) && q == New(capacity)
      ensures this.capacity == capacity && this.itemSize == itemSize && readCond == 0 && writeCond == 0
    {
      this.capacity := capacity;
      this.itemSize := itemSize;
      data := new byte[capacity * itemSize](_ => 0);
      startIdx, awaitingAck, length := 0, 0, 0;
      itemsWritten, itemsRead := 0, 0;
      closed, closedWriting := false, false;
      readCond, writeCond := 0, 0;
      q := New(capacity);
      new;
      slots := seq(capacity, i requires 0 <= i < capacity reads data => Slot(i));
    }

    method SetSlot(idx: nat, item: seq<byte>)
      requires Backed() && idx < capacity && |item| == itemSize
      modifies data, `slots
      ensures Backed() && slots == old(slots)[idx := item]
    {
      Ring.SlotRange(idx, capacity, itemSize);
      forall k | 0 <= k < itemSize {
        data[idx * itemSize + k] := item[k];
      }
      assert Slot(idx) == item;
      forall i | 0 <= i < capacity && i != idx
        ensures Slot(i) == old(Slot(i))
      {
        SlotApart(idx, i);
      }
      slots := slots[idx := item];
    }

    /** Another slot has no byte in common with slot `idx`. */
    lemma SlotApart(idx: nat, i: nat)
      requires data.Length == capacity * itemSize && idx < capacity && i < capacity && i != idx
      ensures 0 <= i * itemSize && i * itemSize + itemSize <= data.Length
      ensures i * itemSize + itemSize <= idx * itemSize || idx * itemSize + itemSize <= i * itemSize
    {
      Ring.SlotRange(i, capacity, itemSize);
      if i < idx {
        Ring.SlotsApart(i, idx, itemSize);
      } else {
        Ring.SlotsApart(idx, i, itemSize);
      }
    }

    /** The cursor updates of `write`. */
    method Advance()
      requires 0 < capacity && startIdx < capacity && 0 <= awaitingAck <= length <= capacity
      modifies `startIdx, `awaitingAck, `length, `itemsWritten, `readCond
      ensures Cursors() == old(Cursors()).Written()
      ensures startIdx == if old(length) < capacity then old(startIdx) else Ring.Wrap(old(startIdx) + 1, capacity)
      ensures itemsWritten == Inc(old(itemsWritten)) && readCond == old(readCond) + 1
    {
      if length < capacity {
        length := length + 1;
      } else {
        startIdx := Ring.Wrap(startIdx + 1, capacity);
        if awaitingAck > 0 {
          awaitingAck := awaitingAck - 1;
        }
      }
      itemsWritten := Inc(itemsWritten);
      readCond := readCond + 1;
    }

    /** The history takes note of a write: the slot is filled and the cursors have moved. */
    ghost method Note(item: seq<byte>, before: seq<seq<byte>>, start: nat)
      requires 0 < capacity && startIdx < capacity && Backed() && |before| == capacity
      requires Refines(q, before, start) && slots == before[Ring.Wrap(start + q.gate.len, capacity) := item]
      requires Cursors() == q.gate.Written() && itemsWritten == Inc(q.itemsWritten) && itemsRead == q.itemsRead
      requires startIdx == if q.gate.SpaceLeft() then start else Ring.Wrap(start + 1, capacity)
      modifies `q
      ensures Valid() && q == Put(old(q), item)
    {
      WriteRefines(q, before, start, item);
      q := Put(q, item);
    }

    /** `write`: fills the slot behind the newest item; a full channel lets go of the oldest. */
    method Write(cb: Filler) returns (ghost item: seq<byte>)
      requires Valid()
      requires forall slot :: |slot| == itemSize ==> Fits(cb, slot)
      modifies this, data
      ensures Valid() && q == Put(old(q), item)
      ensures item == cb(old(slots[Ring.Wrap(startIdx + length, capacity)]))
      ensures readCond == old(readCond) + 1 && writeCond == old(writeCond)
    {
      var idx := Ring.Wrap(startIdx + length, capacity);
      var filled := cb(Slot(idx));
      assert Fits(cb, Slot(idx));
      item := filled;
      ghost var before, start := slots, startIdx;
      SetSlot(idx, filled);
      Advance();
      Note(item, before, start);
    }

    /** `write` when the callback panics after leaving `left` in its slot: the panic passes through, so no cursor moves. On a
        full channel the slot is that of the oldest item, and the channel is still a window on its history exactly when
        the callback had not changed it. */
    method WritePanics(left: seq<byte>)
      requires Valid() && |left| == itemSize
      modifies data, `slots
      ensures q == old(q) && startIdx == old(startIdx) && length == old(length)
      ensures Valid() <==> q.gate.SpaceLeft() || left == q.Window()[0]
    {
      var idx := Ring.Wrap(startIdx + length, capacity);
      PanicKeepsWindowIff(q, slots, startIdx, left);
      SetSlot(idx, left);
    }

    /** One locked section of `WriteOrBlock`: on entry, or when woken from `writeCond`. Waking does not
        look at `closedWriting` again if there is room. */
    method WriteOrBlock(cb: Filler, woken: bool) returns (next: Next, ghost item: seq<byte>)
      requires Valid()
      requires forall slot :: |slot| == itemSize ==> Fits(cb, slot)
      modifies this, data
      ensures Valid() && next == old(q.gate).BlockingWrite(woken)
      ensures q == if next == Go then Put(old(q), item) else old(q)
      ensures next == Go ==> item == cb(old(slots[Ring.Wrap(startIdx + length, capacity)]))
      ensures readCond == old(readCond) + (if next == Go then 1 else 0) && writeCond == old(writeCond)
    {
      item := [];
      if !woken && closedWriting {
        return Refused, item;
      }
      if length >= capacity {
        next := if closedWriting then Refused else Park;
        return;
      }
      item := Write(cb);
      next := Go;
    }

    method WriteOrFail(cb: Filler) returns (ok: bool, ghost item: seq<byte>)
      requires Valid()
      requires forall slot :: |slot| == itemSize ==> Fits(cb, slot)
      modifies this, data
      ensures Valid() && (ok <==> !old(closedWriting) && old(q.gate).SpaceLeft())
      ensures q == if ok then Put(old(q), item) else old(q)
      ensures ok ==> item == cb(old(slots[Ring.Wrap(startIdx + length, capacity)]))
      ensures readCond == old(readCond) + (if ok then 1 else 0) && writeCond == old(writeCond)
    {
      item := [];
      if closedWriting || length >= capacity {
        return false, item;
      }
      item := Write(cb);
      ok := true;
    }

    method WriteOrReplace(cb: Filler) returns (ok: bool, ghost item: seq<byte>)
      requires Valid()
      requires forall slot :: |slot| == itemSize ==> Fits(cb, slot)
      modifies this, data
      ensures Valid() && (ok <==> !old(closedWriting))
      ensures q == if ok then Put(old(q), item) else old(q)
      ensures ok ==> item == cb(old(slots[Ring.Wrap(startIdx + length, capacity)]))
      ensures readCond == old(readCond) + (if ok then 1 else 0) && writeCond == old(writeCond)
    {
      item := [];
      if closedWriting {
        return false, item;
      }
      item := Write(cb);
      ok := true;
    }

    /** One locked section of `Wait`. */
    method Wait() returns (next: Next, unread: int)
      requires Valid()
      ensures next == q.gate.Wait()
      ensures unread == if next == Go then |q.Window()[awaitingAck..]| else 0
    {
      unread := 0;
      if length - awaitingAck <= 0 && !closed {
        return if closedWriting then EndOfFile else Park, 0;
      }
      if closed {
        return ClosedPipe, 0;
      }
      return Go, length - awaitingAck;
    }

    method WaitUntilRead() returns (next: Next, read: int)
      requires Valid()
      ensures next == q.gate.WaitUntilRead() && (next == Go ==> read == awaitingAck > 0)
    {
      read := 0;
      if awaitingAck <= 0 && !closed {
        return Park, 0;
      }
      if closed {
        return ClosedPipe, 0;
      }
      return Go, awaitingAck;
    }

    method WaitUntilEmpty() returns (next: Next)
      requires Valid()
      ensures next == q.gate.WaitUntilEmpty() && (next == Go ==> q.Window() == [])
    {
      if length > 0 && !closed {
        return Park;
      }
      return if closed then ClosedPipe else Go;
    }

    /** The state between `read` and what follows it: the cursor has moved, the history has not. */
    ghost predicate Reading()
      reads this, data
    {
      && 0 < capacity && startIdx < capacity && Backed()
      && q.gate == Cursors().Untaken() && q.itemsWritten == itemsWritten && Inc(q.itemsRead) == itemsRead
      && Refines(q, slots, startIdx)
    }

    /** `read`: the slot at the read cursor, which moves on. */
    method Read() returns (item: seq<byte>)
      requires Valid()
      modifies `awaitingAck, `itemsRead
      ensures Reading() && awaitingAck == old(awaitingAck) + 1
      ensures q.gate.ToRead() ==> item == q.Window()[old(awaitingAck)]
    {
      item := Slot(Ring.Wrap(startIdx + awaitingAck, capacity));
      if q.gate.ToRead() {
        NextItem(q, slots, startIdx);
      }
      awaitingAck := awaitingAck + 1;
      itemsRead := Inc(itemsRead);
    }

    /** `undoRead` */
    method UndoRead()
      requires Reading()
      modifies `awaitingAck, `itemsRead
      ensures Valid()
    {
      CountStep(q.tally.ReadAndGone() + q.gate.awaiting);
      awaitingAck := awaitingAck - 1;
      itemsRead := Dec(itemsRead);
    }

    ghost method KeepRead()
      requires Reading() && q.gate.ToRead()
      modifies `q
      ensures Valid() && q == Take(old(q))
    {
      TakeRefines(q, slots, startIdx);
      q := Take(q);
    }

    /** Hands the slot at the read cursor to `cb`. Only emptiness is tested: with everything in flight,
        a read that is kept pushes `awaitingAck` past `length`. */
    method ReadToCallback(cb: Consumer, undoOnError: bool) returns (r: Handover)
      requires Valid()
      modifies this
      ensures old(q.gate).Empty() <==> r == NothingQueued
      ensures r == NothingQueued ==> Valid() && q == old(q) && readCond == old(readCond) && writeCond == old(writeCond)
      ensures r.Handed? ==> var undone := undoOnError && !r.ok;
                && r.ok == cb(r.item)
                && readCond == old(readCond) + (if undone then 1 else 0)
                && writeCond == old(writeCond) + (if undone then 0 else 1)
                && (undone ==> Valid() && q == old(q))
                && (!undone && old(q.gate).ToRead() ==> Valid() && q == Take(old(q)))
                && (!undone && !old(q.gate).ToRead() ==> awaitingAck == length + 1)
                && (old(q.gate).ToRead() ==> r.item == old(q).Window()[old(awaitingAck)])
    {
      if length <= 0 {
        return NothingQueued;
      }
      var item := Read();
      r := Handed(item, cb(item));
      Settle(undoOnError && !r.ok);
    }

    /** What `ReadToCallback` does after the callback: undo the read, or keep it. */
    method Settle(undone: bool)
      requires Reading()
      modifies `awaitingAck, `itemsRead, `readCond, `writeCond, `q
      ensures readCond == old(readCond) + (if undone then 1 else 0)
      ensures writeCond == old(writeCond) + (if undone then 0 else 1)
      ensures undone ==> Valid() && q == old(q)
      ensures !undone && old(q.gate).ToRead() ==> Valid() && q == Take(old(q))
      ensures !undone ==> awaitingAck == old(awaitingAck)
    {
      if undone {
        UndoRead();
        readCond := readCond + 1;
      } else {
        if q.gate.ToRead() {
          KeepRead();
        }
        writeCond := writeCond + 1;
      }
    }

    method Ack()
      requires Valid()
      modifies this
      ensures Valid() && q == ChannelHistory.Ack(old(q))
      ensures readCond == old(readCond) && writeCond == old(writeCond) + (if old(q.gate).ToAck() then 1 else 0)
    {
      if awaitingAck <= 0 {
        return;
      }
      ghost var start := startIdx;
      DropOldest();
      NoteAck(start);
      writeCond := writeCond + 1;
    }

    /** The history follows the cursors. */
    ghost method NoteAck(start: nat)
      requires 0 < capacity && start < capacity && startIdx < capacity && Backed()
      requires q.gate == Cursors().(len := length + 1, awaiting := awaitingAck + 1) && awaitingAck >= 0
      requires q.itemsWritten == itemsWritten && q.itemsRead == itemsRead && Refines(q, slots, start)
      requires startIdx == if length > 0 then Ring.Wrap(start + 1, capacity) else start
      modifies `q
      ensures Valid() && q == ChannelHistory.Ack(old(q))
    {
      AckRefines(q, slots, start);
      q := ChannelHistory.Ack(q);
    }

    /** The cursors of an acknowledgement. */
    method DropOldest()
      requires startIdx < capacity
      modifies `awaitingAck, `length, `startIdx
      ensures awaitingAck == old(awaitingAck) - 1 && length == old(length) - 1
      ensures startIdx == if old(length) > 1 then Ring.Wrap(old(startIdx) + 1, capacity) else old(startIdx)
    {
      awaitingAck := awaitingAck - 1;
      length := length - 1;
      if length > 0 {
        startIdx := Ring.Wrap(startIdx + 1, capacity);
      }
    }

    method CloseWriting()
      requires Valid()
      modifies this
      ensures Valid() && q == ChannelHistory.CloseWriting(old(q))
      ensures readCond == old(readCond) && writeCond == old(writeCond) + (if old(closedWriting) then 0 else 1)
    {
      if !closedWriting {
        closedWriting := true;
        writeCond := writeCond + 1;
        q := ChannelHistory.CloseWriting(q);
      }
    }

    method Close()
      requires Valid()
      modifies this
      ensures Valid() && q == ChannelHistory.Close(old(q))
      ensures closed && (!old(closed) ==> closedWriting)
      ensures var n := if old(closed) then 0 else 1; readCond == old(readCond) + n && writeCond == old(writeCond) + n
    {
      if !closed {
        closed := true;
        closedWriting := true;
        readCond := readCond + 1;
        writeCond := writeCond + 1;
        q := ChannelHistory.Close(q);
      }
    }

    method Rewind() returns (count: int)
      requires Valid()
      modifies this
      ensures Valid() && q == ChannelHistory.Rewind(old(q)) && count == old(awaitingAck)
      ensures readCond == old(readCond) + (if count > 0 then 1 else 0) && writeCond == old(writeCond)
    {
      count := awaitingAck;
      awaitingAck := 0;
      if count > 0 {
        readCond := readCond + 1;
      }
      q := ChannelHistory.Rewind(q);
    }

    method Reset()
      requires Valid()
      modifies this
      ensures Valid() && q == ChannelHistory.Reset(old(q))
      ensures readCond == old(readCond) && writeCond == old(writeCond) + 1
    {
      startIdx := 0;
      awaitingAck := 0;
      length := 0;
      writeCond := writeCond + 1;
      q := ChannelHistory.Reset(q);
    }

    /** The loop of `CopyTo`: writes every slot of this ring, used or not, to `dst` in ring order. */
    method CopySlots(dst: ByteChannel)
      requires Valid() && dst.Valid() && dst != this && dst.data != data && dst.itemSize == itemSize
      modifies dst, dst.data
      ensures dst.Valid() && dst.writeCond == old(dst.writeCond)
      ensures dst.q == PutAll(old(dst.q), Ring.Window(slots, startIdx, capacity))
    {
      ghost var q0, mine, start := dst.q, slots, startIdx;
      ghost var ring := Ring.Window(mine, start, capacity);
      assert ring[..0] == [];
      var i := 0;
      while i < capacity
        invariant 0 <= i <= capacity
        invariant dst.Valid() && dst.q == PutAll(q0, ring[..i])
        invariant dst.writeCond == old(dst.writeCond)
      {
        CopyStep(q0, mine, start, i);
        var slot := SlotAfter(i);
        dst.Append(slot);
        i := i + 1;
      }
      assert ring[..capacity] == ring;
    }

    /** The slot `i` places after the oldest. */
    method SlotAfter(i: nat) returns (slot: seq<byte>)
      requires Valid() && i < capacity
      ensures |slot| == itemSize && slot == slots[Ring.Wrap(startIdx + i, capacity)]
    {
      slot := Slot(Ring.Wrap(startIdx + i, capacity));
    }

    /** Copies all slots, then cuts the length of `dst` back; nothing is broadcast on `dst.writeCond`. */
    method CopyTo(dst: ByteChannel)
      requires Valid() && dst.Valid() && dst != this && dst.data != data && dst.itemSize == itemSize
      modifies dst, dst.data
      ensures dst.Valid() && dst.writeCond == old(dst.writeCond)
      ensures dst.q == Copied(old(dst.q), Ring.Window(slots, startIdx, capacity), length)
    {
      ghost var q0, ring := dst.q, Ring.Window(slots, startIdx, capacity);
      CopySlots(dst);
      var n := if length < dst.capacity then length else dst.capacity;
      CopyFits(q0, ring, n);
      dst.CutBack(n);
    }

    /** A write of one whole slot. */
    method Append(slot: seq<byte>)
      requires Valid() && |slot| == itemSize
      modifies this, data
      ensures Valid() && q == Put(old(q), slot) && writeCond == old(writeCond)
    {
      ghost var item := Write(_ => slot);
    }

    method CutBack(n: nat)
      requires Valid() && n <= q.gate.len
      modifies `awaitingAck, `length, `q
      ensures Valid() && q == Truncate(old(q), n)
    {
      TruncateRefines(q, slots, startIdx, n);
      awaitingAck := 0;
      length := n;
      q := Truncate(q, n);
    }
  }

  /** The slots of a ring from `start` on hold the window of `q`. */
  ghost predicate Refines<T>(q: Queue<T>, slots: seq<T>, start: nat) {
    && q.gate.cap == |slots| && start < |slots|
    && q.Window() == Ring.Window(slots, start, q.gate.len)
  }

  lemma WriteRefines<T>(q: Queue<T>, slots: seq<T>, start: nat, x: T)
    requires Refines(q, slots, start)
    ensures var cap := |slots|;
            Refines(Put(q, x), slots[Ring.Wrap(start + q.gate.len, cap) := x],
                    if q.gate.SpaceLeft() then start else Ring.Wrap(start + 1, cap))
  {
    if q.gate.SpaceLeft() {
      Ring.WindowAppends(slots, start, q.gate.len, x);
    } else {
      Ring.WindowReplaces(slots, start, x);
    }
  }

  /** Overwriting the slot that the next item would go to leaves the window alone, unless the ring is full. */
  lemma PanicKeepsWindowIff<T>(q: Queue<T>, slots: seq<T>, start: nat, x: T)
    requires Refines(q, slots, start)
    ensures Refines(q, slots[Ring.Wrap(start + q.gate.len, |slots|) := x], start) <==>
      q.gate.SpaceLeft() || x == q.Window()[0]
  {
    var after := slots[Ring.Wrap(start + q.gate.len, |slots|) := x];
    var w, v := Ring.Window(slots, start, q.gate.len), Ring.Window(after, start, q.gate.len);
    if q.gate.SpaceLeft() {
      assert w == v;
    } else {
      assert v[0] == x && v[1..] == w[1..];
    }
  }

  lemma TakeRefines<T>(q: Queue<T>, slots: seq<T>, start: nat)
    requires Refines(q, slots, start) && q.gate.ToRead()
    ensures Refines(Take(q), slots, start)
  {
  }

  /** The slot at the read cursor is the next item of the window, if there is one to read. */
  lemma NextItem<T>(q: Queue<T>, slots: seq<T>, start: nat)
    requires Refines(q, slots, start) && q.gate.ToRead()
    ensures q.Window()[q.gate.awaiting] == slots[Ring.Wrap(start + q.gate.awaiting, |slots|)]
  {
  }

  lemma AckRefines<T>(q: Queue<T>, slots: seq<T>, start: nat)
    requires Refines(q, slots, start) && q.gate.ToAck()
    ensures Refines(ChannelHistory.Ack(q), slots, if q.gate.len > 1 then Ring.Wrap(start + 1, |slots|) else start)
  {
    Ring.WindowDrops(slots, start, q.gate.len);
  }

  lemma TruncateRefines<T>(q: Queue<T>, slots: seq<T>, start: nat, n: nat)
    requires Refines(q, slots, start) && n <= q.gate.len
    ensures Refines(Truncate(q, n), slots, start)
  {
  }

  lemma CopyStep<T>(q0: Queue<T>, slots: seq<T>, start: nat, i: nat)
    requires start < |slots| && i < |slots|
    ensures var ring := Ring.Window(slots, start, |slots|);
            PutAll(q0, ring[..i + 1]) == Put(PutAll(q0, ring[..i]), slots[Ring.Wrap(start + i, |slots|)])
  {
    var ring := Ring.Window(slots, start, |slots|);
    assert ring[..i + 1] == ring[..i] + [ring[i]];
    PutAllStep(q0, ring[..i], ring[i]);
  }

  lemma CopyFits<T>(q0: Queue<T>, ring: seq<T>, n: nat)
    requires n <= |ring| && n <= q0.gate.cap
    ensures n <= PutAll(q0, ring).gate.len
  {
    PutAllWindow(q0, ring);
  }

  /** How many items `CopyTo` leaves in its destination. */
  function CopyLength(len: int, cap: int): int { if len < cap then len else cap }

  /** The queue that `CopyTo` leaves in a destination that held `dst`. */
  function Copied(dst: Queue<seq<byte>>, ring: seq<seq<byte>>, len: nat): Queue<seq<byte>>
    requires len <= |ring|
  {
    PutAllWindow(dst, ring);
    Truncate(PutAll(dst, ring), CopyLength(len, dst.gate.cap))
  }

  /** What a copy into an empty channel holds, for any two capacities. */
  lemma CopyWindow(dst: Queue<seq<byte>>, ring: seq<seq<byte>>, len: nat)
    requires dst.Window() == [] && len <= |ring|
    ensures Copied(dst, ring, len).gate.awaiting == 0
    ensures var w := Newest(ring, dst.gate.cap); var n := CopyLength(len, dst.gate.cap);
            n <= |w| && Copied(dst, ring, len).Window() == w[..n]
  {
    PutAllWindow(dst, ring);
    assert dst.Window() + ring == ring;
  }

  /** Into an empty channel at least as large, a copy holds the whole queue, in order and unread; from a
      full channel into a smaller one, the newest items. */
  lemma CopyKeepsQueue(src: Queue<seq<byte>>, slots: seq<seq<byte>>, start: nat, dst: Queue<seq<byte>>)
    requires Refines(src, slots, start) && dst.Window() == []
    requires src.gate.cap <= dst.gate.cap || src.gate.len == src.gate.cap
    ensures var copy := Copied(dst, Ring.Window(slots, start, |slots|), src.gate.len);
            copy.gate.awaiting == 0 && copy.Window() == Newest(src.Window(), dst.gate.cap)
  {
    var ring := Ring.Window(slots, start, |slots|);
    assert src.Window() == ring[..src.gate.len];
    CopyWindow(dst, ring, src.gate.len);
  }

  /** Otherwise the copy is taken from the wrong place: with a smaller destination and a source that is
      not full, it holds `n` slots starting `k` past the oldest item, and those past the end of the
      queue are stale. */
  lemma CopyMissesOldest(src: Queue<seq<byte>>, slots: seq<seq<byte>>, start: nat, dst: Queue<seq<byte>>)
    requires Refines(src, slots, start) && dst.Window() == []
    requires dst.gate.cap < src.gate.cap && 0 < src.gate.len < src.gate.cap
    ensures var ring := Ring.Window(slots, start, |slots|);
            var k := src.gate.cap - dst.gate.cap;
            var n := CopyLength(src.gate.len, dst.gate.cap);
            && Copied(dst, ring, src.gate.len).Window() == ring[k..k + n]
            && k > 0 && k + n > src.gate.len
  {
    var ring, k := Ring.Window(slots, start, |slots|), src.gate.cap - dst.gate.cap;
    CopyWindow(dst, ring, src.gate.len);
    assert Newest(ring, dst.gate.cap) == ring[k..];
  }
}
