/** What `Decode` gives back for what `Encode` wrote. */
module EntryRoundTrip {
  import opened Bytes
  import opened EntryWire

  // ---------------------------------------------------------------- one list item

  /** The length byte of item `i` tells the truth. */
  predicate Honest(e: EntryVal, kind: Kind, i: nat)
    requires HasItem(kind, i)
  {
    KeyLen(e, kind, i) % 256 == |e.List(kind).keys[i]|
  }

  predicate Short(e: EntryVal, kind: Kind, i: nat)
    requires HasItem(kind, i)
  {
    && |e.List(kind).keys[i]| <= 255
    && (kind == Meta ==> |e.meta.vals[i]| <= 65535)
  }

  /** `sl` with what follows key `i` taken over from `e`. */
  function TailFilled(e: EntryVal, kind: Kind, sl: Slots, i: nat): Slots
    requires HasItem(kind, i) && ShapedSlots(kind, sl)
  {
    match kind
    case Tags => sl
    case Metrics => sl.(nums := sl.nums[i := e.metrics.nums[i]])
    case Meta => sl.(vals := sl.vals[i := e.meta.vals[i]])
    case Trace => sl.(lines := sl.lines[i := e.trace.lines[i]])
  }

  /** `sl` with item `i` taken over from `e`. */
  function Filled(e: EntryVal, kind: Kind, sl: Slots, i: nat): (r: Slots)
    requires HasItem(kind, i) && ShapedSlots(kind, sl)
    ensures ShapedSlots(kind, r) && r.count == sl.count
  {
    TailFilled(e, kind, sl.(keys := sl.keys[i := e.List(kind).keys[i]]), i)
  }

  // The tail of an item, kind by kind.

  lemma NumberParses(m: Arith, v: i32, i: nat, b: seq<byte>, sl: Slots, s: nat)
    requires HasItem(Metrics, i) && ShapedSlots(Metrics, sl)
    requires |b| <= MAX_ENTRY_SIZE && Holds(b, s, Put32(Unsigned(v)))
    ensures s + 4 <= |b|
    ensures ParseTail(m, Metrics, b, |b|, sl, i, s, s + 4) == Ok(Progress(true, sl.(nums := sl.nums[i := v]), s + 4))
  {
    Put32Inverse(Unsigned(v), [0, 0, 0, 0]);
    HoldsSlice(b, s, Put32(Unsigned(v)));
  }

  lemma LineParses(m: Arith, line: u16, i: nat, b: seq<byte>, sl: Slots, s: nat)
    requires HasItem(Trace, i) && ShapedSlots(Trace, sl)
    requires |b| <= MAX_ENTRY_SIZE && Holds(b, s, Put16(line))
    ensures s + 2 <= |b|
    ensures ParseTail(m, Trace, b, |b|, sl, i, s, s + 2) == Ok(Progress(true, sl.(lines := sl.lines[i := line]), s + 2))
  {
    Put16Inverse(line, [0, 0]);
    HoldsSlice(b, s, Put16(line));
  }

  lemma ValueParses(m: Arith, val: Str, i: nat, b: seq<byte>, sl: Slots, s: nat)
    requires HasItem(Meta, i) && ShapedSlots(Meta, sl) && |val| <= 65535
    requires |b| <= MAX_ENTRY_SIZE && Holds(b, s, Put16(|val|) + val)
    ensures s + 2 + |val| <= |b|
    ensures ParseTail(m, Meta, b, |b|, sl, i, s, s + 2) == Ok(Progress(true, sl.(vals := sl.vals[i := val]), s + 2 + |val|))
  {
    Put16Inverse(|val|, [0, 0]);
    HoldsSplit(b, s, Put16(|val|), val);
    HoldsSlice(b, s, Put16(|val|));
    HoldsSlice(b, s + 2, val);
  }

  /** The fields of item `i` stand in `b` from `s` on, one after the other. */
  predicate Laid(e: EntryVal, kind: Kind, i: nat, b: seq<byte>, s: nat)
    requires HasItem(kind, i)
  {
    var key := e.List(kind).keys[i];
    && At(b, s) == Ok(|key|)
    && Holds(b, s + 1, key)
    && Holds(b, s + 1 + |key|, Tail(e, kind, i))
  }

  lemma ItemIsLaid(e: EntryVal, kind: Kind, i: nat, b: seq<byte>, s: nat)
    requires HasItem(kind, i) && Short(e, kind, i) && Honest(e, kind, i)
    requires Holds(b, s, Item(e, kind, i))
    ensures Laid(e, kind, i, b, s)
  {
    var len := KeyLen(e, kind, i) % 256;
    assert len == |e.List(kind).keys[i]|;
    HoldsThree(b, s, [len], e.List(kind).keys[i], Tail(e, kind, i));
    HeldByte(b, s, len);
  }

  /** The key is found where it was written, and the tail is looked at next. */
  lemma KeyParses(m: Arith, kind: Kind, i: nat, b: seq<byte>, sl: Slots, s: nat, key: Str)
    requires HasItem(kind, i) && ShapedSlots(kind, sl)
    requires |b| <= MAX_ENTRY_SIZE && At(b, s) == Ok(|key|) && Holds(b, s + 1, key)
    requires s + 1 + |key| + Width(kind) <= |b| && (kind == Meta ==> s + 3 + |key| < |b|)
    ensures ParseItem(m, kind, b, |b|, sl, i, s)
         == ParseTail(m, kind, b, |b|, sl.(keys := sl.keys[i := key]), i, s + 1 + |key|, s + 1 + |key| + Width(kind))
  {
    HoldsSlice(b, s + 1, key);
  }

  lemma TailParses(m: Arith, e: EntryVal, kind: Kind, i: nat, b: seq<byte>, sl: Slots, s: nat)
    requires HasItem(kind, i) && Short(e, kind, i) && ShapedSlots(kind, sl)
    requires |b| <= MAX_ENTRY_SIZE && Holds(b, s, Tail(e, kind, i))
    ensures s + Width(kind) <= |b| && (kind == Meta && e.meta.vals[i] != [] ==> s + Width(kind) < |b|)
    ensures ParseTail(m, kind, b, |b|, sl, i, s, s + Width(kind))
         == Ok(Progress(true, TailFilled(e, kind, sl, i), s + |Tail(e, kind, i)|))
  {
    match kind
    case Tags =>
    case Metrics => NumberParses(m, e.metrics.nums[i], i, b, sl, s);
    case Trace => LineParses(m, e.trace.lines[i], i, b, sl, s);
    case Meta => ValueParses(m, e.meta.vals[i], i, b, sl, s);
  }

  lemma ItemParses(m: Arith, e: EntryVal, kind: Kind, i: nat, b: seq<byte>, sl: Slots, s: nat)
    requires HasItem(kind, i) && Short(e, kind, i) && Honest(e, kind, i)
    requires ShapedSlots(kind, sl)
    requires |b| <= MAX_ENTRY_SIZE
    requires Holds(b, s, Item(e, kind, i))
    requires kind == Meta && e.meta.vals[i] == [] ==> s + |Item(e, kind, i)| < |b|
    ensures ParseItem(m, kind, b, |b|, sl, i, s)
         == Ok(Progress(true, Filled(e, kind, sl, i), s + |Item(e, kind, i)|))
  {
    ItemTakesSpace(e, kind, i);
    ItemIsLaid(e, kind, i, b, s);
    LaidParses(m, e, kind, i, b, sl, s);
  }

  lemma LaidParses(m: Arith, e: EntryVal, kind: Kind, i: nat, b: seq<byte>, sl: Slots, s: nat)
    requires HasItem(kind, i) && Short(e, kind, i) && ShapedSlots(kind, sl)
    requires |b| <= MAX_ENTRY_SIZE && Laid(e, kind, i, b, s)
    requires kind == Meta && e.meta.vals[i] == [] ==> s + 3 + |e.meta.keys[i]| < |b|
    ensures ParseItem(m, kind, b, |b|, sl, i, s)
         == Ok(Progress(true, Filled(e, kind, sl, i), s + 1 + |e.List(kind).keys[i]| + |Tail(e, kind, i)|))
  {
    var key := e.List(kind).keys[i];
    TailParses(m, e, kind, i, b, sl.(keys := sl.keys[i := key]), s + 1 + |key|);
    ItemThenTail(m, kind, i, b, sl, s, key, Filled(e, kind, sl, i), s + 1 + |key| + |Tail(e, kind, i)|);
  }

  lemma ItemThenTail(m: Arith, kind: Kind, i: nat, b: seq<byte>, sl: Slots, s: nat, key: Str, filled: Slots, end: u16)
    requires HasItem(kind, i) && ShapedSlots(kind, sl)
    requires |b| <= MAX_ENTRY_SIZE && At(b, s) == Ok(|key|) && Holds(b, s + 1, key)
    requires s + 1 + |key| + Width(kind) <= |b| && (kind == Meta ==> s + 3 + |key| < |b|)
    requires ParseTail(m, kind, b, |b|, sl.(keys := sl.keys[i := key]), i, s + 1 + |key|, s + 1 + |key| + Width(kind))
          == Ok(Progress(true, filled, end))
    ensures ParseItem(m, kind, b, |b|, sl, i, s) == Ok(Progress(true, filled, end))
  {
    KeyParses(m, kind, i, b, sl, s, key);
  }

  // ---------------------------------------------------------------- a whole list

  /** The section of `kind` in `d` shows the first `n` items of `e`. */
  predicate SameItems(kind: Kind, d: Slots, e: Slots, n: nat)
    requires ShapedSlots(kind, d) && ShapedSlots(kind, e) && n <= Limit(kind)
  {
    && d.keys[..n] == e.keys[..n]
    && (kind == Metrics ==> d.nums[..n] == e.nums[..n])
    && (kind == Meta ==> d.vals[..n] == e.vals[..n])
    && (kind == Trace ==> d.lines[..n] == e.lines[..n])
  }

  predicate GoodItem(e: EntryVal, kind: Kind, i: nat)
    requires HasItem(kind, i)
  {
    Short(e, kind, i) && Honest(e, kind, i)
  }

  /** The decoder's strict test on meta values does not reject the last of `n` items: it has bytes
      of its own, or something follows the list. */
  predicate Followed(e: EntryVal, kind: Kind, n: nat, end: nat, size: nat)
    requires n <= Limit(kind)
  {
    kind == Meta && n > 0 && e.meta.vals[n - 1] == [] ==> end < size
  }

  lemma LoopGoesOn<T>(round: Round<T>, n: nat, x: T, i: nat, s: u16, y: T, next: u16)
    requires i < n && round(x, i, s) == Ok(Progress(true, y, next))
    ensures Loop(round, n, x, i, s) == Loop(round, n, y, i + 1, next)
  {
  }

  /** `sl` with the first `n` items taken over from `e`. */
  function FilledTo(e: EntryVal, kind: Kind, sl: Slots, n: nat): (r: Slots)
    requires HasItems(e, kind) && ShapedSlots(kind, sl) && n <= e.List(kind).count
    ensures ShapedSlots(kind, r) && r.count == sl.count
  {
    if n == 0 then sl else Filled(e, kind, FilledTo(e, kind, sl, n - 1), n - 1)
  }

  lemma ItemTakesSpace(e: EntryVal, kind: Kind, i: nat)
    requires HasItem(kind, i)
    ensures |Item(e, kind, i)| == ItemSize(e, kind, i) == 1 + |e.List(kind).keys[i]| + |Tail(e, kind, i)|
  {
  }

  lemma FillExtends(e: EntryVal, kind: Kind, sl: Slots, i: nat)
    requires HasItem(kind, i) && ShapedSlots(kind, sl)
    requires SameItems(kind, sl, e.List(kind), i)
    ensures ShapedSlots(kind, Filled(e, kind, sl, i))
    ensures SameItems(kind, Filled(e, kind, sl, i), e.List(kind), i + 1)
  {
    var next, src := Filled(e, kind, sl, i), e.List(kind);
    assert src.keys[..i + 1] == src.keys[..i] + [src.keys[i]];
    assert next.keys[..i + 1] == sl.keys[..i] + [src.keys[i]];
    match kind
    case Tags =>
    case Metrics =>
      assert src.nums[..i + 1] == src.nums[..i] + [src.nums[i]];
      assert next.nums[..i + 1] == sl.nums[..i] + [src.nums[i]];
    case Meta =>
      assert src.vals[..i + 1] == src.vals[..i] + [src.vals[i]];
      assert next.vals[..i + 1] == sl.vals[..i] + [src.vals[i]];
    case Trace =>
      assert src.lines[..i + 1] == src.lines[..i] + [src.lines[i]];
      assert next.lines[..i + 1] == sl.lines[..i] + [src.lines[i]];
  }

  /** The first items of `e` stand in `b`, without gaps, at the cursors `at`. */
  predicate Placed(e: EntryVal, kind: Kind, b: seq<byte>, at: seq<nat>) {
    && HasItems(e, kind) && 0 < |at| <= e.List(kind).count + 1
    && (forall i :: 0 <= i < |at| ==> at[i] <= |b|)
    && (forall i {:trigger Item(e, kind, i)} {:trigger ItemSize(e, kind, i)} :: 0 <= i < |at| - 1 ==>
          Holds(b, at[i], Item(e, kind, i)) && at[i + 1] == at[i] + ItemSize(e, kind, i))
  }

  /** Where the rows start, and where the last one ends. */
  function Offsets(rows: seq<seq<byte>>, s: nat): (at: seq<nat>)
    ensures |at| == |rows| + 1 && forall i :: 0 <= i < |at| ==> at[i] == s + Offset(rows, i)
  {
    seq(|rows| + 1, i requires 0 <= i <= |rows| => s + Offset(rows, i))
  }

  lemma RowsPlaced(e: EntryVal, kind: Kind, b: seq<byte>, s: nat, n: nat)
    requires HasItems(e, kind) && n <= e.List(kind).count
    requires Holds(b, s, Flatten(Rows(e, kind, n)))
    ensures Placed(e, kind, b, Offsets(Rows(e, kind, n), s))
    ensures Offset(Rows(e, kind, n), 0) == 0
    ensures Offset(Rows(e, kind, n), n) == |Flatten(Rows(e, kind, n))|
  {
    var rows := Rows(e, kind, n);
    var at := Offsets(rows, s);
    RowsHeld(b, s, rows, at);
    forall i | 0 <= i < n
      ensures Holds(b, at[i], Item(e, kind, i)) && at[i + 1] == at[i] + ItemSize(e, kind, i)
    {
      assert RowAt(b, rows, at, i);
      ItemTakesSpace(e, kind, i);
    }
  }

  /** Row `i` stands in `b` from `at[i]` to `at[i + 1]`. */
  predicate RowAt(b: seq<byte>, rows: seq<seq<byte>>, at: seq<nat>, i: nat)
    requires i < |rows| && i + 1 < |at|
  {
    Holds(b, at[i], rows[i]) && at[i + 1] == at[i] + |rows[i]| <= |b|
  }

  lemma RowsHeld(b: seq<byte>, s: nat, rows: seq<seq<byte>>, at: seq<nat>)
    requires Holds(b, s, Flatten(rows)) && at == Offsets(rows, s)
    ensures forall i :: 0 <= i < |rows| ==> RowAt(b, rows, at, i)
    ensures Offset(rows, 0) == 0 && Offset(rows, |rows|) == |Flatten(rows)|
    ensures forall i :: 0 <= i < |at| ==> at[i] <= |b|
  {
    forall i | 0 <= i < |rows| ensures RowAt(b, rows, at, i) {
      RowHeld(b, s, rows, i);
    }
    assert rows[..|rows|] == rows;
    forall i | 0 <= i < |at| ensures at[i] <= |b| {
      if i < |rows| {
        assert RowAt(b, rows, at, i);
      }
    }
  }

  lemma PlacedItemParses(m: Arith, e: EntryVal, kind: Kind, b: seq<byte>, at: seq<nat>, sl: Slots, i: nat)
    requires Placed(e, kind, b, at) && i < |at| - 1 && ShapedSlots(kind, sl)
    requires |b| <= MAX_ENTRY_SIZE && GoodItem(e, kind, i)
    requires i + 2 == |at| ==> Followed(e, kind, i + 1, at[i + 1], |b|)
    ensures ParseItem(m, kind, b, |b|, sl, i, at[i]) == Ok(Progress(true, Filled(e, kind, sl, i), at[i + 1]))
  {
    ItemTakesSpace(e, kind, i);
    if i + 2 < |at| {
      assert at[i + 2] == at[i + 1] + ItemSize(e, kind, i + 1);
    }
    ItemParses(m, e, kind, i, b, sl, at[i]);
  }

  lemma ItemRoundRuns(m: Arith, e: EntryVal, kind: Kind, b: seq<byte>, at: seq<nat>, sl: Slots, i: nat)
    requires Placed(e, kind, b, at) && i < |at| - 1 && ShapedSlots(kind, sl)
    requires |b| <= MAX_ENTRY_SIZE && GoodItem(e, kind, i)
    requires i + 2 == |at| ==> Followed(e, kind, i + 1, at[i + 1], |b|)
    ensures ItemRound(m, kind, b, |b|)(FilledTo(e, kind, sl, i), i, at[i])
         == Ok(Progress(true, FilledTo(e, kind, sl, i + 1), at[i + 1]))
  {
    PlacedItemParses(m, e, kind, b, at, FilledTo(e, kind, sl, i), i);
  }

  /** The items before index `j` are decoded as they were written, and the loop goes on from `j`. */
  lemma {:induction false} ListAdvances(m: Arith, e: EntryVal, kind: Kind, b: seq<byte>, at: seq<nat>, sl: Slots, j: nat)
    requires Placed(e, kind, b, at) && j < |at| && ShapedSlots(kind, sl)
    requires |b| <= MAX_ENTRY_SIZE
    requires forall k :: 0 <= k < j ==> GoodItem(e, kind, k)
    requires j + 1 == |at| ==> Followed(e, kind, j, at[j], |b|)
    ensures Loop(ItemRound(m, kind, b, |b|), |at| - 1, sl, 0, at[0])
         == Loop(ItemRound(m, kind, b, |b|), |at| - 1, FilledTo(e, kind, sl, j), j, at[j])
  {
    if j > 0 {
      ListAdvances(m, e, kind, b, at, sl, j - 1);
      ItemRoundRuns(m, e, kind, b, at, sl, j - 1);
      LoopGoesOn(ItemRound(m, kind, b, |b|), |at| - 1, FilledTo(e, kind, sl, j - 1), j - 1, at[j - 1], FilledTo(e, kind, sl, j), at[j]);
    }
  }
}
