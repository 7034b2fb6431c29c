/** The wire format as it is documented, written down from the fields of an entry, without a cursor or a cap. */
module EntryFormat {
  import opened Bytes
  import opened EntryWire

  /** What follows the key of an item. */
  function FormatTail(kind: Kind, sl: Slots, i: nat): seq<byte>
    requires ShapedSlots(kind, sl) && i < Limit(kind)
  {
    match kind
    case Tags => []
    case Metrics => Put32(Unsigned(sl.nums[i]))
    case Meta => Put16(|sl.vals[i]| % 0x1_0000) + sl.vals[i]
    case Trace => Put16(sl.lines[i])
  }

  /** The length of the key, the key, and what follows it. */
  function FormatItem(kind: Kind, sl: Slots, i: nat): seq<byte>
    requires ShapedSlots(kind, sl) && i < Limit(kind)
  {
    [|sl.keys[i]| % 256] + sl.keys[i] + FormatTail(kind, sl, i)
  }

  /** The first `n` items. */
  function FormatItems(kind: Kind, sl: Slots, n: nat): seq<byte>
    requires ShapedSlots(kind, sl) && n <= Limit(kind)
  {
    if n == 0 then [] else FormatItems(kind, sl, n - 1) + FormatItem(kind, sl, n - 1)
  }

  predicate InLimit(e: RawEntry, l: nat) {
    5 <= l <= 8 ==> e.List(KindOf(l)).count <= Limit(KindOf(l))
  }

  /** The section of level `l`. */
  function FormatSection(e: RawEntry, l: nat): seq<byte>
    requires Shaped(e) && l <= 10 && InLimit(e, l)
  {
    if l == 0 then Put32(e.bucketId)
    else if l == 1 then e.id
    else if l == 2 then [e.severity]
    else if l == 3 then [|e.message| % 256] + e.message
    else if l == 4 then [e.categoryId]
    else if l <= 8 then
      var sl := e.List(KindOf(l));
      [sl.count] + FormatItems(KindOf(l), sl, sl.count)
    else if l == 9 then Put16(e.ttlEntry)
    else Put16(e.ttlMeta)
  }

  predicate InLimits(e: RawEntry, l: nat) {
    forall k :: 0 <= k < l ==> InLimit(e, k)
  }

  /** The sections below level `l`, one after the other. */
  function FormatTo(e: RawEntry, l: nat): seq<byte>
    requires Shaped(e) && l <= 11 && InLimits(e, l)
  {
    if l == 0 then [] else FormatTo(e, l - 1) + FormatSection(e, l - 1)
  }

  // ---------------------------------------------------------------- what the format depends on

  /** `e` and `f` agree on the section of level `l`. */
  predicate SameAt(e: RawEntry, f: RawEntry, l: nat)
    requires l <= 10
  {
    if l == 0 then e.bucketId == f.bucketId
    else if l == 1 then e.id == f.id
    else if l == 2 then e.severity == f.severity
    else if l == 3 then e.message == f.message
    else if l == 4 then e.categoryId == f.categoryId
    else if l <= 8 then e.List(KindOf(l)) == f.List(KindOf(l))
    else if l == 9 then e.ttlEntry == f.ttlEntry
    else e.ttlMeta == f.ttlMeta
  }

  lemma {:induction false} SameFormat(e: RawEntry, f: RawEntry, l: nat)
    requires Shaped(e) && Shaped(f) && l <= 11 && InLimits(e, l)
    requires forall k :: 0 <= k < l ==> SameAt(e, f, k)
    ensures InLimits(f, l) && FormatTo(e, l) == FormatTo(f, l)
  {
    forall k | 0 <= k < l ensures InLimit(f, k) {
      assert SameAt(e, f, k) && InLimit(e, k);
    }
    if l > 0 {
      SameFormat(e, f, l - 1);
      assert SameAt(e, f, l - 1);
    }
  }

  /** `sl` and `tl` agree on item `i`. */
  predicate SameItem(kind: Kind, sl: Slots, tl: Slots, i: nat)
    requires ShapedSlots(kind, sl) && ShapedSlots(kind, tl) && i < Limit(kind)
  {
    sl.keys[i] == tl.keys[i] && sl.nums[i] == tl.nums[i] && sl.vals[i] == tl.vals[i] && sl.lines[i] == tl.lines[i]
  }

  lemma {:induction false} SameItems(kind: Kind, sl: Slots, tl: Slots, n: nat)
    requires ShapedSlots(kind, sl) && ShapedSlots(kind, tl) && n <= Limit(kind)
    requires forall i :: 0 <= i < n ==> SameItem(kind, sl, tl, i)
    ensures FormatItems(kind, sl, n) == FormatItems(kind, tl, n)
  {
    if n > 0 {
      SameItems(kind, sl, tl, n - 1);
      assert SameItem(kind, sl, tl, n - 1);
    }
  }
}
