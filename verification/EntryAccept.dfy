/** What it means that `Decode` accepts, for any bytes, whoever wrote them. */
module EntryAccept {
  import opened Bytes
  import opened EntryWire
  import opened EntryFormat

  // ---------------------------------------------------------------- one list item

  /** `tl` is `sl` with another item `i`. */
  predicate OnlyItem(kind: Kind, sl: Slots, tl: Slots, i: nat)
    requires ShapedSlots(kind, sl)
  {
    ShapedSlots(kind, tl) && tl.count == sl.count && forall j :: 0 <= j < Limit(kind) && j != i ==> SameItem(kind, sl, tl, j)
  }

  /** One round of an item loop at cursor `s`: it read an item in the documented form; or it left the loop, and where it left it
      at the very end of the bytes, nothing was read and at most a length byte is left. */
  predicate ReadsItem(kind: Kind, b: seq<byte>, sl: Slots, i: nat, s: nat, p: Progress<Slots>)
    requires ShapedSlots(kind, sl) && i < Limit(kind)
  {
    if p.going then
      OnlyItem(kind, sl, p.at, i) && Holds(b, s, FormatItem(kind, p.at, i)) && p.s == s + |FormatItem(kind, p.at, i)|
    else
      ShapedSlots(kind, p.at) && (p.s == |b| ==> p.at == sl && Dangling(kind, b, s))
  }

  /** No bytes are left, or only the length of a key that is not there. */
  predicate Dangling(kind: Kind, b: seq<byte>, s: nat) {
    s == |b| || (s + 1 == |b| && (b[s] > 0 || kind != Tags))
  }

  /** What follows the key, which is in `sl`, was read in the documented form, or the loop was left before the end. */
  predicate ReadsTail(kind: Kind, b: seq<byte>, sl: Slots, i: nat, s: nat, r: Res<Progress<Slots>>)
    requires ShapedSlots(kind, sl) && i < Limit(kind)
  {
    match r
    case Crash => true
    case Ok(p) =>
      && OnlyItem(kind, sl, p.at, i) && p.at.keys == sl.keys
      && (p.going ==> Holds(b, s, FormatTail(kind, p.at, i)) && p.s == s + |FormatTail(kind, p.at, i)|)
      && (!p.going ==> p.s != |b|)
  }

  lemma NumberRead(m: Arith, b: seq<byte>, sl: Slots, i: nat, s: nat)
    requires ShapedSlots(Metrics, sl) && i < 32 && s + 4 <= |b| <= MAX_ENTRY_SIZE
    ensures ReadsTail(Metrics, b, sl, i, s, ParseTail(m, Metrics, b, |b|, sl, i, s, s + 4))
  {
    var raw := b[s..s + 4];
    HoldsSlice(b, s, raw);
    Put32Inverse(0, raw);
    SignedInverse(Get32(raw));
  }

  lemma LineRead(m: Arith, b: seq<byte>, sl: Slots, i: nat, s: nat)
    requires ShapedSlots(Trace, sl) && i < 16 && s + 2 <= |b| <= MAX_ENTRY_SIZE
    ensures ReadsTail(Trace, b, sl, i, s, ParseTail(m, Trace, b, |b|, sl, i, s, s + 2))
  {
    var raw := b[s..s + 2];
    HoldsSlice(b, s, raw);
    Put16Inverse(0, raw);
  }

  lemma ValueRead(m: Arith, b: seq<byte>, sl: Slots, i: nat, s: nat)
    requires ShapedSlots(Meta, sl) && i < 32 && s + 2 < |b| <= MAX_ENTRY_SIZE
    ensures ReadsTail(Meta, b, sl, i, s, ParseTail(m, Meta, b, |b|, sl, i, s, s + 2))
  {
    var size := Get16(b[s..s + 2]);
    ValueParts(m, b, sl, i, s, size);
    if s + 2 + size <= |b| {
      ValueHeld(b, s, size, b[s + 2..s + 2 + size]);
    }
  }

  lemma ValueParts(m: Arith, b: seq<byte>, sl: Slots, i: nat, s: nat, size: u16)
    requires ShapedSlots(Meta, sl) && i < 32 && s + 2 < |b| <= MAX_ENTRY_SIZE && size == Get16(b[s..s + 2])
    ensures var r := ParseTail(m, Meta, b, |b|, sl, i, s, s + 2);
      if s + 2 + size <= |b| then
        r == Ok(Progress(true, sl.(vals := sl.vals[i := b[s + 2..s + 2 + size]]), s + 2 + size))
      else
        r == Crash || r == Ok(Progress(false, sl, s + 2))
  {
  }

  lemma ValueHeld(b: seq<byte>, s: nat, size: u16, val: Str)
    requires s + 2 + size <= |b| && size == Get16(b[s..s + 2]) && val == b[s + 2..s + 2 + size]
    ensures Holds(b, s, Put16(|val| % 0x1_0000) + val)
  {
    var raw := b[s..s + 2];
    SmallLength(|val|);
    HoldsSlice(b, s, raw);
    Put16Inverse(0, raw);
    HoldsSlice(b, s + 2, val);
    HoldsSplit(b, s, raw, val);
  }

  lemma TailRead(m: Arith, kind: Kind, b: seq<byte>, sl: Slots, i: nat, s: nat)
    requires ShapedSlots(kind, sl) && i < Limit(kind) && s + Width(kind) <= |b| <= MAX_ENTRY_SIZE
    requires kind == Meta ==> s + Width(kind) < |b|
    ensures ReadsTail(kind, b, sl, i, s, ParseTail(m, kind, b, |b|, sl, i, s, s + Width(kind)))
  {
    match kind
    case Tags =>
    case Metrics => NumberRead(m, b, sl, i, s);
    case Trace => LineRead(m, b, sl, i, s);
    case Meta => ValueRead(m, b, sl, i, s);
  }

  /** An item that starts at `s` is there to its end; a pair is not, for `Decode`, if it has no byte behind its lengths. */
  predicate IsThere(kind: Kind, b: seq<byte>, s: nat)
    requires s < |b|
  {
    var end := s + 1 + b[s] + Width(kind);
    end < |b| || (end == |b| && kind != Meta)
  }

  /** Then its key is the bytes after its length. */
  lemma KeyRead(m: Arith, kind: Kind, b: seq<byte>, sl: Slots, i: nat, s: nat, keyEnd: nat)
    requires ShapedSlots(kind, sl) && i < Limit(kind) && s < |b| <= MAX_ENTRY_SIZE && IsThere(kind, b, s) && keyEnd == s + 1 + b[s]
    ensures ParseItem(m, kind, b, |b|, sl, i, s)
         == ParseTail(m, kind, b, |b|, sl.(keys := sl.keys[i := b[s + 1..keyEnd]]), i, keyEnd, keyEnd + Width(kind))
  {
  }

  lemma NotThere(m: Arith, kind: Kind, b: seq<byte>, sl: Slots, i: nat, s: nat)
    requires ShapedSlots(kind, sl) && i < Limit(kind) && s < |b| <= MAX_ENTRY_SIZE && !IsThere(kind, b, s)
    ensures var r := ParseItem(m, kind, b, |b|, sl, i, s); r == Crash || r == Ok(Progress(false, sl, s + 1))
  {
  }

  lemma NotRead(kind: Kind, b: seq<byte>, sl: Slots, i: nat, s: nat, p: Progress<Slots>)
    requires ShapedSlots(kind, sl) && i < Limit(kind) && s < |b| <= MAX_ENTRY_SIZE && !IsThere(kind, b, s)
    requires p == Progress(false, sl, s + 1)
    ensures ReadsItem(kind, b, sl, i, s, p)
  {
  }

  lemma AtEnd(m: Arith, kind: Kind, b: seq<byte>, sl: Slots, i: nat)
    requires ShapedSlots(kind, sl) && i < Limit(kind) && |b| <= MAX_ENTRY_SIZE
    ensures ParseItem(m, kind, b, |b|, sl, i, |b|) == Ok(Progress(false, sl, |b|))
  {
  }

  lemma ItemRead(m: Arith, kind: Kind, b: seq<byte>, sl: Slots, i: nat, s: nat)
    requires ShapedSlots(kind, sl) && i < Limit(kind) && s <= |b| <= MAX_ENTRY_SIZE
    ensures var r := ParseItem(m, kind, b, |b|, sl, i, s); r.Ok? ==> ReadsItem(kind, b, sl, i, s, r.value)
  {
    if s == |b| {
      AtEnd(m, kind, b, sl, i);
    } else if IsThere(kind, b, s) {
      ThereRead(m, kind, b, sl, i, s, ParseItem(m, kind, b, |b|, sl, i, s));
    } else {
      PartRead(m, kind, b, sl, i, s, ParseItem(m, kind, b, |b|, sl, i, s));
    }
  }

  lemma ThereRead(m: Arith, kind: Kind, b: seq<byte>, sl: Slots, i: nat, s: nat, r: Res<Progress<Slots>>)
    requires ShapedSlots(kind, sl) && i < Limit(kind) && s < |b| <= MAX_ENTRY_SIZE && IsThere(kind, b, s)
    requires r == ParseItem(m, kind, b, |b|, sl, i, s)
    ensures r.Ok? ==> ReadsItem(kind, b, sl, i, s, r.value)
  {
    KeyRead(m, kind, b, sl, i, s, s + 1 + b[s]);
    WholeItemRead(m, kind, b, sl, i, s, s + 1 + b[s]);
  }

  lemma PartRead(m: Arith, kind: Kind, b: seq<byte>, sl: Slots, i: nat, s: nat, r: Res<Progress<Slots>>)
    requires ShapedSlots(kind, sl) && i < Limit(kind) && s < |b| <= MAX_ENTRY_SIZE && !IsThere(kind, b, s)
    requires r == ParseItem(m, kind, b, |b|, sl, i, s)
    ensures r.Ok? ==> ReadsItem(kind, b, sl, i, s, r.value)
  {
    NotThere(m, kind, b, sl, i, s);
    if r.Ok? {
      NotRead(kind, b, sl, i, s, r.value);
    }
  }

  lemma WholeItemRead(m: Arith, kind: Kind, b: seq<byte>, sl: Slots, i: nat, s: nat, keyEnd: nat)
    requires ShapedSlots(kind, sl) && i < Limit(kind) && s < |b| <= MAX_ENTRY_SIZE && keyEnd == s + 1 + b[s]
    requires keyEnd + Width(kind) < |b| || (keyEnd + Width(kind) == |b| && kind != Meta)
    ensures var r := ParseTail(m, kind, b, |b|, sl.(keys := sl.keys[i := b[s + 1..keyEnd]]), i, keyEnd, keyEnd + Width(kind));
      r.Ok? ==> ReadsItem(kind, b, sl, i, s, r.value)
  {
    var tl := sl.(keys := sl.keys[i := b[s + 1..keyEnd]]);
    TailRead(m, kind, b, tl, i, keyEnd);
    KeyAndTail(kind, b, sl, tl, i, s, ParseTail(m, kind, b, |b|, tl, i, keyEnd, keyEnd + Width(kind)));
  }

  lemma KeyAndTail(kind: Kind, b: seq<byte>, sl: Slots, tl: Slots, i: nat, s: nat, r: Res<Progress<Slots>>)
    requires ShapedSlots(kind, sl) && i < Limit(kind) && s < |b| && s + 1 + b[s] <= |b|
    requires tl == sl.(keys := sl.keys[i := b[s + 1..s + 1 + b[s]]]) && ReadsTail(kind, b, tl, i, s + 1 + b[s], r)
    ensures r.Ok? ==> ReadsItem(kind, b, sl, i, s, r.value)
  {
    if r.Ok? {
      var p := r.value;
      forall j | 0 <= j < Limit(kind) && j != i ensures SameItem(kind, sl, p.at, j) {
        assert SameItem(kind, tl, p.at, j);
      }
      if p.going {
        ItemHeld(kind, b, p.at, i, s);
      }
    }
  }

  /** The parts of an item make up the item. */
  lemma ItemHeld(kind: Kind, b: seq<byte>, sl: Slots, i: nat, s: nat)
    requires ShapedSlots(kind, sl) && i < Limit(kind) && s < |b| && |sl.keys[i]| == b[s] && s + 1 + |sl.keys[i]| <= |b|
    requires sl.keys[i] == b[s + 1..s + 1 + |sl.keys[i]|] && Holds(b, s + 1 + |sl.keys[i]|, FormatTail(kind, sl, i))
    ensures Holds(b, s, FormatItem(kind, sl, i))
  {
    var key := sl.keys[i];
    HoldsSlice(b, s + 1, key);
    HoldsSplit(b, s, [|key| % 256], key);
    HoldsSplit(b, s, [|key| % 256] + key, FormatTail(kind, sl, i));
  }

  // ---------------------------------------------------------------- a list section

  /** The first `k` items stand in `b` from `s` on in the documented form. */
  predicate ItemsHeld(kind: Kind, b: seq<byte>, sl: Slots, s: nat, k: nat)
    requires ShapedSlots(kind, sl) && k <= Limit(kind)
  {
    Holds(b, s, FormatItems(kind, sl, k))
  }

  /** The items from `k` on are those of `sl`. */
  predicate SameFrom(kind: Kind, sl: Slots, tl: Slots, k: nat)
    requires ShapedSlots(kind, sl) && ShapedSlots(kind, tl)
  {
    forall j :: k <= j < Limit(kind) ==> SameItem(kind, sl, tl, j)
  }

  /** The bytes end after `k` items, or in the length of one more, although the list should go on to `n`; the items from `k` on
      are still those of `sl`. */
  predicate BreaksOff(kind: Kind, b: seq<byte>, sl: Slots, tl: Slots, s: nat, n: nat, k: nat)
    requires ShapedSlots(kind, sl) && ShapedSlots(kind, tl) && n <= Limit(kind)
  {
    k < n && ItemsHeld(kind, b, tl, s, k) && Dangling(kind, b, s + |FormatItems(kind, tl, k)|) && SameFrom(kind, sl, tl, k)
  }

  /** What the loop over `n` items from `s` on leaves, started with `sl`: all of them; or, where it ends with the bytes, the
      first `k`, not before item `i`. */
  predicate ReadsItems(kind: Kind, b: seq<byte>, sl: Slots, n: nat, s: nat, i: nat, k: nat, r: Res<Progress<Slots>>)
    requires ShapedSlots(kind, sl) && n <= Limit(kind)
  {
    match r
    case Crash => true
    case Ok(p) =>
      && ShapedSlots(kind, p.at) && p.at.count == sl.count
      && (p.going ==> ItemsHeld(kind, b, p.at, s, n) && p.s == s + |FormatItems(kind, p.at, n)|)
      && (!p.going && p.s == |b| ==> i <= k && BreaksOff(kind, b, sl, p.at, s, n, k))
  }

  lemma ItemsNext(kind: Kind, b: seq<byte>, sl: Slots, tl: Slots, i: nat, s: nat, at: nat)
    requires ShapedSlots(kind, sl) && i < Limit(kind) && ItemsHeld(kind, b, sl, s, i) && at == s + |FormatItems(kind, sl, i)|
    requires OnlyItem(kind, sl, tl, i) && Holds(b, at, FormatItem(kind, tl, i))
    ensures ItemsHeld(kind, b, tl, s, i + 1) && s + |FormatItems(kind, tl, i + 1)| == at + |FormatItem(kind, tl, i)| <= |b|
  {
    SameItems(kind, sl, tl, i);
    HeldOneMore(kind, b, tl, i, s, FormatItems(kind, tl, i), FormatItem(kind, tl, i));
  }

  lemma HeldOneMore(kind: Kind, b: seq<byte>, tl: Slots, i: nat, s: nat, items: seq<byte>, item: seq<byte>)
    requires ShapedSlots(kind, tl) && i < Limit(kind) && items == FormatItems(kind, tl, i) && item == FormatItem(kind, tl, i)
    requires Holds(b, s, items) && Holds(b, s + |items|, item)
    ensures ItemsHeld(kind, b, tl, s, i + 1) && |FormatItems(kind, tl, i + 1)| == |items| + |item| && s + |items| + |item| <= |b|
  {
    HoldsSplit(b, s, items, item);
    assert FormatItems(kind, tl, i + 1) == items + item;
  }

  lemma BreaksOffLater(kind: Kind, b: seq<byte>, sl: Slots, tl: Slots, ul: Slots, s: nat, n: nat, i: nat, k: nat)
    requires ShapedSlots(kind, sl) && i < k && n <= Limit(kind) && OnlyItem(kind, sl, tl, i)
    requires ShapedSlots(kind, ul) && BreaksOff(kind, b, tl, ul, s, n, k)
    ensures BreaksOff(kind, b, sl, ul, s, n, k)
  {
    forall j | k <= j < Limit(kind) ensures SameItem(kind, sl, ul, j) {
      assert SameItem(kind, tl, ul, j) && SameItem(kind, sl, tl, j);
    }
  }

  lemma ReadsItemsFrom(kind: Kind, b: seq<byte>, sl: Slots, tl: Slots, n: nat, s: nat, i: nat, k: nat, r: Res<Progress<Slots>>)
    requires ShapedSlots(kind, sl) && n <= Limit(kind) && OnlyItem(kind, sl, tl, i) && ReadsItems(kind, b, tl, n, s, i + 1, k, r)
    ensures ReadsItems(kind, b, sl, n, s, i, k, r)
  {
    if r.Ok? && !r.value.going && r.value.s == |b| {
      BreaksOffLater(kind, b, sl, tl, r.value.at, s, n, i, k);
    }
  }

  lemma LoopEnds<T>(round: Round<T>, n: nat, x: T, i: nat, s: u16)
    ensures i >= n ==> Loop(round, n, x, i, s) == Ok(Progress(true, x, s))
    ensures i < n ==> match round(x, i, s)
      case Crash => Loop(round, n, x, i, s) == Crash
      case Ok(p) => Loop(round, n, x, i, s) == if p.going then Loop(round, n, p.at, i + 1, p.s) else Ok(p)
  {
  }

  lemma StopsAt(kind: Kind, b: seq<byte>, sl: Slots, n: nat, s: nat, i: nat, at: nat, p: Progress<Slots>)
    requires ShapedSlots(kind, sl) && i < n <= Limit(kind) && ItemsHeld(kind, b, sl, s, i) && at == s + |FormatItems(kind, sl, i)|
    requires !p.going && ReadsItem(kind, b, sl, i, at, p) && p.at.count == sl.count
    ensures ReadsItems(kind, b, sl, n, s, i, i, Ok(p))
  {
  }

  lemma ItemKeepsCount(m: Arith, kind: Kind, b: seq<byte>, sl: Slots, i: nat, s: nat)
    requires ShapedSlots(kind, sl) && s <= |b| <= MAX_ENTRY_SIZE
    ensures var r := ParseItem(m, kind, b, |b|, sl, i, s); r.Ok? ==> r.value.at.count == sl.count && r.value.s <= |b|
  {
  }

  /** One round after the first `i` items: one item more, or the end of the loop. */
  lemma OneItemRead(m: Arith, kind: Kind, b: seq<byte>, n: nat, sl: Slots, i: nat, s: nat, at: nat)
    requires ShapedSlots(kind, sl) && i < n <= Limit(kind) && |b| <= MAX_ENTRY_SIZE
    requires ItemsHeld(kind, b, sl, s, i) && at == s + |FormatItems(kind, sl, i)| <= |b|
    ensures match ItemRound(m, kind, b, |b|)(sl, i, at)
      case Crash => true
      case Ok(p) =>
        if p.going then
          && OnlyItem(kind, sl, p.at, i) && ItemsHeld(kind, b, p.at, s, i + 1)
          && p.s == s + |FormatItems(kind, p.at, i + 1)| <= |b|
        else ReadsItems(kind, b, sl, n, s, i, i, Ok(p))
  {
    ItemKeepsCount(m, kind, b, sl, i, at);
    ItemRead(m, kind, b, sl, i, at);
    match ParseItem(m, kind, b, |b|, sl, i, at)
    case Crash =>
    case Ok(p) =>
      if p.going {
        ItemsNext(kind, b, sl, p.at, i, s, at);
      } else {
        StopsAt(kind, b, sl, n, s, i, at, p);
      }
  }

  lemma {:induction false} ItemsRead(m: Arith, kind: Kind, b: seq<byte>, n: nat, sl: Slots, i: nat, s: nat, at: nat)
    returns (k: nat)
    requires ShapedSlots(kind, sl) && i <= n <= Limit(kind) && |b| <= MAX_ENTRY_SIZE
    requires ItemsHeld(kind, b, sl, s, i) && at == s + |FormatItems(kind, sl, i)| <= |b|
    ensures ReadsItems(kind, b, sl, n, s, i, k, Loop(ItemRound(m, kind, b, |b|), n, sl, i, at))
    decreases n - i
  {
    k := i;
    var round := ItemRound(m, kind, b, |b|);
    LoopEnds(round, n, sl, i, at);
    if i < n {
      OneItemRead(m, kind, b, n, sl, i, s, at);
      var r := round(sl, i, at);
      if r.Ok? && r.value.going {
        var p := r.value;
        k := ItemsRead(m, kind, b, n, p.at, i + 1, s, p.s);
        ReadsItemsFrom(kind, b, sl, p.at, n, s, i, k, Loop(round, n, p.at, i + 1, p.s));
      }
    }
  }

  /** The list section that starts at `s`: all of it in the documented form; or a count with fewer items behind it than it
      says, or with none because it is over the limit. */
  predicate ReadsList(kind: Kind, b: seq<byte>, sl: Slots, s: nat, k: nat, r: Res<Progress<Slots>>)
    requires ShapedSlots(kind, sl)
  {
    match r
    case Crash => true
    case Ok(p) =>
      && ShapedSlots(kind, p.at) && s < |b| && p.at.count == b[s]
      && (p.going ==> p.at.count <= Limit(kind) && ItemsHeld(kind, b, p.at, s + 1, p.at.count))
      && (p.going ==> p.s == s + 1 + |FormatItems(kind, p.at, p.at.count)|)
      && (!p.going && p.s == |b| ==> ListBreaksOff(kind, b, sl, p.at, s, k))
  }

  predicate ListBreaksOff(kind: Kind, b: seq<byte>, sl: Slots, tl: Slots, s: nat, k: nat)
    requires ShapedSlots(kind, sl) && ShapedSlots(kind, tl)
  {
    if tl.count <= Limit(kind) then BreaksOff(kind, b, sl, tl, s + 1, tl.count, k)
    else s + 1 == |b| && k == 0 && SameFrom(kind, sl, tl, 0)
  }

  lemma ListRead(m: Arith, kind: Kind, b: seq<byte>, sl: Slots, s: nat) returns (k: nat)
    requires ShapedSlots(kind, sl) && s < |b| <= MAX_ENTRY_SIZE
    ensures ReadsList(kind, b, sl, s, k, ParseListSection(m, kind, b, |b|, sl, s))
  {
    k := 0;
    var n := b[s];
    var tl := sl.(count := n);
    assert s + 1 < 0x1_0000;
    if n <= Limit(kind) {
      k := ItemsRead(m, kind, b, n, tl, 0, s + 1, s + 1);
      var r := Loop(ItemRound(m, kind, b, |b|), n, tl, 0, s + 1);
      assert ParseListSection(m, kind, b, |b|, sl, s) == r;
      if r.Ok? && !r.value.going && r.value.s == |b| {
        SameFromCount(kind, sl, tl, r.value.at, k);
      }
    }
  }

  lemma SameFromCount(kind: Kind, sl: Slots, tl: Slots, ul: Slots, k: nat)
    requires ShapedSlots(kind, sl) && tl == sl.(count := tl.count) && ShapedSlots(kind, ul) && SameFrom(kind, tl, ul, k)
    ensures SameFrom(kind, sl, ul, k)
  {
    forall j | k <= j < Limit(kind) ensures SameItem(kind, sl, ul, j) {
      assert SameItem(kind, tl, ul, j);
    }
  }

  // ---------------------------------------------------------------- a section

  /** Everything but the section of level `l` is the same. */
  predicate OnlyAt(e: RawEntry, f: RawEntry, l: nat) {
    && f.level == e.level
    && (l != 0 ==> f.bucketId == e.bucketId) && (l != 1 ==> f.id == e.id) && (l != 2 ==> f.severity == e.severity)
    && (l != 3 ==> f.message == e.message) && (l != 4 ==> f.categoryId == e.categoryId)
    && (l != 5 ==> f.tags == e.tags) && (l != 6 ==> f.metrics == e.metrics)
    && (l != 7 ==> f.meta == e.meta) && (l != 8 ==> f.trace == e.trace)
    && (l != 9 ==> f.ttlEntry == e.ttlEntry) && (l != 10 ==> f.ttlMeta == e.ttlMeta)
  }

  lemma OnlyAtSame(e: RawEntry, f: RawEntry, l: nat)
    requires OnlyAt(e, f, l)
    ensures forall j :: 0 <= j <= 10 && j != l ==> SameAt(e, f, j)
  {
  }

  /** The section of level `l` stands in `b` at `s` in the documented form. */
  predicate SectionHeld(b: seq<byte>, e: RawEntry, l: nat, s: nat)
    requires Shaped(e) && l <= 10
  {
    InLimit(e, l) && Holds(b, s, FormatSection(e, l))
  }

  /** The bytes end inside the section of level `l`, which starts at `s`, in a place where `Decode` does not notice: right
      after the length of the message, or in a list that is too short for its count. What is missing is still that of `e`. */
  predicate Ragged(b: seq<byte>, e: RawEntry, f: RawEntry, l: nat, s: nat, k: nat)
    requires Shaped(e) && Shaped(f)
  {
    || (l == 3 && s + 1 == |b| && b[s] > 0 && f.message == e.message)
    || (5 <= l <= 8 && s < |b| && f.List(KindOf(l)).count == b[s]
        && ListBreaksOff(KindOf(l), b, e.List(KindOf(l)), f.List(KindOf(l)), s, k))
  }

  predicate ReadsSection(b: seq<byte>, e: RawEntry, l: nat, s: nat, k: nat, r: Res<Progress<RawEntry>>)
    requires Shaped(e) && l <= 10
  {
    match r
    case Crash => true
    case Ok(p) =>
      && Shaped(p.at) && OnlyAt(e, p.at, l)
      && (p.going ==> SectionHeld(b, p.at, l, s) && p.s == s + |FormatSection(p.at, l)|)
      && (!p.going && p.s == |b| ==> Ragged(b, e, p.at, l, s, k))
  }

  lemma MessageParts(m: Arith, b: seq<byte>, e: RawEntry, s: nat)
    requires s < |b| <= MAX_ENTRY_SIZE
    ensures var r := ParseMessage(m, b, |b|, e, s); var end := s + 1 + b[s];
      if end <= |b| then r == Ok(Progress(true, e.(message := b[s + 1..end]), end))
      else r == Crash || r == Ok(Progress(false, e, s + 1))
  {
  }

  lemma MessageHeld(b: seq<byte>, e: RawEntry, s: nat)
    requires Shaped(e) && s < |b| && s + 1 + b[s] <= |b| && e.message == b[s + 1..s + 1 + b[s]]
    ensures SectionHeld(b, e, 3, s) && |FormatSection(e, 3)| == 1 + |e.message|
  {
    HoldsSlice(b, s + 1, e.message);
    HoldsSplit(b, s, [b[s]], e.message);
  }

  lemma MessageRead(m: Arith, b: seq<byte>, e: RawEntry, s: nat)
    requires Shaped(e) && s < |b| <= MAX_ENTRY_SIZE
    ensures ReadsSection(b, e, 3, s, 0, ParseMessage(m, b, |b|, e, s))
  {
    MessageParts(m, b, e, s);
    var end := s + 1 + b[s];
    if end <= |b| {
      MessageHeld(b, e.(message := b[s + 1..end]), s);
    }
  }

  lemma FixedRead(m: Arith, b: seq<byte>, e: RawEntry, l: nat, s: nat)
    requires Shaped(e) && s < |b| <= MAX_ENTRY_SIZE && (l <= 2 || l == 4 || 9 <= l <= 10)
    ensures ReadsSection(b, e, l, s, 0, ParseSection(m, b, |b|, e, l, s))
  {
    if l == 0 && s + 4 <= |b| {
      HoldsSlice(b, s, b[s..s + 4]);
      Put32Inverse(0, b[s..s + 4]);
    } else if l == 1 && s + 12 <= |b| {
      HoldsSlice(b, s, b[s..s + 12]);
    } else if l >= 9 && s + 2 <= |b| {
      HoldsSlice(b, s, b[s..s + 2]);
      Put16Inverse(0, b[s..s + 2]);
    }
  }

  lemma WithListOnly(e: RawEntry, l: nat, tl: Slots)
    requires Shaped(e) && 5 <= l <= 8 && ShapedSlots(KindOf(l), tl)
    ensures var f := e.WithList(KindOf(l), tl); Shaped(f) && OnlyAt(e, f, l) && f.List(KindOf(l)) == tl
  {
  }

  lemma ListHeld(b: seq<byte>, f: RawEntry, l: nat, s: nat)
    requires Shaped(f) && 5 <= l <= 8 && s < |b| && f.List(KindOf(l)).count == b[s] <= Limit(KindOf(l))
    requires ItemsHeld(KindOf(l), b, f.List(KindOf(l)), s + 1, b[s])
    ensures SectionHeld(b, f, l, s) && |FormatSection(f, l)| == 1 + |FormatItems(KindOf(l), f.List(KindOf(l)), b[s])|
  {
    HoldsSplit(b, s, [b[s]], FormatItems(KindOf(l), f.List(KindOf(l)), b[s]));
  }

  lemma ListSectionRead(m: Arith, b: seq<byte>, e: RawEntry, l: nat, s: nat) returns (k: nat)
    requires Shaped(e) && s < |b| <= MAX_ENTRY_SIZE && 5 <= l <= 8
    ensures ReadsSection(b, e, l, s, k, ParseSection(m, b, |b|, e, l, s))
  {
    k := ListRead(m, KindOf(l), b, e.List(KindOf(l)), s);
    var r := ParseListSection(m, KindOf(l), b, |b|, e.List(KindOf(l)), s);
    if r.Ok? {
      WithListOnly(e, l, r.value.at);
      if r.value.going {
        ListHeld(b, e.WithList(KindOf(l), r.value.at), l, s);
      }
    }
  }

  lemma SectionRead(m: Arith, b: seq<byte>, e: RawEntry, l: nat, s: nat) returns (k: nat)
    requires Shaped(e) && s < |b| <= MAX_ENTRY_SIZE && l <= 10
    ensures ReadsSection(b, e, l, s, k, ParseSection(m, b, |b|, e, l, s))
  {
    if 5 <= l <= 8 {
      k := ListSectionRead(m, b, e, l, s);
    } else {
      k := 0;
      if l == 3 {
        MessageRead(m, b, e, s);
      } else {
        FixedRead(m, b, e, l, s);
      }
    }
  }

  // ---------------------------------------------------------------- all sections

  /** The sections below level `l` stand in `b` in the documented form, up to `s`. */
  predicate HeldTo(b: seq<byte>, e: RawEntry, l: nat, s: nat) {
    && Shaped(e) && l <= 11 && InLimits(e, l)
    && Holds(b, 2, FormatTo(e, l)) && s == 2 + |FormatTo(e, l)|
  }

  predicate SameAbove(e: RawEntry, f: RawEntry, l: nat) {
    forall j :: l <= j <= 10 ==> SameAt(e, f, j)
  }

  /** What an accepted entry `d` is: `b` holds its sections in the documented form, up to its level and to the end; or it does
      so below its level and ends inside the section of its level. Above its level it is the entry `start` that decoding
      started with. */
  ghost predicate IsReading(b: seq<byte>, start: RawEntry, d: RawEntry) {
    && Shaped(start) && d.level <= 10 && SameAbove(start, d, d.level + 1)
    && (HeldTo(b, d, d.level + 1, |b|) || exists s, k :: HeldTo(b, d, d.level, s) && Ragged(b, start, d, d.level, s, k))
  }

  /** The sections below are not touched by reading the one of level `l`. */
  lemma HeldBelow(b: seq<byte>, e: RawEntry, f: RawEntry, l: nat, s: nat)
    requires HeldTo(b, e, l, s) && Shaped(f) && OnlyAt(e, f, l)
    ensures HeldTo(b, f, l, s)
  {
    OnlyAtSame(e, f, l);
    SameFormat(e, f, l);
  }

  lemma HeldNext(b: seq<byte>, f: RawEntry, l: nat, s: nat)
    requires l <= 10 && HeldTo(b, f, l, s) && SectionHeld(b, f, l, s)
    ensures HeldTo(b, f, l + 1, s + |FormatSection(f, l)|) && s + |FormatSection(f, l)| <= |b|
  {
    HoldsSplit(b, 2, FormatTo(f, l), FormatSection(f, l));
  }

  lemma AboveNext(start: RawEntry, e: RawEntry, f: RawEntry, l: nat)
    requires SameAbove(start, e, l) && OnlyAt(e, f, l)
    ensures SameAbove(start, f, l + 1)
  {
    OnlyAtSame(e, f, l);
    forall j | l + 1 <= j <= 10 ensures SameAt(start, f, j) {
      assert SameAt(start, e, j) && SameAt(e, f, j);
    }
  }

  lemma RaggedFrom(b: seq<byte>, start: RawEntry, e: RawEntry, f: RawEntry, l: nat, s: nat, k: nat)
    requires Shaped(start) && Shaped(e) && Shaped(f) && l <= 10 && SameAt(start, e, l) && Ragged(b, e, f, l, s, k)
    ensures Ragged(b, start, f, l, s, k)
  {
  }

  lemma {:induction false} LevelsRead(m: Arith, b: seq<byte>, start: RawEntry, e: RawEntry, l: nat, s: nat)
    requires Shaped(start) && HeldTo(b, e, l, s) && s < |b| <= MAX_ENTRY_SIZE && SameAbove(start, e, l)
    ensures var r := Loop(LevelRound(m, b, |b|), 11, e, l, s);
      r.Ok? && r.value.s == |b| ==> !r.value.going && IsReading(b, start, r.value.at)
    decreases 11 - l
  {
    LoopEnds(LevelRound(m, b, |b|), 11, e, l, s);
    if l < 11 {
      LevelRead(m, b, start, e, l, s);
      var r := ParseLevel(m, b, |b|, e, l, s);
      if r.Ok? && r.value.going {
        LevelsRead(m, b, start, r.value.at, l + 1, r.value.s);
      }
    }
  }

  /** The section of level `l` after those below it, and what was read if the bytes end with it. */
  predicate ReadsOn(b: seq<byte>, start: RawEntry, l: nat, s: nat, k: nat, p: Progress<RawEntry>)
    requires Shaped(start) && l <= 10
  {
    && Shaped(p.at) && p.at.level == l && SameAbove(start, p.at, l + 1)
    && (p.going ==> HeldTo(b, p.at, l + 1, p.s) && p.s <= |b|)
    && (!p.going && p.s == |b| ==> HeldTo(b, p.at, l, s) && Ragged(b, start, p.at, l, s, k))
  }

  lemma SectionReadOn(m: Arith, b: seq<byte>, start: RawEntry, e: RawEntry, l: nat, s: nat) returns (k: nat)
    requires Shaped(start) && l <= 10 && e.level == l && HeldTo(b, e, l, s) && s < |b| <= MAX_ENTRY_SIZE && SameAbove(start, e, l)
    ensures var r := ParseSection(m, b, |b|, e, l, s); r.Ok? ==> ReadsOn(b, start, l, s, k, r.value)
  {
    k := SectionRead(m, b, e, l, s);
    var r := ParseSection(m, b, |b|, e, l, s);
    if r.Ok? {
      var f := r.value.at;
      HeldBelow(b, e, f, l, s);
      AboveNext(start, e, f, l);
      if r.value.going {
        HeldNext(b, f, l, s);
      } else if r.value.s == |b| {
        assert SameAt(start, e, l);
        RaggedFrom(b, start, e, f, l, s, k);
      }
    }
  }

  /** One round of the level loop. */
  lemma LevelRead(m: Arith, b: seq<byte>, start: RawEntry, e: RawEntry, l: nat, s: nat)
    requires Shaped(start) && l <= 10 && HeldTo(b, e, l, s) && s < |b| <= MAX_ENTRY_SIZE && SameAbove(start, e, l)
    ensures match ParseLevel(m, b, |b|, e, l, s)
      case Crash => true
      case Ok(p) =>
        if p.going then HeldTo(b, p.at, l + 1, p.s) && p.s < |b| && SameAbove(start, p.at, l + 1)
        else p.s == |b| ==> IsReading(b, start, p.at)
  {
    HeldAtLevel(b, e, l, s);
    AboveAtLevel(start, e, l);
    var k := SectionReadOn(m, b, start, e.(level := l), l, s);
    var r := ParseSection(m, b, |b|, e.(level := l), l, s);
    LevelIs(m, b, e, l, s, r);
    if r.Ok? {
      GoesOn(b, start, l, s, k, r.value);
    }
  }

  lemma LevelIs(m: Arith, b: seq<byte>, e: RawEntry, l: nat, s: nat, r: Res<Progress<RawEntry>>)
    requires l <= 10 && s < |b| <= MAX_ENTRY_SIZE && r == ParseSection(m, b, |b|, e.(level := l), l, s)
    ensures ParseLevel(m, b, |b|, e, l, s) ==
      match r case Crash => Crash case Ok(p) => Ok(p.(going := p.going && p.s < |b|))
  {
  }

  lemma GoesOn(b: seq<byte>, start: RawEntry, l: nat, s: nat, k: nat, p: Progress<RawEntry>)
    requires Shaped(start) && l <= 10 && ReadsOn(b, start, l, s, k, p)
    ensures if p.going && p.s < |b| then HeldTo(b, p.at, l + 1, p.s) && SameAbove(start, p.at, l + 1)
      else p.s == |b| ==> IsReading(b, start, p.at)
  {
  }

  lemma HeldAtLevel(b: seq<byte>, e: RawEntry, l: nat, s: nat)
    requires l <= 10 && HeldTo(b, e, l, s)
    ensures HeldTo(b, e.(level := l), l, s)
  {
    SameFormat(e, e.(level := l), l);
  }

  lemma AboveAtLevel(start: RawEntry, e: RawEntry, l: nat)
    requires l <= 10 && SameAbove(start, e, l)
    ensures SameAbove(start, e.(level := l), l)
  {
    forall j | l <= j <= 10 ensures SameAt(start, e.(level := l), j) {
      assert SameAt(start, e, j);
    }
  }

  /** Bytes that are too short or not as long as they say are refused, and which of the two decides about the error. */
  lemma RefusedIfNotAsLong(m: Arith, b: seq<byte>, prior: RawEntry)
    requires |b| < 18 || |b| % 0x1_0000 != Get16(b[..2])
    ensures Decoded(m, b, prior) == if |b| < 18 then TooShort(Reset(prior)) else Corrupt(Reset(prior))
  {
  }

  lemma DecodedLoops(m: Arith, b: seq<byte>, prior: RawEntry, total: u16)
    requires 18 <= |b| && total == Get16(b[..2]) && |b| % 0x1_0000 == total
    ensures Decoded(m, b, prior) == Finished(total, Loop(LevelRound(m, b, total), 11, Reset(prior), 0, 2))
  {
  }

  lemma SmallLength(n: nat)
    requires n <= MAX_ENTRY_SIZE
    ensures n % 0x1_0000 == n
  {
  }

  lemma FinishedIsReading(b: seq<byte>, start: RawEntry, r: Res<Progress<RawEntry>>)
    requires |b| <= MAX_ENTRY_SIZE && (r.Ok? && r.value.s == |b| ==> !r.value.going && IsReading(b, start, r.value.at))
    ensures Finished(|b|, r).Accepted? ==> IsReading(b, start, Finished(|b|, r).e)
  {
  }

  lemma LoopIsReading(m: Arith, b: seq<byte>, start: RawEntry)
    requires |b| <= MAX_ENTRY_SIZE && Shaped(start) && 2 < |b|
    ensures var o := Finished(|b|, Loop(LevelRound(m, b, |b|), 11, start, 0, 2)); o.Accepted? ==> IsReading(b, start, o.e)
  {
    assert HeldTo(b, start, 0, 2) && SameAbove(start, start, 0);
    LevelsRead(m, b, start, start, 0, 2);
    FinishedIsReading(b, start, Loop(LevelRound(m, b, |b|), 11, start, 0, 2));
  }

  /** Whatever bytes are given to `Decode`, in either arithmetic and whatever the entry held before. If it accepts, they are as
      long as they say, and they hold the accepted entry in the documented form up to its level, to the last byte; or they
      end inside the section of its level, right after the length of the message or in a list with fewer items than its
      count says. */
  lemma AcceptedIsReading(m: Arith, b: seq<byte>, prior: EntryVal, o: Outcome)
    requires |b| <= MAX_ENTRY_SIZE && o == Decoded(m, b, prior)
    ensures o.Accepted? ==> |b| >= 18 && Get16(b[..2]) == |b| && IsReading(b, Reset(prior), o.e)
  {
    SmallLength(|b|);
    if |b| < 18 || |b| != Get16(b[..2]) {
      RefusedIfNotAsLong(m, b, prior);
    } else {
      DecodedLoops(m, b, prior, |b|);
      LoopIsReading(m, b, Reset(prior));
    }
  }

  // ---------------------------------------------------------------- the ragged case happens

  /** An entry without a message that promises `n` tags and ends there. */
  function Promises(bucketId: u32, id: seq<byte>, severity: byte, categoryId: byte, n: byte): seq<byte> {
    Put16(22) + Put32(bucketId) + id + [severity, 0, categoryId, n]
  }

  lemma PromisedBytes(bucketId: u32, id: seq<byte>, severity: byte, categoryId: byte, n: byte)
    requires |id| == 12
    ensures var b := Promises(bucketId, id, severity, categoryId, n);
      && |b| == 22 && b[..2] == Put16(22) && b[2..6] == Put32(bucketId) && b[6..18] == id
      && b[18] == severity && b[19] == 0 && b[20] == categoryId && b[21] == n
  {
  }

  /** The first five sections of such bytes. */
  lemma PromiseRead(m: Arith, b: seq<byte>, e: RawEntry, l: nat, s: nat)
    requires |b| == 22 && b[19] == 0 && l <= 4 && s == [2, 6, 18, 19, 20][l]
    ensures match ParseLevel(m, b, 22, e, l, s)
      case Crash => false
      case Ok(p) => p.going && p.s == [6, 18, 19, 20, 21][l] && p.at.level == l && p.at.tags == e.tags
  {
  }

  lemma PromiseEnds(m: Arith, b: seq<byte>, e: RawEntry)
    requires |b| == 22 && ShapedSlots(Tags, e.tags) && b[21] >= 1
    ensures ParseLevel(m, b, 22, e, 5, 21) == Ok(Progress(false, e.(level := 5, tags := e.tags.(count := b[21])), 22))
  {
    LoopEnds(ItemRound(m, Tags, b, 22), b[21], e.tags.(count := b[21]), 0, 22);
  }

  /** Such bytes are accepted, and the entry then has `n` tags: those that the entry object held before, from another client
      perhaps, if `n` is within the limit; and a count beyond its array otherwise. */
  lemma StaleTagsShow(m: Arith, bucketId: u32, id: seq<byte>, severity: byte, categoryId: byte, n: byte, prior: EntryVal)
    requires |id| == 12 && n >= 1
    ensures match Decoded(m, Promises(bucketId, id, severity, categoryId, n), prior)
      case Accepted(d) => d.level == 5 && d.tags == prior.tags.(count := n)
      case _ => false
  {
    var b := Promises(bucketId, id, severity, categoryId, n);
    PromisedBytes(bucketId, id, severity, categoryId, n);
    Put16Inverse(22, [0, 0]);
    PromiseLoops(m, b, Reset(prior), 0, 2);
  }

  lemma {:induction false} PromiseLoops(m: Arith, b: seq<byte>, e: RawEntry, l: nat, s: nat)
    requires |b| == 22 && b[19] == 0 && b[21] >= 1 && ShapedSlots(Tags, e.tags) && l <= 5 && s == [2, 6, 18, 19, 20, 21][l]
    ensures match Loop(LevelRound(m, b, 22), 11, e, l, s)
      case Crash => false
      case Ok(p) => !p.going && p.s == 22 && p.at.level == 5 && p.at.tags == e.tags.(count := b[21])
    decreases 5 - l
  {
    LoopEnds(LevelRound(m, b, 22), 11, e, l, s);
    if l < 5 {
      PromiseRead(m, b, e, l, s);
      var p := ParseLevel(m, b, 22, e, l, s).value;
      PromiseLoops(m, b, p.at, l + 1, p.s);
    } else {
      PromiseEnds(m, b, e);
    }
  }
}
