/** How long records get, and what the size cap cuts off. */
module EntrySize {
  import opened Bytes
  import opened EntryWire
  import opened EntryRoundTrip
  import opened EntryTheorems

  predicate ShortItems(e: Sendable, kind: Kind) {
    LevelOf(kind) <= e.level ==> forall i :: 0 <= i < e.List(kind).count ==> Short(e, kind, i)
  }

  /** Every string fits its length field. */
  predicate Capped(e: Sendable) {
    && |e.message| <= 255
    && ShortItems(e, Tags) && ShortItems(e, Metrics) && ShortItems(e, Meta) && ShortItems(e, Trace)
  }

  /** The cursor after the items that are kept, when item `i` is due at `s`. */
  function KeptEnd(e: EntryVal, kind: Kind, i: nat, s: nat): nat
    requires HasItems(e, kind)
    decreases e.List(kind).count - i
  {
    if i >= e.List(kind).count || !Fits(e, kind, i, s) then s
    else KeptEnd(e, kind, i + 1, s + ItemSize(e, kind, i))
  }

  /** The bytes of the first `n` items. */
  function SizeTo(e: EntryVal, kind: Kind, n: nat): nat
    requires HasItems(e, kind) && n <= e.List(kind).count
  {
    if n == 0 then 0 else SizeTo(e, kind, n - 1) + ItemSize(e, kind, n - 1)
  }

  lemma RowsStep(e: EntryVal, kind: Kind, n: nat)
    requires HasItems(e, kind) && 0 < n <= e.List(kind).count
    ensures Flatten(Rows(e, kind, n)) == Flatten(Rows(e, kind, n - 1)) + Item(e, kind, n - 1)
  {
    assert Rows(e, kind, n)[..n - 1] == Rows(e, kind, n - 1);
  }

  lemma {:induction false} RowsSize(e: EntryVal, kind: Kind, n: nat)
    requires HasItems(e, kind) && n <= e.List(kind).count
    ensures |Flatten(Rows(e, kind, n))| == SizeTo(e, kind, n)
  {
    if n > 0 {
      RowsStep(e, kind, n);
      ItemTakesSpace(e, kind, n - 1);
      RowsSize(e, kind, n - 1);
    }
  }

  /** The loop's cursor agrees with the bytes of the items it keeps. */
  lemma {:induction false} KeptEndIs(e: EntryVal, kind: Kind, i: nat, s: nat, at: nat)
    requires HasItems(e, kind) && i <= e.List(kind).count
    requires at == s + SizeTo(e, kind, i)
    ensures KeptEnd(e, kind, i, at) == s + SizeTo(e, kind, Kept(e, kind, i, at))
    decreases e.List(kind).count - i
  {
    if i < e.List(kind).count && Fits(e, kind, i, at) {
      KeptEndIs(e, kind, i + 1, s, at + ItemSize(e, kind, i));
    }
  }

  /** Where length bytes tell the truth, kept items stay inside the cap; what is cut off did not fit. */
  lemma {:induction false} KeptInside(e: EntryVal, kind: Kind, i: nat, s: nat)
    requires HasItems(e, kind) && i <= e.List(kind).count && s <= MAX_ENTRY_SIZE
    requires kind == Meta || kind == Trace
    ensures s <= KeptEnd(e, kind, i, s) <= MAX_ENTRY_SIZE
    ensures Kept(e, kind, i, s) < e.List(kind).count ==>
              KeptEnd(e, kind, i, s) + ItemSize(e, kind, Kept(e, kind, i, s)) > MAX_ENTRY_SIZE
    decreases e.List(kind).count - i
  {
    if i < e.List(kind).count && Fits(e, kind, i, s) {
      KeptInside(e, kind, i + 1, s + ItemSize(e, kind, i));
    }
  }

  /** Tags and metrics take little room. */
  lemma {:induction false} KeptSmall(e: EntryVal, kind: Kind, i: nat, s: nat)
    requires HasItems(e, kind) && i <= e.List(kind).count
    requires forall k :: i <= k < e.List(kind).count ==> Short(e, kind, k)
    requires kind == Tags || kind == Metrics
    ensures KeptEnd(e, kind, i, s) <= s + 260 * (e.List(kind).count - i)
    decreases e.List(kind).count - i
  {
    if i < e.List(kind).count && Fits(e, kind, i, s) {
      assert Short(e, kind, i);
      KeptSmall(e, kind, i + 1, s + ItemSize(e, kind, i));
    }
  }

  /** The trace paths that the metrics from `i` on take their lengths from are short. */
  predicate ShortPaths(e: EntryVal, i: nat) {
    forall k :: i <= k < 16 && k < e.metrics.count ==> |e.trace.keys[k]| <= 255
  }

  /** Tags are never cut, and metrics are not if the trace paths are short. */
  lemma {:induction false} AllKept(e: EntryVal, kind: Kind, i: nat, s: nat)
    requires HasItems(e, kind) && i <= e.List(kind).count
    requires forall k :: i <= k < e.List(kind).count ==> Short(e, kind, k)
    requires kind == Tags || (kind == Metrics && ShortPaths(e, i))
    requires s + 260 * (e.List(kind).count - i) <= MAX_ENTRY_SIZE
    ensures Kept(e, kind, i, s) == e.List(kind).count
    decreases e.List(kind).count - i
  {
    if i < e.List(kind).count {
      assert Short(e, kind, i);
      AllKept(e, kind, i + 1, s + ItemSize(e, kind, i));
    }
  }

  /** A list section takes the count byte and what the loop writes. */
  lemma ListSectionEnds(e: Sendable, kind: Kind, s: nat)
    requires LevelOf(kind) <= e.level
    ensures s + |Section(e, LevelOf(kind), s)| == KeptEnd(e, kind, 0, s + 1)
  {
    SectionIsList(e, kind, s);
    KeptEndIs(e, kind, 0, s + 1, s + 1);
    RowsSize(e, kind, Sent(e, kind, s));
  }

  // ---------------------------------------------------------------- where the sections end

  /** The cursors at which the sections of the record start; the last one is the end. */
  predicate Layout(e: Sendable, st: seq<nat>) {
    && |st| == e.level + 2 && st[0] == 2
    && forall l {:trigger Section(e, l, st[l])} :: 0 <= l <= e.level ==>
         st[l + 1] == st[l] + |Section(e, l, st[l])|
  }

  lemma LayoutOf(e: Sendable) returns (st: seq<nat>)
    ensures Layout(e, st) && st[e.level + 1] == |Record(e)|
    ensures forall l :: 0 <= l <= e.level + 1 ==> st[l] == Start(e, l)
  {
    st := seq(e.level + 2, l requires 0 <= l <= e.level + 1 => Start(e, l));
    RecordHolds(e);
    forall l {:trigger Section(e, l, st[l])} | 0 <= l <= e.level
      ensures st[l + 1] == st[l] + |Section(e, l, st[l])|
    {
      BodyHolds(e, Record(e), l);
    }
  }

  lemma LayoutAt(e: Sendable, l: nat) returns (st: seq<nat>)
    requires l <= e.level
    ensures Layout(e, st) && st[l] == Start(e, l)
  {
    st := LayoutOf(e);
  }

  lemma FixedSizes(e: Sendable, l: nat, s: nat)
    requires l <= e.level && |e.message| <= 255
    ensures l == 0 ==> |Section(e, l, s)| == 4
    ensures l == 1 ==> |Section(e, l, s)| == 12
    ensures l == 2 || l == 4 ==> |Section(e, l, s)| == 1
    ensures l == 3 ==> |Section(e, l, s)| == 1 + |e.message| <= 256
    ensures l >= 9 ==> |Section(e, l, s)| == 2
  {
  }

  /** The sections before the tags are small. */
  lemma {:induction false} FixedEnds(e: Sendable, st: seq<nat>, l: nat)
    requires Layout(e, st) && l <= 5 && l <= e.level + 1 && |e.message| <= 255
    ensures st[l] <= [2, 6, 18, 19, 275, 276][l]
  {
    if l > 0 {
      FixedEnds(e, st, l - 1);
      FixedSizes(e, l - 1, st[l - 1]);
    }
  }

  /** Where the tags start, exactly. */
  lemma FixedEnd(e: Sendable, st: seq<nat>)
    requires Layout(e, st) && 5 <= e.level && |e.message| <= 255
    ensures st[5] == 21 + |e.message|
  {
    FixedSizes(e, 0, st[0]);
    FixedSizes(e, 1, st[1]);
    FixedSizes(e, 2, st[2]);
    FixedSizes(e, 3, st[3]);
    FixedSizes(e, 4, st[4]);
  }

  lemma ListEnds(e: Sendable, st: seq<nat>, kind: Kind)
    requires Layout(e, st) && LevelOf(kind) <= e.level
    ensures st[LevelOf(kind) + 1] == KeptEnd(e, kind, 0, st[LevelOf(kind)] + 1)
  {
    ListSectionEnds(e, kind, st[LevelOf(kind)]);
  }

  /** Tags, in the places where they can stand, are never cut by the size cap, nor are metrics with short paths. */
  lemma SmallListEnds(e: Sendable, kind: Kind, s: nat)
    requires Capped(e) && LevelOf(kind) <= e.level && s <= 3000
    requires kind == Tags || kind == Metrics
    ensures kind == Tags || ShortPaths(e, 0) ==> Sent(e, kind, s) == e.List(kind).count
    ensures KeptEnd(e, kind, 0, s + 1) <= s + 1 + 260 * 16
    ensures kind == Tags ==> KeptEnd(e, kind, 0, s + 1) <= s + 1 + 260 * 8
  {
    assert ShortItems(e, kind);
    KeptSmall(e, kind, 0, s + 1);
    if kind == Tags || ShortPaths(e, 0) {
      AllKept(e, kind, 0, s + 1);
    }
  }

  lemma TagsEnd(e: Sendable, st: seq<nat>)
    requires Layout(e, st) && Capped(e) && 5 <= e.level
    ensures st[6] <= 2357
  {
    FixedEnds(e, st, 5);
    ListEnds(e, st, Tags);
    SmallListEnds(e, Tags, st[5]);
  }

  /** Where the metrics start, exactly: tags are never cut. */
  lemma TagsEndAt(e: Sendable, st: seq<nat>)
    requires Layout(e, st) && Capped(e) && 5 <= e.level
    ensures st[6] == 22 + |e.message| + SizeTo(e, Tags, e.tags.count)
  {
    FixedEnd(e, st);
    ListEnds(e, st, Tags);
    SmallListEnds(e, Tags, st[5]);
    KeptEndIs(e, Tags, 0, st[5] + 1, st[5] + 1);
  }

  lemma MetricsEnd(e: Sendable, st: seq<nat>)
    requires Layout(e, st) && Capped(e) && 6 <= e.level
    ensures st[7] <= 6518
    ensures ShortPaths(e, 0) ==> Sent(e, Metrics, st[6]) == e.metrics.count
  {
    TagsEnd(e, st);
    ListEnds(e, st, Metrics);
    SmallListEnds(e, Metrics, st[6]);
  }

  lemma MetaEnd(e: Sendable, st: seq<nat>)
    requires Layout(e, st) && Capped(e) && 7 <= e.level
    ensures st[8] <= MAX_ENTRY_SIZE
  {
    MetricsEnd(e, st);
    ListEnds(e, st, Meta);
    KeptInside(e, Meta, 0, st[7] + 1);
  }

  lemma TraceEnd(e: Sendable, st: seq<nat>)
    requires Layout(e, st) && Capped(e) && 8 <= e.level
    ensures st[9] <= MAX_ENTRY_SIZE <==> st[8] < MAX_ENTRY_SIZE
  {
    ListEnds(e, st, Trace);
    if st[8] < MAX_ENTRY_SIZE {
      KeptInside(e, Trace, 0, st[8] + 1);
    } else {
      SectionTakesSpace(e, 8, st[8]);
    }
  }

  lemma LowEnds(e: Sendable, st: seq<nat>)
    requires Layout(e, st) && Capped(e) && e.level <= 7
    ensures st[e.level + 1] <= MAX_ENTRY_SIZE
  {
    if e.level <= 4 {
      FixedEnds(e, st, e.level + 1);
    } else if e.level == 5 {
      TagsEnd(e, st);
    } else if e.level == 6 {
      MetricsEnd(e, st);
    } else {
      MetaEnd(e, st);
    }
  }

  lemma TtlEnds(e: Sendable, st: seq<nat>)
    requires Layout(e, st) && Capped(e) && e.level >= 8
    ensures st[e.level + 1] == st[9] + 2 * (e.level - 8)
  {
    if e.level >= 9 {
      FixedSizes(e, 9, st[9]);
    }
    if e.level == 10 {
      FixedSizes(e, 10, st[10]);
    }
  }

  /** Up to the meta section a record never exceeds the cap. The later sections reserve no room:
      the trace section ends inside the cap exactly when meta left a byte for its count, and each
      TTL needs two more bytes after it. */
  lemma SizeCap(e: Sendable)
    requires Capped(e)
    ensures e.level <= 7 ==> |Record(e)| <= MAX_ENTRY_SIZE
    ensures e.level >= 8 ==> |Record(e)| == Start(e, 9) + 2 * (e.level - 8)
    ensures e.level >= 8 ==> (Start(e, 9) <= MAX_ENTRY_SIZE <==> Start(e, 8) < MAX_ENTRY_SIZE)
  {
    var st := LayoutOf(e);
    if e.level <= 7 {
      LowEnds(e, st);
    } else {
      TraceEnd(e, st);
      TtlEnds(e, st);
    }
  }

  lemma {:induction false} SizeGrows(e: EntryVal, kind: Kind, i: nat, n: nat)
    requires HasItems(e, kind) && i <= n <= e.List(kind).count
    ensures SizeTo(e, kind, i) <= SizeTo(e, kind, n)
  {
    if i < n {
      SizeGrows(e, kind, i, n - 1);
    }
  }

  /** All items of a meta or trace section are sent exactly when they fit, count byte included. */
  lemma AllSentIff(e: Sendable, kind: Kind, s: nat)
    requires LevelOf(kind) <= e.level && (kind == Meta || kind == Trace) && s < MAX_ENTRY_SIZE
    ensures Sent(e, kind, s) == e.List(kind).count <==> s + 1 + SizeTo(e, kind, e.List(kind).count) <= MAX_ENTRY_SIZE
  {
    var n := Kept(e, kind, 0, s + 1);
    KeptEndIs(e, kind, 0, s + 1, s + 1);
    KeptInside(e, kind, 0, s + 1);
    if n < e.List(kind).count {
      SizeGrows(e, kind, n + 1, e.List(kind).count);
    }
  }

  lemma TraceTakes(e: Sendable, st: seq<nat>)
    requires Layout(e, st) && Capped(e) && 8 <= e.level
    ensures st[8] <= MAX_ENTRY_SIZE && Sent(e, Trace, st[8]) <= e.trace.count
    ensures st[e.level + 1] == st[8] + 1 + SizeTo(e, Trace, Sent(e, Trace, st[8])) + 2 * (e.level - 8)
  {
    MetaEnd(e, st);
    ListEnds(e, st, Trace);
    TtlEnds(e, st);
    KeptEndIs(e, Trace, 0, st[8] + 1, st[8] + 1);
  }

  /** The exact length beyond level 7, and so the room that has to be left after the meta section: a byte for the
      count, the trace items that are sent, and two bytes for each TTL. All of the trace is sent exactly when it fits. */
  lemma RoomAfterMeta(e: Sendable, s: nat, n: nat)
    requires Capped(e) && e.level >= 8 && s == Start(e, LevelOf(Trace)) && n == Sent(e, Trace, s)
    ensures s <= MAX_ENTRY_SIZE && n <= e.trace.count
    ensures |Record(e)| == s + 1 + SizeTo(e, Trace, n) + 2 * (e.level - 8)
    ensures s < MAX_ENTRY_SIZE ==> (n == e.trace.count <==> s + 1 + SizeTo(e, Trace, e.trace.count) <= MAX_ENTRY_SIZE)
    ensures s == MAX_ENTRY_SIZE ==> |Record(e)| > MAX_ENTRY_SIZE
  {
    var st := LayoutOf(e);
    TraceTakes(e, st);
    if s < MAX_ENTRY_SIZE {
      AllSentIff(e, Trace, s);
    }
  }

  /** The meta section holds a prefix of the pairs, its count byte says how many, and the first pair
      left out would have crossed the cap. */
  lemma MetaCut(e: Sendable, s: nat, n: nat)
    requires Capped(e) && e.level >= 7 && s == Start(e, LevelOf(Meta)) && n == Sent(e, Meta, s)
    ensures |Record(e)| > s && Record(e)[s] == n <= e.meta.count
    ensures Holds(Record(e), s + 1, Flatten(Rows(e, Meta, n)))
    ensures s + 1 + SizeTo(e, Meta, n) <= MAX_ENTRY_SIZE
    ensures n < e.meta.count ==> s + 1 + SizeTo(e, Meta, n) + ItemSize(e, Meta, n) > MAX_ENTRY_SIZE
  {
    MetaStartsLow(e, s);
    KeptEndIs(e, Meta, 0, s + 1, s + 1);
    KeptInside(e, Meta, 0, s + 1);
    RecordHolds(e);
    BodyHolds(e, Record(e), LevelOf(Meta));
    MetaHeld(e, Record(e), s, n);
  }

  lemma MetaStartsLow(e: Sendable, s: nat)
    requires Capped(e) && e.level >= 7 && s == Start(e, LevelOf(Meta))
    ensures s < MAX_ENTRY_SIZE
  {
    var st := LayoutAt(e, LevelOf(Meta));
    MetricsEnd(e, st);
  }

  lemma MetaHeld(e: Sendable, b: seq<byte>, s: nat, n: nat)
    requires e.level >= 7 && n == Sent(e, Meta, s) && Holds(b, s, Section(e, LevelOf(Meta), s))
    ensures s < |b| && b[s] == n && Holds(b, s + 1, Flatten(Rows(e, Meta, n)))
  {
    SectionIsList(e, Meta, s);
    CountHeld(b, s, n, Flatten(Rows(e, Meta, n)));
  }

  lemma CountHeld(b: seq<byte>, s: nat, n: byte, items: seq<byte>)
    requires Holds(b, s, [n] + items)
    ensures s < |b| && b[s] == n && Holds(b, s + 1, items)
  {
    HoldsSplit(b, s, [n], items);
    HeldByte(b, s, n);
  }
}
