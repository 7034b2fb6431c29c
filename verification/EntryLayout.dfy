/** What `Encode` writes is the documented format, exactly when its metric lengths are right. */
module EntryLayout {
  import opened Bytes
  import opened EntryWire
  import opened EntryTheorems
  import opened EntrySize
  import opened EntryLaws
  import opened EntryFormat
  import R = EntryRoundTrip

  /** `e` with its list of `kind` cut to what is sent, if it is sent at all. */
  function CutList(e: Sendable, kind: Kind): (sl: Slots)
    ensures ShapedSlots(kind, sl) && sl.count <= Limit(kind)
  {
    if LevelOf(kind) <= e.level then e.List(kind).(count := Sent(e, kind, Start(e, LevelOf(kind)))) else e.List(kind)
  }

  /** `e` as its record shows it. */
  function CutDown(e: Sendable): (d: RawEntry)
    ensures Shaped(d) && InLimits(d, 11)
  {
    e.(tags := CutList(e, Tags), metrics := CutList(e, Metrics), meta := CutList(e, Meta), trace := CutList(e, Trace))
  }

  lemma JoinEqual(x: seq<byte>, y: seq<byte>, x': seq<byte>, y': seq<byte>)
    requires |x| == |x'|
    ensures x + y == x' + y' <==> x == x' && y == y'
  {
    if x + y == x' + y' {
      assert x == (x + y)[..|x|] == (x' + y')[..|x|] == x';
      assert y == (x + y)[|x|..] == (x' + y')[|x|..] == y';
    }
  }

  // ---------------------------------------------------------------- one list

  predicate HonestItem(e: EntryVal, kind: Kind, i: nat)
    requires HasItem(kind, i)
  {
    KeyLen(e, kind, i) % 256 == |e.List(kind).keys[i]| % 256
  }

  lemma ItemIsFormat(e: EntryVal, kind: Kind, sl: Slots, i: nat)
    requires HasItem(kind, i) && sl == e.List(kind).(count := sl.count)
    ensures |Item(e, kind, i)| == |FormatItem(kind, sl, i)|
    ensures Item(e, kind, i) == FormatItem(kind, sl, i) <==> HonestItem(e, kind, i)
  {
    var n, n' := [KeyLen(e, kind, i) % 256], [|sl.keys[i]| % 256];
    assert Tail(e, kind, i) == FormatTail(kind, sl, i);
    JoinEqual(n + sl.keys[i], Tail(e, kind, i), n' + sl.keys[i], Tail(e, kind, i));
    JoinEqual(n, sl.keys[i], n', sl.keys[i]);
    assert n == n' <==> n[0] == n'[0];
  }

  /** The first `n` length bytes are right. */
  predicate HonestTo(e: EntryVal, kind: Kind, n: nat)
    requires HasItems(e, kind) && n <= e.List(kind).count
  {
    forall i :: 0 <= i < n ==> HonestItem(e, kind, i)
  }

  lemma RowsNext(e: EntryVal, kind: Kind, n: nat)
    requires HasItems(e, kind) && n < e.List(kind).count
    ensures Flatten(Rows(e, kind, n + 1)) == Flatten(Rows(e, kind, n)) + Item(e, kind, n)
  {
    assert Rows(e, kind, n + 1)[..n] == Rows(e, kind, n);
  }

  lemma {:induction false} RowsAreFormat(e: EntryVal, kind: Kind, sl: Slots, n: nat) returns (xs: seq<byte>, ys: seq<byte>)
    requires HasItems(e, kind) && n <= e.List(kind).count && sl == e.List(kind).(count := sl.count)
    ensures xs == Flatten(Rows(e, kind, n)) && ys == FormatItems(kind, sl, n)
    ensures |xs| == |ys| && (xs == ys <==> HonestTo(e, kind, n))
  {
    if n == 0 {
      xs, ys := [], [];
    } else {
      var x, y := Item(e, kind, n - 1), FormatItem(kind, sl, n - 1);
      xs, ys := RowsAreFormat(e, kind, sl, n - 1);
      ItemIsFormat(e, kind, sl, n - 1);
      RowsNext(e, kind, n - 1);
      JoinEqual(xs, x, ys, y);
      HonestNext(e, kind, n - 1);
      xs, ys := xs + x, ys + y;
    }
  }

  lemma HonestNext(e: EntryVal, kind: Kind, n: nat)
    requires HasItems(e, kind) && n < e.List(kind).count
    ensures HonestTo(e, kind, n + 1) <==> HonestTo(e, kind, n) && HonestItem(e, kind, n)
  {
  }

  lemma ListIsFormat(e: EntryVal, kind: Kind, n: nat, sl: Slots)
    requires HasItems(e, kind) && n <= e.List(kind).count && sl == e.List(kind).(count := n)
    ensures var xs, ys := [n] + Flatten(Rows(e, kind, n)), [n] + FormatItems(kind, sl, n);
      |xs| == |ys| && (xs == ys <==> HonestTo(e, kind, n))
  {
    var xs, ys := RowsAreFormat(e, kind, sl, n);
    JoinEqual([n], xs, [n], ys);
  }

  // ---------------------------------------------------------------- all sections

  /** Only the length bytes of metrics can be wrong. */
  predicate Honest(e: Sendable, l: nat, s: nat) {
    l == LevelOf(Metrics) && l <= e.level ==> HonestTo(e, Metrics, Sent(e, Metrics, s))
  }

  /** A list section that starts at `s`. */
  lemma ListSectionIsFormat(e: Sendable, kind: Kind, sl: Slots, s: nat)
    requires LevelOf(kind) <= e.level && sl == e.List(kind).(count := Sent(e, kind, s))
    ensures var xs, ys := Section(e, LevelOf(kind), s), [sl.count] + FormatItems(kind, sl, sl.count);
      |xs| == |ys| && (xs == ys <==> Honest(e, LevelOf(kind), s))
  {
    SectionIsList(e, kind, s);
    ListIsFormat(e, kind, sl.count, sl);
    if kind != Metrics {
      assert HonestTo(e, kind, sl.count);
    }
  }

  /** Both forms of the section are equally long, and equal exactly when its length bytes are right. */
  predicate Agrees(e: Sendable, l: nat, d: RawEntry, s: nat)
    requires l <= e.level && d == CutDown(e)
  {
    |Section(e, l, s)| == |FormatSection(d, l)| && (Section(e, l, s) == FormatSection(d, l) <==> Honest(e, l, s))
  }

  lemma ListAgrees(e: Sendable, kind: Kind, l: nat, d: RawEntry, s: nat)
    requires l == LevelOf(kind) <= e.level && d == CutDown(e) && s == Start(e, l)
    ensures Agrees(e, l, d, s)
  {
    assert d.List(kind) == CutList(e, kind);
    ListSectionIsFormat(e, kind, CutList(e, kind), s);
    assert InLimit(d, l);
    FormatList(d, kind, l);
  }

  lemma FormatList(d: RawEntry, kind: Kind, l: nat)
    requires Shaped(d) && l == LevelOf(kind) && InLimit(d, l)
    ensures d.List(kind).count <= Limit(kind)
    ensures FormatSection(d, l) == [d.List(kind).count] + FormatItems(kind, d.List(kind), d.List(kind).count)
  {
    assert KindOf(l) == kind;
  }

  /** A section that starts at `s`. */
  lemma SectionAgrees(e: Sendable, l: nat, d: RawEntry, s: nat)
    requires l <= e.level && d == CutDown(e) && s == Start(e, l)
    ensures Agrees(e, l, d, s)
  {
    if 5 <= l <= 8 {
      LevelOfKind(l);
      ListAgrees(e, KindOf(l), l, d, s);
    } else {
      FixedIsFormat(e, l, d, s);
    }
  }

  lemma LevelOfKind(l: nat)
    requires 5 <= l <= 8
    ensures LevelOf(KindOf(l)) == l
  {
  }

  lemma FixedIsFormat(e: Sendable, l: nat, d: RawEntry, s: nat)
    requires l <= e.level && d == CutDown(e) && (l < 5 || l > 8)
    ensures Agrees(e, l, d, s)
  {
    FixedFields(e, l, d, s);
  }

  /** A section that is no list, from the fields that the two entries share. */
  lemma FixedFields(e: Sendable, l: nat, d: RawEntry, s: nat)
    requires l <= e.level && Shaped(d) && (l < 5 || l > 8) && SameAt(e, d, l)
    ensures Section(e, l, s) == FormatSection(d, l)
  {
  }

  /** The parts below `l`, one after the other. */
  function Joined(part: nat -> seq<byte>, l: nat): seq<byte> {
    if l == 0 then [] else Joined(part, l - 1) + part(l - 1)
  }

  /** Parts of the same lengths that are all equal, but for part 6, which is equal if `honest`. */
  lemma {:induction false} JoinedEqual(x: nat -> seq<byte>, y: nat -> seq<byte>, l: nat, honest: bool)
    requires forall k :: 0 <= k < l ==> |x(k)| == |y(k)| && (x(k) == y(k) <==> (k == 6 ==> honest))
    ensures |Joined(x, l)| == |Joined(y, l)| && (Joined(x, l) == Joined(y, l) <==> (l > 6 ==> honest))
  {
    if l > 0 {
      JoinedEqual(x, y, l - 1, honest);
      JoinEqual(Joined(x, l - 1), x(l - 1), Joined(y, l - 1), y(l - 1));
    }
  }

  function Written(e: Sendable): nat -> seq<byte> {
    (k: nat) => if k <= e.level then Section(e, k, Start(e, k)) else []
  }

  function Documented(d: RawEntry): nat -> seq<byte>
    requires Shaped(d) && InLimits(d, 11)
  {
    (k: nat) => if k <= 10 then (assert InLimit(d, k); FormatSection(d, k)) else []
  }

  lemma {:induction false} BodyJoined(e: Sendable, l: nat)
    requires l <= e.level + 1
    ensures Body(e, l) == Joined(Written(e), l)
  {
    if l > 0 {
      BodyJoined(e, l - 1);
      BodyNext(e, l - 1, Start(e, l - 1));
    }
  }

  lemma {:induction false} FormatJoined(d: RawEntry, l: nat)
    requires Shaped(d) && InLimits(d, 11) && l <= 11
    ensures FormatTo(d, l) == Joined(Documented(d), l)
  {
    if l > 0 {
      FormatJoined(d, l - 1);
    }
  }

  lemma PartAgrees(e: Sendable, k: nat, d: RawEntry, honest: bool)
    requires k <= e.level && d == CutDown(e) && (k == 6 ==> honest == Honest(e, 6, Start(e, 6)))
    ensures var x, y := Written(e)(k), Documented(d)(k); |x| == |y| && (x == y <==> (k == 6 ==> honest))
  {
    SectionAgrees(e, k, d, Start(e, k));
  }

  /** Both forms of the whole body. */
  lemma BodyForms(e: Sendable, d: RawEntry, honest: bool) returns (xs: seq<byte>, ys: seq<byte>)
    requires d == CutDown(e) && (e.level >= 6 ==> honest == Honest(e, 6, Start(e, 6)))
    ensures xs == Body(e, e.level + 1) && ys == FormatTo(d, e.level + 1)
    ensures |xs| == |ys| && (xs == ys <==> (e.level >= 6 ==> honest))
  {
    var x, y := Written(e), Documented(d);
    forall k | 0 <= k < e.level + 1 ensures |x(k)| == |y(k)| && (x(k) == y(k) <==> (k == 6 ==> honest)) {
      PartAgrees(e, k, d, honest);
    }
    JoinedEqual(x, y, e.level + 1, honest);
    BodyJoined(e, e.level + 1);
    FormatJoined(d, e.level + 1);
    xs, ys := Joined(x, e.level + 1), Joined(y, e.level + 1);
  }

  lemma BodyNext(e: Sendable, l: nat, s: nat)
    requires l <= e.level && s == Start(e, l)
    ensures Body(e, l + 1) == Body(e, l) + Section(e, l, s)
  {
    assert Sections(e)(l, s) == Section(e, l, s);
  }

  lemma HonestIsMatch(e: EntryVal, n: nat)
    requires HasItems(e, Metrics) && n <= e.metrics.count && forall i :: 0 <= i < n ==> |e.metrics.keys[i]| <= 255
    ensures HonestTo(e, Metrics, n) <==> MatchTo(e, n)
  {
    forall i | 0 <= i < n ensures HonestItem(e, Metrics, i) <==> |e.trace.keys[i]| % 256 == |e.metrics.keys[i]| {
      assert |e.metrics.keys[i]| % 256 == |e.metrics.keys[i]|;
    }
  }

  /** For every entry within its caps: what `Encode` writes is its own length and then, level by level, the documented form of
      what is sent of the entry, if and only if every metric key that is sent is as long as the trace path at its index. */
  lemma RecordIsFormatIff(e: Sendable)
    requires Capped(e)
    ensures Record(e) == Put16(|Record(e)| % 0x1_0000) + FormatTo(CutDown(e), e.level + 1)
      <==> (e.level >= 6 ==> MetricsMatchPaths(e))
  {
    var honest := e.level >= 6 ==> Honest(e, 6, Start(e, 6));
    RecordForms(e, honest);
    if e.level >= 6 {
      HonestMetrics(e, Start(e, 6));
    }
  }

  lemma RecordForms(e: Sendable, honest: bool)
    requires e.level >= 6 ==> honest == Honest(e, 6, Start(e, 6))
    ensures Record(e) == Put16(|Record(e)| % 0x1_0000) + FormatTo(CutDown(e), e.level + 1) <==> (e.level >= 6 ==> honest)
  {
    var xs, ys := BodyForms(e, CutDown(e), honest);
    var size := Put16(|Record(e)| % 0x1_0000);
    RecordIs(e);
    JoinEqual(size, xs, size, ys);
  }

  lemma HonestMetrics(e: Sendable, s: nat)
    requires Capped(e) && e.level >= 6 && s == Start(e, LevelOf(Metrics))
    ensures Honest(e, 6, s) <==> MetricsMatchPaths(e)
  {
    ShortMetrics(e, Sent(e, Metrics, s));
    HonestIsMatch(e, Sent(e, Metrics, s));
  }

  lemma RecordIs(e: Sendable)
    ensures Record(e) == Put16(|Record(e)| % 0x1_0000) + Body(e, e.level + 1)
  {
    RecordHolds(e);
  }

  lemma ShortMetrics(e: Sendable, n: nat)
    requires Capped(e) && e.level >= 6 && n <= e.metrics.count
    ensures forall i :: 0 <= i < n ==> |e.metrics.keys[i]| <= 255
  {
    assert ShortItems(e, Metrics);
    forall i | 0 <= i < n ensures |e.metrics.keys[i]| <= 255 {
      assert R.Short(e, Metrics, i);
    }
  }
}
