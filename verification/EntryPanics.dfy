/** When `Encode` panics. */
module EntryPanics {
  import opened Bytes
  import opened Buffer
  import opened EntryWire
  import opened EntryRoundTrip
  import opened EntryTheorems
  import opened EntrySize
  import opened EntryWriter
  import opened EntryEncoder

  /** Every string that the section of `kind` may write fits its length field. */
  predicate ShortList(e: EntryVal, kind: Kind) {
    LevelOf(kind) <= e.level ==> forall i :: 0 <= i < e.List(kind).count && HasItem(kind, i) ==> Short(e, kind, i)
  }

  /** Counts within the arrays and strings within their length fields; any number of metrics. */
  predicate WithinCaps(e: EntryVal) {
    && e.level <= 10 && Counted(e) && |e.message| <= 255
    && ShortList(e, Tags) && ShortList(e, Metrics) && ShortList(e, Meta) && ShortList(e, Trace)
  }

  /** There are more metrics than trace paths to take their lengths from. */
  predicate TooManyMetrics(e: EntryVal) { e.level >= 6 && e.metrics.count > 16 }

  /** The entry with only the first sixteen of its metrics. */
  function Sixteen(e: EntryVal): EntryVal { e.(metrics := e.metrics.(count := 16)) }

  /** The entry with as many metrics as the loop can come to. */
  function Trimmed(e: EntryVal): Sendable
    requires WithinCaps(e)
  {
    if TooManyMetrics(e) then Sixteen(e) else e
  }

  /** Where the metrics of an entry stand: behind what comes before the tags, the tags, and the count. */
  function MetricsAt(e: EntryVal): nat
    requires WithinCaps(e)
  {
    23 + |e.message| + SizeTo(e, Tags, e.tags.count)
  }

  /** The metric loop comes to the seventeenth metric, for which there is no trace path: none before it is cut off. */
  predicate RunsPast(e: EntryVal)
    requires WithinCaps(e)
  {
    TooManyMetrics(e) && Kept(Sixteen(e), Metrics, 0, MetricsAt(e)) == 16
  }

  lemma CapsAgree(e: EntryVal)
    requires WithinCaps(e)
    ensures Encodable(e) <==> !TooManyMetrics(e)
    ensures Capped(Trimmed(e)) && (Encodable(e) ==> Trimmed(e) == e)
  {
    ShortTrimmed(e, Tags);
    ShortTrimmed(e, Metrics);
    ShortTrimmed(e, Meta);
    ShortTrimmed(e, Trace);
  }

  lemma ShortTrimmed(e: EntryVal, kind: Kind)
    requires WithinCaps(e) && ShortList(e, kind)
    ensures ShortItems(Trimmed(e), kind)
  {
    var r := Trimmed(e);
    if LevelOf(kind) <= r.level {
      forall i | 0 <= i < r.List(kind).count ensures Short(r, kind, i) {
        assert Short(e, kind, i);
      }
    }
  }

  lemma {:induction false} TagsSize(e: EntryVal, n: nat)
    requires HasItems(e, Tags) && n <= e.tags.count && forall i :: 0 <= i < e.tags.count ==> Short(e, Tags, i)
    ensures SizeTo(e, Tags, n) <= 256 * n
  {
    if n > 0 {
      assert Short(e, Tags, n - 1);
      TagsSize(e, n - 1);
    }
  }

  lemma MetricsAtLow(e: EntryVal)
    requires WithinCaps(e) && e.level >= 6
    ensures MetricsAt(e) <= 2358
  {
    TagsSize(e, e.tags.count);
  }

  lemma FirstShort(e: EntryVal)
    requires WithinCaps(e) && TooManyMetrics(e)
    ensures forall k :: 0 <= k < 16 ==> Short(e, Metrics, k)
    ensures forall k :: 0 <= k < 16 ==> Short(Sixteen(e), Metrics, k)
  {
    assert ShortList(e, Metrics);
    forall k | 0 <= k < 16 ensures Short(e, Metrics, k) && Short(Sixteen(e), Metrics, k) {
      assert k < e.List(Metrics).count && HasItem(Metrics, k);
      assert Short(e, Metrics, k);
    }
  }

  lemma RunsPastIff(e: EntryVal)
    requires WithinCaps(e) && ShortPaths(e, 0)
    ensures RunsPast(e) <==> TooManyMetrics(e)
  {
    if TooManyMetrics(e) {
      MetricsAtLow(e);
      FirstShort(e);
      AllKept(Sixteen(e), Metrics, 0, MetricsAt(e));
    }
  }

  // ---------------------------------------------------------------- entries that are written alike

  /** Items of `kind` are written from its list, and for metrics from the trace paths. */
  lemma {:induction false} ItemsAgree(e: EntryVal, d: EntryVal, kind: Kind, i: nat, o: Out, pos: nat)
    requires d.List(kind) == e.List(kind) && d.trace.keys == e.trace.keys
    ensures ItemsWritten(d, kind, i, o, pos) == ItemsWritten(e, kind, i, o, pos)
    decreases e.List(kind).count - i
  {
    if i < e.List(kind).count && HasItem(kind, i) && Fits(e, kind, i, o.s) {
      var r := ItemWritten(e, kind, i, o);
      assert ItemWritten(d, kind, i, o) == r;
      if r.Ok? {
        ItemsAgree(e, d, kind, i + 1, r.value, pos);
      }
    }
  }

  lemma ListsAgree(e: EntryVal, d: EntryVal, kind: Kind, o: Out)
    requires d.List(kind) == e.List(kind) && d.trace.keys == e.trace.keys
    ensures ListWritten(d, kind, o) == ListWritten(e, kind, o)
  {
    var r := Put(o, [e.List(kind).count]);
    if r.Ok? {
      ItemsAgree(e, d, kind, 0, r.value, o.s);
    }
  }

  /** All but level and number of metrics. */
  predicate Alike(e: EntryVal, d: EntryVal) {
    d.(level := e.level, metrics := e.metrics) == e
  }

  lemma SectionsAgree(e: EntryVal, d: EntryVal, l: nat, o: Out)
    requires Alike(e, d) && (l == 6 ==> d.metrics == e.metrics)
    ensures SectionWritten(d, l, o) == SectionWritten(e, l, o)
  {
    if 5 <= l <= 8 {
      ListsAgree(e, d, KindOf(l), o);
    }
  }

  /** After the same parts before it, part `k` is the same. */
  predicate AgreeAt(p: Part, q: Part, k: nat, w: seq<byte>) {
    var r := PartsWritten(p, k, w);
    r.Ok? ==> p(k, r.value) == q(k, r.value)
  }

  lemma {:induction false} PartsAgree(p: Part, q: Part, l: nat, w: seq<byte>)
    requires forall k :: 0 <= k < l ==> AgreeAt(p, q, k, w)
    ensures PartsWritten(p, l, w) == PartsWritten(q, l, w)
  {
    if l > 0 {
      PartsAgree(p, q, l - 1, w);
      assert AgreeAt(p, q, l - 1, w);
    }
  }

  lemma LevelsAgree(e: EntryVal, d: EntryVal, l: nat, w: seq<byte>)
    requires Alike(e, d) && l <= 6
    ensures LevelsWritten(d, l, w) == LevelsWritten(e, l, w)
  {
    forall k | 0 <= k < l ensures AgreeAt(Parts(e), Parts(d), k, w) {
      var r := PartsWritten(Parts(e), k, w);
      if r.Ok? {
        SectionsAgree(e, d, k, r.value);
      }
    }
    PartsAgree(Parts(e), Parts(d), l, w);
  }

  /** The sections before the metrics are written, whatever the metrics are. */
  lemma LowWritten(low: Sendable, w: seq<byte>) returns (o: Out)
    requires Capped(low) && low.level == 5 && |w| == MAX_ENTRY_SIZE
    ensures LevelsWritten(low, 6, w) == Ok(o) && |o.w| == |w|
    ensures o.s == 22 + |low.message| + SizeTo(low, Tags, low.tags.count)
  {
    var st := LayoutOf(low);
    TagsEnd(low, st);
    TagsEndAt(low, st);
    LevelsAppend(low, LevelOf(Metrics), w);
    o := LevelsWritten(low, 6, w).value;
  }

  lemma {:induction false} SizesAgree(e: EntryVal, d: EntryVal, n: nat)
    requires HasItems(e, Tags) && d.tags == e.tags && n <= e.tags.count
    ensures SizeTo(d, Tags, n) == SizeTo(e, Tags, n)
  {
    if n > 0 {
      SizesAgree(e, d, n - 1);
    }
  }

  lemma TagsWritten(e: EntryVal, w: seq<byte>) returns (o: Out)
    requires WithinCaps(e) && e.level >= 6 && |w| == MAX_ENTRY_SIZE
    ensures LevelsWritten(e, 6, w) == Ok(o) && o.s + 1 == MetricsAt(e) <= 2358 && |o.w| == |w|
  {
    var low: Sendable := e.(level := 5);
    CapsAgree(low);
    MetricsAtLow(e);
    o := LowWritten(low, w);
    SizesAgree(e, low, e.tags.count);
    LevelsAgree(e, low, 6, w);
  }

  // ---------------------------------------------------------------- too many metrics

  /** The loop over the metrics comes to the index at which there is no trace path. */
  lemma {:induction false} MetricsRunOut(e: EntryVal, i: nat, o: Out, pos: nat)
    requires e.metrics.count > 16 && i <= 16 && Kept(Sixteen(e), Metrics, i, o.s) == 16
    requires forall k :: 0 <= k < 16 ==> Short(e, Metrics, k)
    requires o.s + 260 * (16 - i) <= |o.w|
    ensures ItemsWritten(e, Metrics, i, o, pos).Crash?
    decreases 16 - i
  {
    if i < 16 {
      assert Short(e, Metrics, i);
      ItemTakesSpace(e, Metrics, i);
      ItemAppends(e, Metrics, i, o);
      var r := ItemWritten(e, Metrics, i, o);
      ItemsNext(e, Metrics, i, o, pos, r);
      MetricsRunOut(e, i + 1, r.value, pos);
    }
  }

  /** Where one of the first sixteen does not fit, the loop is left there, as if there were only sixteen. */
  lemma {:induction false} CutAgrees(e: EntryVal, d: EntryVal, n: nat, w: seq<byte>, pos: nat, i: nat, done: seq<byte>)
    requires e.metrics.count > 16 && d == Sixteen(e)
    requires n == Kept(d, Metrics, 0, pos + 1) < 16
    requires Listing(Rows(d, Metrics, n), pos, i, pos + 1 + |done|, done) && pos + 1 + |done| <= |w|
    requires pos + 1 + |Flatten(Rows(d, Metrics, n))| <= |w|
    ensures ItemsWritten(e, Metrics, i, Standing(w, pos, e.metrics.count, done), pos)
         == Ok(Standing(w, pos, n, Flatten(Rows(d, Metrics, n))))
    decreases n - i
  {
    var rows := Rows(d, Metrics, n);
    GuardIff(d, Metrics, n, pos, i, pos + 1 + |done|, done);
    if i < n {
      ListingStep(rows, pos, i, pos + 1 + |done|, done);
      assert rows[i] == Item(e, Metrics, i);
      ItemsStep(e, Metrics, i, w, pos, done, rows[i]);
      CutAgrees(e, d, n, w, pos, i + 1, done + rows[i]);
    } else {
      assert rows[..i] == rows;
      ItemsStop(e, Metrics, i, w, pos, done);
    }
  }

  /** The metrics section panics if the loop comes to the seventeenth metric. */
  lemma PastSection(e: EntryVal, o: Out)
    requires e.metrics.count > 16 && Kept(Sixteen(e), Metrics, 0, o.s + 1) == 16 && forall k :: 0 <= k < 16 ==> Short(e, Metrics, k)
    requires o.s <= 2358 && |o.w| == MAX_ENTRY_SIZE
    ensures ListWritten(e, Metrics, o).Crash?
  {
    ListStarts(e, Metrics, o);
    MetricsRunOut(e, 0, Standing(o.w, o.s, e.metrics.count, []), o.s);
  }

  lemma TrimmedSection(e: EntryVal, d: EntryVal, o: Out)
    requires e.metrics.count > 16 && d == Sixteen(e) && Kept(d, Metrics, 0, o.s + 1) < 16
    requires forall k :: 0 <= k < 16 ==> Short(d, Metrics, k)
    requires o.s <= 2358 && |o.w| == MAX_ENTRY_SIZE
    ensures ListWritten(e, Metrics, o) == ListWritten(d, Metrics, o)
  {
    var n := Kept(d, Metrics, 0, o.s + 1);
    KeptSmall(d, Metrics, 0, o.s + 1);
    KeptEndIs(d, Metrics, 0, o.s + 1, o.s + 1);
    RowsSize(d, Metrics, n);
    ListStarts(e, Metrics, o);
    CutAgrees(e, d, n, o.w, o.s, 0, []);
    AllItemsAppend(d, Metrics, o, n, Flatten(Rows(d, Metrics, n)));
  }

  /** A section that panics is a panic of `Encode`. */
  lemma PanicAt(e: EntryVal, l: nat, o: Out, w: seq<byte>)
    requires l <= e.level && LevelsWritten(e, l, w) == Ok(o) && SectionWritten(e, l, o).Crash?
    ensures Encoded(e, w).Crash?
  {
    LevelsNext(e, l, w, o, Crash);
    CrashStays(Parts(e), l + 1, e.level + 1, w);
  }

  /** `Encode` panics if the metric loop comes to the seventeenth metric. */
  lemma MetricsPanic(e: EntryVal, w: seq<byte>)
    requires WithinCaps(e) && RunsPast(e) && |w| == MAX_ENTRY_SIZE
    ensures Encoded(e, w).Crash?
  {
    var o := TagsWritten(e, w);
    FirstShort(e);
    PastSection(e, o);
    PanicAt(e, 6, o, w);
  }

  /** And otherwise it does to the entry what it does to the trimmed one. */
  lemma TrimmedLevels(e: EntryVal, l: nat, w: seq<byte>)
    requires WithinCaps(e) && TooManyMetrics(e) && !RunsPast(e) && |w| == MAX_ENTRY_SIZE
    ensures LevelsWritten(e, l, w) == LevelsWritten(Trimmed(e), l, w)
  {
    forall k | 0 <= k < l ensures AgreeAt(Parts(e), Parts(Trimmed(e)), k, w) {
      var r := LevelsWritten(e, k, w);
      if r.Ok? {
        TrimmedPart(e, k, w, r.value);
      }
    }
    PartsAgree(Parts(e), Parts(Trimmed(e)), l, w);
  }

  lemma TrimmedPart(e: EntryVal, l: nat, w: seq<byte>, o: Out)
    requires WithinCaps(e) && TooManyMetrics(e) && !RunsPast(e) && |w| == MAX_ENTRY_SIZE
    requires LevelsWritten(e, l, w) == Ok(o)
    ensures SectionWritten(Trimmed(e), l, o) == SectionWritten(e, l, o)
  {
    if l == 6 {
      var o6 := TagsWritten(e, w);
      FirstShort(e);
      TrimmedSection(e, Trimmed(e), o);
      SectionIsListAt6(e, Trimmed(e), o);
    } else {
      SectionsAgree(e, Trimmed(e), l, o);
    }
  }

  lemma SectionIsListAt6(e: EntryVal, d: EntryVal, o: Out)
    ensures SectionWritten(e, 6, o) == ListWritten(e, Metrics, o)
    ensures SectionWritten(d, 6, o) == ListWritten(d, Metrics, o)
  {
  }

  lemma TrimmedEncoded(e: EntryVal, w: seq<byte>)
    requires WithinCaps(e) && !RunsPast(e) && |w| == MAX_ENTRY_SIZE
    ensures Encoded(e, w) == Encoded(Trimmed(e), w)
  {
    if TooManyMetrics(e) {
      TrimmedLevels(e, e.level + 1, w);
    }
  }

  // ---------------------------------------------------------------- no room left

  lemma SectionPanics(e: EntryVal, l: nat, o: Out)
    requires (l == 8 && o.s == |o.w|) || (9 <= l <= 10 && o.s + 2 > |o.w|)
    ensures SectionWritten(e, l, o).Crash?
  {
  }

  /** As far as the sections fit, they are written; one that needs a byte more than there is panics. */
  lemma FullPanics(e: Sendable, l: nat, w: seq<byte>)
    requires l <= e.level && Start(e, l) <= |w|
    requires (l == 8 && Start(e, l) == |w|) || (9 <= l && Start(e, l) + 2 > |w|)
    ensures Encoded(e, w).Crash?
  {
    LevelsAppend(e, l, w);
    var o := LevelsWritten(e, l, w).value;
    SectionPanics(e, l, o);
    PanicAt(e, l, o, w);
  }

  lemma OverflowPanics(e: Sendable, w: seq<byte>)
    requires Capped(e) && |w| == MAX_ENTRY_SIZE < |Record(e)|
    ensures Encoded(e, w).Crash?
  {
    var st := LayoutOf(e);
    SizeCap(e);
    MetaEnd(e, st);
    TtlEnds(e, st);
    if Start(e, 8) == |w| {
      FullPanics(e, 8, w);
    } else if Start(e, 9) + 2 > |w| {
      FullPanics(e, 9, w);
    } else {
      FixedSizes(e, 9, st[9]);
      FullPanics(e, 10, w);
    }
  }

  /** Every entry within its caps, encoded into a slot of 65535 bytes: `Encode` panics if and only if the metric loop comes to
      the seventeenth metric or the record is longer than the slot; otherwise the slot holds the record, and what stood
      behind it. */
  lemma EncodePanicsIff(e: EntryVal, w: seq<byte>)
    requires WithinCaps(e) && |w| == MAX_ENTRY_SIZE
    ensures Encoded(e, w).Crash? <==> RunsPast(e) || |Record(Trimmed(e))| > MAX_ENTRY_SIZE
    ensures Encoded(e, w).Ok? ==>
      Encoded(e, w).value == Out(Record(Trimmed(e)) + w[|Record(Trimmed(e))|..], |Record(Trimmed(e))|)
  {
    CapsAgree(e);
    if RunsPast(e) {
      MetricsPanic(e, w);
    } else {
      TrimmedEncoded(e, w);
      if |Record(Trimmed(e))| > MAX_ENTRY_SIZE {
        OverflowPanics(Trimmed(e), w);
      } else {
        EncodedIsRecord(Trimmed(e), w);
      }
    }
  }
}
