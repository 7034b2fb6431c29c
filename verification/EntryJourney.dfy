/** From the calls that fill in an entry to what the receiver shows. */
module EntryJourney {
  import opened Bytes
  import opened EntryWire
  import opened EntryRoundTrip
  import opened EntryTheorems
  import opened EntrySize
  import opened EntryLaws
  import opened EntryArrival
  import opened EntryWriter
  import opened EntryPanics
  import opened EntryBuilder
  import opened EntryContents

  // ---------------------------------------------------------------- encoding a built entry

  lemma BuiltWithinCaps(e: EntryVal, paths: seq<Str>)
    requires Built(e, paths)
    ensures WithinCaps(e)
    ensures TooManyMetrics(e) <==> e.metrics.count > 16
  {
  }

  lemma CappedPanicsIff(e: EntryVal, paths: seq<Str>, w: seq<byte>)
    requires WithinCaps(e) && e.trace.keys == paths && |w| == MAX_ENTRY_SIZE
    ensures Encoded(e, w).Crash? <==> RunsPast(e) || |Record(Trimmed(e))| > MAX_ENTRY_SIZE
    ensures AllShort(paths) ==> (RunsPast(e) <==> TooManyMetrics(e))
  {
    EncodePanicsIff(e, w);
    if AllShort(paths) {
      RunsPastIff(e);
    }
  }

  /** Encoding a built entry into a slot panics if and only if the metric loop comes to a seventeenth metric or the record is
      too long; with short paths in the pooled entry the former is having more than 16 metrics. */
  lemma BuiltPanicsIff(e: EntryVal, paths: seq<Str>, w: seq<byte>)
    requires Built(e, paths) && |w| == MAX_ENTRY_SIZE
    ensures WithinCaps(e)
    ensures Encoded(e, w).Crash? <==> RunsPast(e) || |Record(Trimmed(e))| > MAX_ENTRY_SIZE
    ensures AllShort(paths) ==> (RunsPast(e) <==> e.metrics.count > 16)
  {
    BuiltWithinCaps(e, paths);
    CappedPanicsIff(e, paths, w);
  }

  /** How long the record of a built entry is: up to level 7 it fits; beyond, what follows the meta section is an empty
      trace and two bytes for each TTL. */
  lemma BuiltSize(e: Sendable, paths: seq<Str>, s: nat)
    requires Built(e, paths)
    requires e.level >= 8 ==> s == Start(e, LevelOf(Trace))
    ensures Capped(e)
    ensures e.level <= 7 ==> |Record(e)| <= MAX_ENTRY_SIZE
    ensures e.level >= 8 ==> |Record(e)| == s + 1 + 2 * (e.level - 8)
  {
    BuiltCapped(e, paths);
    if e.level >= 8 {
      RoomAfterMeta(e, s, Sent(e, Trace, s));
    } else {
      SizeCap(e);
    }
  }

  lemma BuiltCapped(e: Sendable, paths: seq<Str>)
    requires Built(e, paths)
    ensures Capped(e)
  {
    BuiltWithinCaps(e, paths);
    CapsAgree(e);
  }

  /** From 17 metric calls on, whatever else is called, encoding panics, unless a path left in the pooled entry is so long that
      a metric before the seventeenth is cut off. */
  lemma ManyMetricsPanic(prior: EntryVal, h: GoodHeader, tags: seq<Value>, calls: seq<Call>, w: seq<byte>)
    requires AllShort(prior.trace.keys) && MetricCalls(calls) > 16 && |w| == MAX_ENTRY_SIZE
    ensures Encoded(Build(prior, h, tags, calls), w).Crash?
  {
    BuildKeeps(prior, h, tags, calls);
    BuildCountsMetrics(prior, h, tags, calls);
    BuiltPanicsIff(Build(prior, h, tags, calls), prior.trace.keys, w);
  }

  lemma {:induction false} AllMetricCalls(calls: seq<Call>)
    requires forall k :: 0 <= k < |calls| ==> AddsMetric(calls[k])
    ensures MetricCalls(calls) == |calls|
  {
    if |calls| > 0 {
      AllMetricCalls(calls[..|calls| - 1]);
    }
  }

  /** The shortest case: 17 equal metrics on a fresh entry. */
  lemma SeventeenMetricsPanic(h: GoodHeader, w: seq<byte>)
    requires |w| == MAX_ENTRY_SIZE
    ensures Encoded(Build(BLANK, h, [], seq(17, _ => Metric([65], 1))), w).Crash?
  {
    var calls := seq(17, _ => Metric([65], 1));
    AllMetricCalls(calls);
    ManyMetricsPanic(BLANK, h, [], calls, w);
  }

  // ---------------------------------------------------------------- what the receiver shows

  /** For every sequence of calls with at most 16 metrics whose record fits, whatever pool entry and receiver held:
      the codec gives back what it sent, and the receiver shows all of the entry, exactly under these conditions. */
  lemma BuiltArrivesIff(prior: EntryVal, h: GoodHeader, tags: seq<Value>, calls: seq<Call>, e: Sendable, m: Arith, receiver: RawEntry)
    requires e == Build(prior, h, tags, calls) && Shaped(receiver)
    requires |Record(e)| <= MAX_ENTRY_SIZE
    ensures RoundTrips(m, e, receiver) <==> Faithful(e)
    ensures Arrives(m, e, receiver) <==>
      && Faithful(e) && AllSent(e, Metrics) && AllSent(e, Kind.Meta)
      && (EntryTtl(h, calls) != 0 ==> CallsTtl(calls) || CallsMetaTtl(calls))
      && (MetaTtl(h, calls) != 0 ==> CallsMetaTtl(calls))
  {
    BuildKeeps(prior, h, tags, calls);
    BuildTtls(prior, h, tags, calls);
    BuiltCapped(e, prior.trace.keys);
    RoundTripIff(m, e, receiver);
    ArrivesIff(m, e, receiver);
    NoTraceAllSent(e);
  }

  /** The record of `e` is accepted, and the receiver then shows exactly `view`. */
  predicate ArrivesAs(m: Arith, e: Sendable, receiver: RawEntry, view: View) {
    match Decoded(m, Record(e), receiver)
    case Accepted(d) => Counted(d) && d.level == e.level && Shown(d) == view
    case _ => false
  }

  /** From the calls to the receiver: an entry arrives whole if and only if the receiver shows what the header and the calls
      mean: severity, category, message, tags, metrics, pairs and TTLs, each in its place and in order. */
  lemma BuiltArrivesAs(prior: EntryVal, h: GoodHeader, tags: seq<Value>, calls: seq<Call>, e: Sendable, m: Arith, receiver: RawEntry)
    requires e == Build(prior, h, tags, calls)
    ensures Arrives(m, e, receiver) <==> ArrivesAs(m, e, receiver, Meant(h, tags, calls))
  {
    BuildShows(prior, h, tags, calls);
  }

  /** The same for what `Send` hands to the client, with the logger's lists behind the entry's own. */
  lemma MergedArrivesAs(prior: EntryVal, h: GoodHeader, tags: seq<Value>, calls: seq<Call>, c: GoodContext, r: Sendable,
                        m: Arith, receiver: RawEntry)
    requires Counted(Build(prior, h, tags, calls)) && r == Merged(Build(prior, h, tags, calls), c)
    ensures Arrives(m, r, receiver) <==> ArrivesAs(m, r, receiver, WithContext(Meant(h, tags, calls), c))
  {
    BuildShows(prior, h, tags, calls);
    MergedShows(Build(prior, h, tags, calls), c);
  }

  lemma NoTraceAllSent(e: Sendable)
    requires e.trace.count == 0
    ensures AllSent(e, Trace)
  {
  }

  /** On an entry that never had a trace, metrics match no path. */
  lemma FreshMetrics(h: GoodHeader, tags: seq<Value>, calls: seq<Call>, e: Sendable)
    requires e == Build(BLANK, h, tags, calls)
    ensures (e.level >= 6 ==> MetricsMatchPaths(e)) <==> MetricCalls(calls) == 0
    ensures AllSent(e, Metrics)
  {
    BuildKeeps(BLANK, h, tags, calls);
    BuildCountsMetrics(BLANK, h, tags, calls);
    BuiltCapped(e, BLANK.trace.keys);
    SmallListsSent(e);
    if e.level >= LevelOf(Metrics) {
      NoMatch(e, Sent(e, Metrics, Start(e, LevelOf(Metrics))));
    }
  }

  lemma NoMatch(e: EntryVal, n: nat)
    requires n <= 16 && (forall i :: 0 <= i < n ==> 0 < |e.metrics.keys[i]|) && (forall i :: 0 <= i < 16 ==> |e.trace.keys[i]| == 0)
    ensures MatchTo(e, n) <==> n == 0
  {
    if n > 0 {
      assert |e.trace.keys[0]| % 256 != |e.metrics.keys[0]|;
    }
  }

  /** On such an entry, whatever is called, the round trip holds if and only if no call adds a metric and a level 7 record
      does not end with an empty value; and it arrives whole if in addition all meta fits and every TTL was set by a call. */
  lemma FreshArrivesIff(h: GoodHeader, tags: seq<Value>, calls: seq<Call>, e: Sendable, m: Arith, receiver: RawEntry)
    requires e == Build(BLANK, h, tags, calls) && Shaped(receiver) && |Record(e)| <= MAX_ENTRY_SIZE
    ensures RoundTrips(m, e, receiver) <==> MetricCalls(calls) == 0 && (e.level == 7 ==> !EndsEmpty(e))
    ensures Arrives(m, e, receiver) <==>
      && MetricCalls(calls) == 0 && (e.level == 7 ==> !EndsEmpty(e)) && AllSent(e, Kind.Meta)
      && (EntryTtl(h, calls) != 0 ==> CallsTtl(calls) || CallsMetaTtl(calls))
      && (MetaTtl(h, calls) != 0 ==> CallsMetaTtl(calls))
  {
    FreshMetrics(h, tags, calls, e);
    BuiltArrivesIff(BLANK, h, tags, calls, e, m, receiver);
  }

  /** The TTL that the logger gives to every entry is lost unless a TTL call is made. */
  lemma LoggerTtlLost(prior: EntryVal, h: GoodHeader, tags: seq<Value>, calls: seq<Call>, e: Sendable, m: Arith, receiver: RawEntry)
    requires e == Build(prior, h, tags, calls) && Shaped(receiver)
    requires |Record(e)| <= MAX_ENTRY_SIZE
    requires h.ttlEntry != 0 && !CallsTtl(calls) && !CallsMetaTtl(calls)
    ensures !Arrives(m, e, receiver)
  {
    NoTtlCall(h, calls);
    BuiltArrivesIff(prior, h, tags, calls, e, m, receiver);
  }

  lemma {:induction false} NoTtlCall(h: GoodHeader, calls: seq<Call>)
    requires !CallsTtl(calls)
    ensures EntryTtl(h, calls) == h.ttlEntry
  {
    if |calls| > 0 {
      NoTtlCall(h, calls[..|calls| - 1]);
    }
  }

  /** The shortest failure of the round trip: a single metric on a fresh entry. */
  lemma SingleMetricFails(h: GoodHeader, key: Str, n: i32, m: Arith, receiver: RawEntry)
    requires key != [] && Shaped(receiver)
    ensures var e := Build(BLANK, h, [], [Metric(key, n)]); Encodable(e) && !RoundTrips(m, e, receiver)
  {
    var calls := [Metric(key, n)];
    var e := Build(BLANK, h, [], calls);
    AllMetricCalls(calls);
    BuildKeeps(BLANK, h, [], calls);
    BuildCountsMetrics(BLANK, h, [], calls);
    SingleMetricLevel(h, key, n);
    BuiltSize(e, BLANK.trace.keys, 0);
    FreshArrivesIff(h, [], calls, e, m, receiver);
  }

  lemma SingleMetricLevel(h: GoodHeader, key: Str, n: i32)
    ensures Build(BLANK, h, [], [Metric(key, n)]).level == 6
  {
    var calls := [Metric(key, n)];
    assert Build(BLANK, h, [], calls[..0]) == Headed(Reset(BLANK), h);
  }

  lemma SingleMetaIs(h: GoodHeader, key: Str, v: Value)
    requires key != [] && !v.Blank()
    ensures var e := Build(BLANK, h, [], [Call.Meta(key, v)]);
      e.level == 7 && e.metrics.count == 0 && e.meta.count == 1 && e.meta.vals[0] == Truncate(v.s, 65535)
  {
    var calls := [Call.Meta(key, v)];
    assert Build(BLANK, h, [], calls[..0]) == Headed(Reset(BLANK), h);
  }

  /** A single pair with a short key and no value is sent from a low cursor, and leaves the record ending in it. */
  lemma SinglePairSent(e: Sendable, s: nat)
    requires e.level >= 7 && s <= 6518 && e.meta.count == 1 && e.meta.vals[0] == [] && |e.meta.keys[0]| <= 255
    ensures LastEmpty(e, s)
  {
    assert Fits(e, Kind.Meta, 0, s + 1);
  }

  lemma MetaStartsAt(e: Sendable) returns (s: nat)
    requires Capped(e) && e.level >= 7
    ensures s == Start(e, LevelOf(Kind.Meta)) <= 6518
  {
    var st := LayoutAt(e, LevelOf(Kind.Meta));
    MetricsEnd(e, st);
    s := st[7];
  }

  lemma EmptyPairFails(e: Sendable, paths: seq<Str>, m: Arith, receiver: RawEntry)
    requires Built(e, paths) && Shaped(receiver)
    requires e.level == 7 && e.meta.count == 1 && e.meta.vals[0] == []
    ensures !RoundTrips(m, e, receiver)
  {
    BuiltSize(e, paths, 0);
    var s := MetaStartsAt(e);
    SinglePairSent(e, s);
    RoundTripIff(m, e, receiver);
  }

  /** And a single meta value that turns into an empty string without being one. */
  lemma EmptyValueFails(h: GoodHeader, key: Str, m: Arith, receiver: RawEntry)
    requires key != [] && Shaped(receiver)
    ensures var e := Build(BLANK, h, [], [Call.Meta(key, Other([]))]); Encodable(e) && !RoundTrips(m, e, receiver)
  {
    var calls := [Call.Meta(key, Other([]))];
    var e := Build(BLANK, h, [], calls);
    SingleMetaIs(h, key, Other([]));
    BuildKeeps(BLANK, h, [], calls);
    EmptyPairFails(e, BLANK.trace.keys, m, receiver);
  }

  // ---------------------------------------------------------------- with what the logger adds

  /** What the methods of a logger leave in it. */
  predicate ShortContext(c: GoodContext) {
    && AllShort(c.tags) && AllShort(c.metaKeys) && AllShort(c.metricKeys)
    && forall i :: 0 <= i < |c.metaVals| ==> |c.metaVals[i]| <= 65535
  }

  /** What the logger adds is in sections that `Encode` reaches exactly when the entry's own calls had already raised
      the level that far. */
  lemma MergedCoveredIff(e: Listed, c: GoodContext)
    requires Covered(e)
    ensures Covered(Merged(e, c)) <==>
      (c.tags != [] ==> e.level >= 5) && (c.metricKeys != [] ==> e.level >= 6) && (c.metaKeys != [] ==> e.level >= 7)
  {
    MergedCounts(e, c);
  }

  /** Lists made from short strings are of short strings. */
  lemma ShortAfterTake(keys: seq<Str>, count: nat, base: seq<Str>, more: seq<Str>, cap: nat, limit: nat)
    requires count <= |keys| && keys[..count] == Take(base + more, cap)
    requires (forall i :: 0 <= i < |base| ==> |base[i]| <= limit) && (forall i :: 0 <= i < |more| ==> |more[i]| <= limit)
    ensures forall i :: 0 <= i < count ==> |keys[i]| <= limit
  {
    forall i | 0 <= i < count ensures |keys[i]| <= limit {
      assert keys[i] == keys[..count][i] == (base + more)[i];
    }
  }

  lemma MergedTagsShort(sl: Slots, ts: seq<Str>)
    requires ShapedSlots(Tags, sl) && sl.count <= 8 && AllShort(sl.keys[..sl.count]) && AllShort(ts)
    ensures var r := MergeTags(sl, ts, |ts|); r.count <= 8 && forall i :: 0 <= i < r.count ==> |r.keys[i]| <= 255
  {
    var r := MergeTags(sl, ts, |ts|);
    MergeTagsAppends(sl, ts, |ts|);
    ShortAfterTake(r.keys, r.count, sl.keys[..sl.count], ts, 8, 255);
  }

  lemma MergedMetaShort(sl: Slots, keys: seq<Str>, vals: seq<Str>)
    requires ShapedSlots(Kind.Meta, sl) && sl.count <= 32 && |keys| == |vals|
    requires AllShort(sl.keys[..sl.count]) && AllShort(keys)
    requires (forall i :: 0 <= i < sl.count ==> |sl.vals[i]| <= 65535) && (forall i :: 0 <= i < |vals| ==> |vals[i]| <= 65535)
    ensures var r := MergeMeta(sl, keys, vals, |keys|);
      r.count <= 32 && forall i :: 0 <= i < r.count ==> |r.keys[i]| <= 255 && |r.vals[i]| <= 65535
  {
    var r := MergeMeta(sl, keys, vals, |keys|);
    MergeMetaAppends(sl, keys, vals, |keys|);
    ShortAfterTake(r.keys, r.count, sl.keys[..sl.count], keys, 32, 255);
    ShortAfterTake(r.vals, r.count, sl.vals[..sl.count], vals, 32, 65535);
  }

  lemma MergedMetricsShort(sl: Slots, keys: seq<Str>, nums: seq<i32>)
    requires ShapedSlots(Metrics, sl) && sl.count <= 32 && |keys| == |nums|
    requires AllShort(sl.keys[..sl.count]) && AllShort(keys)
    ensures var r := MergeMetrics(sl, keys, nums, |keys|); r.count <= 32 && forall i :: 0 <= i < r.count ==> |r.keys[i]| <= 255
  {
    var r := MergeMetrics(sl, keys, nums, |keys|);
    MergeMetricsAppends(sl, keys, nums, |keys|);
    ShortAfterTake(r.keys, r.count, sl.keys[..sl.count], keys, 32, 255);
  }

  lemma MergedWithinCaps(e: EntryVal, paths: seq<Str>, c: GoodContext)
    requires Built(e, paths) && ShortContext(c)
    ensures WithinCaps(Merged(e, c))
  {
    MergedTagsShort(e.tags, c.tags);
    MergedMetaShort(e.meta, c.metaKeys, c.metaVals);
    MergedMetricsShort(e.metrics, c.metricKeys, c.metricNums);
  }

  /** What `Send` hands to the client, after any calls and with any logger: the codec gives it back exactly when it is
      faithful to it, and the receiver shows all of it exactly when in addition the entry's own calls raised the level
      to what the logger adds, all meta fits, and every TTL is covered. */
  lemma MergedArrivesIff(e: EntryVal, paths: seq<Str>, c: GoodContext, r: Sendable, m: Arith, receiver: RawEntry)
    requires Built(e, paths) && ShortContext(c) && Shaped(receiver)
    requires r == Merged(e, c) && |Record(r)| <= MAX_ENTRY_SIZE
    ensures RoundTrips(m, r, receiver) <==> Faithful(r)
    ensures Arrives(m, r, receiver) <==>
      && Faithful(r) && AllSent(r, Metrics) && AllSent(r, Kind.Meta) && TtlsCovered(e)
      && (c.tags != [] ==> e.level >= 5) && (c.metricKeys != [] ==> e.level >= 6) && (c.metaKeys != [] ==> e.level >= 7)
  {
    MergedWithinCaps(e, paths, c);
    CapsAgree(r);
    RoundTripIff(m, r, receiver);
    ArrivesIff(m, r, receiver);
    NoTraceAllSent(r);
    MergedCoveredIff(e, c);
  }

  /** And it panics exactly when the metric loop comes to a seventeenth metric or the record is too long; with short paths
      the former is that entry and logger have more than 16 metrics together, at a level that writes them. */
  lemma MergedPanicsIff(e: EntryVal, paths: seq<Str>, c: GoodContext, r: EntryVal, w: seq<byte>)
    requires Built(e, paths) && ShortContext(c) && r == Merged(e, c) && |w| == MAX_ENTRY_SIZE
    ensures WithinCaps(r)
    ensures Encoded(r, w).Crash? <==> RunsPast(r) || |Record(Trimmed(r))| > MAX_ENTRY_SIZE
    ensures AllShort(paths) ==> (RunsPast(r) <==> e.level >= 6 && e.metrics.count + |c.metricKeys| > 16)
  {
    MergedWithinCaps(e, paths, c);
    MergedMetrics(e, c, r);
    CappedPanicsIff(r, paths, w);
  }

  lemma MergedMetrics(e: Listed, c: GoodContext, r: EntryVal)
    requires r == Merged(e, c)
    ensures r.level == e.level && r.trace == e.trace && (r.metrics.count > 16 <==> e.metrics.count + |c.metricKeys| > 16)
  {
    MergedCounts(e, c);
  }
}
