/** What an entry holds after any calls, in terms of the calls alone. */
module EntryContents {
  import opened Bytes
  import opened EntryWire
  import opened EntryTheorems
  import opened EntryBuilder

  // ---------------------------------------------------------------- what the calls ask for

  /** The first `n` bytes. */
  function FirstBytes(s: Str, n: nat): Str { s[..Min(n, |s|)] }

  /** The category of the last `Cat` call, or the logger's. */
  function CategoryMeant(h: GoodHeader, calls: seq<Call>): byte {
    if |calls| == 0 then h.categoryId
    else if calls[|calls| - 1].Cat? then calls[|calls| - 1].c
    else CategoryMeant(h, calls[..|calls| - 1])
  }

  /** The tags, as each call appends to them, puts its own before them, or replaces them. */
  function TagsMeant(tags: seq<Value>, calls: seq<Call>): seq<Str> {
    if |calls| == 0 then Take(Cleaned(tags), 8) else
    var before := TagsMeant(tags, calls[..|calls| - 1]);
    match calls[|calls| - 1]
    case Tag(vs) => Take(before + Cleaned(vs), 8)
    case PrependTag(vs) => if before == [] || |vs| >= 8 then Take(Cleaned(vs), 8) else Take(Texts(vs) + before, 8)
    case _ => before
  }

  /** The metrics and the pairs, in the order of the calls; blank ones are not among them. */
  function MetricKeys(calls: seq<Call>): seq<Str> {
    if |calls| == 0 then [] else
    var call := calls[|calls| - 1];
    MetricKeys(calls[..|calls| - 1]) + if call.Metric? && call.key != [] then [FirstBytes(call.key, 255)] else []
  }

  function MetricNums(calls: seq<Call>): seq<i32> {
    if |calls| == 0 then [] else
    var call := calls[|calls| - 1];
    MetricNums(calls[..|calls| - 1]) + if call.Metric? && call.key != [] then [call.n] else []
  }

  predicate AddsPair(call: Call) { call.Meta? && call.key != [] && call.v != Text([]) }

  function MetaKeys(calls: seq<Call>): seq<Str> {
    if |calls| == 0 then [] else
    var call := calls[|calls| - 1];
    MetaKeys(calls[..|calls| - 1]) + if AddsPair(call) then [FirstBytes(call.key, 255)] else []
  }

  function MetaVals(calls: seq<Call>): seq<Str> {
    if |calls| == 0 then [] else
    var call := calls[|calls| - 1];
    MetaVals(calls[..|calls| - 1]) + if AddsPair(call) then [FirstBytes(call.v.s, 65535)] else []
  }

  /** Everything that the entry should show. */
  function Meant(h: GoodHeader, tags: seq<Value>, calls: seq<Call>): View {
    View(h.bucketId, h.id, h.severity, FirstBytes(h.message, 255), CategoryMeant(h, calls),
         ListView(TagsMeant(tags, calls), [], [], []),
         ListView(Take(MetricKeys(calls), 32), Take(MetricNums(calls), 32), [], []),
         ListView(Take(MetaKeys(calls), 32), [], [], Take(MetaVals(calls), 32)),
         ListView([], [], [], []), EntryTtl(h, calls), MetaTtl(h, calls))
  }

  /** The section that a call makes the entry reach. */
  function Reach(call: Call): nat {
    match call
    case Cat(_) => 4
    case Tag(_) => 5
    case PrependTag(_) => 5
    case Metric(_, _) => 6
    case Meta(_, _) => 7
    case TTL(_) => 9
    case MetaTTL(_) => 10
  }

  // ---------------------------------------------------------------- what the entry holds

  predicate HeaderIs(e: RawEntry, h: GoodHeader, calls: seq<Call>) {
    && e.bucketId == h.bucketId && e.id == h.id && e.severity == h.severity
    && e.message == FirstBytes(h.message, 255) && e.categoryId == CategoryMeant(h, calls)
  }

  /** Every header field is in its place, whatever is called. */
  lemma {:induction false} BuildHeader(prior: EntryVal, h: GoodHeader, tags: seq<Value>, calls: seq<Call>)
    ensures HeaderIs(Build(prior, h, tags, calls), h, calls)
  {
    if |calls| > 0 {
      BuildHeader(prior, h, tags, calls[..|calls| - 1]);
      BuildKeeps(prior, h, tags, calls[..|calls| - 1]);
    }
  }

  lemma {:induction false} BuildTags(prior: EntryVal, h: GoodHeader, tags: seq<Value>, calls: seq<Call>)
    ensures var sl := Build(prior, h, tags, calls).tags; sl.count <= 8 && TagList(sl) == TagsMeant(tags, calls)
  {
    if |calls| == 0 {
      RestartShows(prior.tags, tags);
      assert Take(Cleaned([]), 8) == [];
    } else {
      var before := Build(prior, h, tags, calls[..|calls| - 1]);
      BuildTags(prior, h, tags, calls[..|calls| - 1]);
      BuildKeeps(prior, h, tags, calls[..|calls| - 1]);
      TagsNext(before, calls[|calls| - 1], TagsMeant(tags, calls[..|calls| - 1]));
    }
  }

  lemma TagsNext(e: Listed, call: Call, before: seq<Str>)
    requires TagList(e.tags) == before
    ensures var sl := Apply(e, call).tags;
      && sl.count <= 8
      && (call.Tag? ==> TagList(sl) == Take(before + Cleaned(call.vs), 8))
      && (call.PrependTag? ==>
        TagList(sl) == if before == [] || |call.vs| >= 8 then Take(Cleaned(call.vs), 8) else Take(Texts(call.vs) + before, 8))
      && (!call.Tag? && !call.PrependTag? ==> TagList(sl) == before)
  {
    if call.Tag? {
      TagAppends(e.tags, call.vs);
    } else if call.PrependTag? {
      PrependTagShows(e.tags, call.vs);
    }
  }

  lemma TakeAdds<T>(keys: seq<T>, count: nat, before: seq<T>, x: T, cap: nat)
    requires |keys| == cap >= count && keys[..count] == Take(before, cap)
    ensures count < cap ==> keys[count := x][..count + 1] == Take(before + [x], cap)
    ensures count == cap ==> keys[..count] == Take(before + [x], cap)
  {
    assert before + [x][..0] == before && before + [x][..1] == before + [x];
    TakeNext(keys, count, before, [x], 1, cap);
  }

  lemma MetricAdded(sl: Slots, key: Str, n: i32, keys: seq<Str>, nums: seq<i32>)
    requires ShapedSlots(Metrics, sl) && sl.count <= 32
    requires sl.keys[..sl.count] == Take(keys, 32) && sl.nums[..sl.count] == Take(nums, 32)
    ensures var r := AddMetric(sl, key, n);
      r.count <= 32 && r.keys[..r.count] == Take(keys + [key], 32) && r.nums[..r.count] == Take(nums + [n], 32)
  {
    TakeAdds(sl.keys, sl.count, keys, key, 32);
    TakeAdds(sl.nums, sl.count, nums, n, 32);
  }

  lemma PairAdded(sl: Slots, key: Str, val: Str, keys: seq<Str>, vals: seq<Str>)
    requires ShapedSlots(Kind.Meta, sl) && sl.count <= 32
    requires sl.keys[..sl.count] == Take(keys, 32) && sl.vals[..sl.count] == Take(vals, 32)
    ensures var r := AddPair(sl, key, val);
      r.count <= 32 && r.keys[..r.count] == Take(keys + [key], 32) && r.vals[..r.count] == Take(vals + [val], 32)
  {
    TakeAdds(sl.keys, sl.count, keys, key, 32);
    TakeAdds(sl.vals, sl.count, vals, val, 32);
  }

  /** One more call, and the lists that it adds to. */
  lemma CallAdds(e: Listed, call: Call)
    ensures Apply(e, call).metrics == if AddsMetric(call) then AddMetric(e.metrics, FirstBytes(call.key, 255), call.n) else e.metrics
    ensures Apply(e, call).meta ==
      if AddsPair(call) then AddPair(e.meta, FirstBytes(call.key, 255), FirstBytes(call.v.s, 65535)) else e.meta
    ensures Apply(e, call).level == Max(e.level, Reach(call))
  {
    if AddsMetric(call) || AddsPair(call) {
      assert Truncate(call.key, 255) == FirstBytes(call.key, 255);
    }
    if AddsPair(call) {
      assert Truncate(call.v.s, 65535) == FirstBytes(call.v.s, 65535);
    }
  }

  lemma BuildNext(prior: EntryVal, h: GoodHeader, tags: seq<Value>, calls: seq<Call>) returns (e: Listed, init: seq<Call>, call: Call)
    requires |calls| > 0
    ensures init == calls[..|calls| - 1] && call == calls[|calls| - 1]
    ensures e == Build(prior, h, tags, init) && Build(prior, h, tags, calls) == Apply(e, call)
  {
    init, call := calls[..|calls| - 1], calls[|calls| - 1];
    BuildKeeps(prior, h, tags, init);
    e := Build(prior, h, tags, init);
  }

  lemma {:induction false} BuildMetrics(prior: EntryVal, h: GoodHeader, tags: seq<Value>, calls: seq<Call>)
    ensures var sl := Build(prior, h, tags, calls).metrics;
      sl.count <= 32 && sl.keys[..sl.count] == Take(MetricKeys(calls), 32) && sl.nums[..sl.count] == Take(MetricNums(calls), 32)
  {
    if |calls| > 0 {
      BuildMetrics(prior, h, tags, calls[..|calls| - 1]);
      var e, init, call := BuildNext(prior, h, tags, calls);
      CallAdds(e, call);
      if AddsMetric(call) {
        MetricAdded(e.metrics, FirstBytes(call.key, 255), call.n, MetricKeys(init), MetricNums(init));
      } else {
        assert MetricKeys(calls) == MetricKeys(init) && MetricNums(calls) == MetricNums(init);
      }
    }
  }

  lemma {:induction false} BuildMeta(prior: EntryVal, h: GoodHeader, tags: seq<Value>, calls: seq<Call>)
    ensures var sl := Build(prior, h, tags, calls).meta;
      sl.count <= 32 && sl.keys[..sl.count] == Take(MetaKeys(calls), 32) && sl.vals[..sl.count] == Take(MetaVals(calls), 32)
  {
    if |calls| > 0 {
      BuildMeta(prior, h, tags, calls[..|calls| - 1]);
      var e, init, call := BuildNext(prior, h, tags, calls);
      CallAdds(e, call);
      if AddsPair(call) {
        PairAdded(e.meta, FirstBytes(call.key, 255), FirstBytes(call.v.s, 65535), MetaKeys(init), MetaVals(init));
      } else {
        assert MetaKeys(calls) == MetaKeys(init) && MetaVals(calls) == MetaVals(init);
      }
    }
  }

  /** Whatever the pooled entry was used for and whatever is called: the entry shows what the header and the calls mean,
      field by field and item by item, and nothing of its earlier use. */
  lemma BuildShows(prior: EntryVal, h: GoodHeader, tags: seq<Value>, calls: seq<Call>)
    ensures Counted(Build(prior, h, tags, calls)) && Shown(Build(prior, h, tags, calls)) == Meant(h, tags, calls)
  {
    BuildKeeps(prior, h, tags, calls);
    BuildHeader(prior, h, tags, calls);
    BuildTags(prior, h, tags, calls);
    BuildMetrics(prior, h, tags, calls);
    BuildMeta(prior, h, tags, calls);
    BuildTtls(prior, h, tags, calls);
  }

  /** The level is that of the farthest section that a call reaches, and no farther. */
  lemma {:induction false} BuildLevel(prior: EntryVal, h: GoodHeader, tags: seq<Value>, calls: seq<Call>, l: nat)
    requires 5 <= l
    ensures Build(prior, h, tags, calls).level >= l <==> (l == 5 && tags != []) || Reaches(calls, l)
  {
    if |calls| > 0 {
      BuildLevel(prior, h, tags, calls[..|calls| - 1], l);
      var e, init, call := BuildNext(prior, h, tags, calls);
      CallAdds(e, call);
      ReachesNext(calls, l);
    }
  }

  predicate Reaches(calls: seq<Call>, l: nat) {
    exists k :: 0 <= k < |calls| && Reach(calls[k]) >= l
  }

  lemma ReachesNext(calls: seq<Call>, l: nat)
    requires |calls| > 0
    ensures var n := |calls| - 1; Reaches(calls, l) <==> Reaches(calls[..n], l) || Reach(calls[n]) >= l
  {
    var n := |calls| - 1;
    if Reaches(calls[..n], l) {
      var k :| 0 <= k < n && Reach(calls[..n][k]) >= l;
      assert Reach(calls[k]) >= l;
    }
    if Reaches(calls, l) {
      var k :| 0 <= k < |calls| && Reach(calls[k]) >= l;
      assert k < n ==> Reach(calls[..n][k]) >= l;
    }
  }

  // ---------------------------------------------------------------- what `Send` adds

  /** `view` with the logger's lists behind its own. */
  function WithContext(view: View, c: GoodContext): View {
    view.(tags := ListView(Take(view.tags.keys + c.tags, 8), [], [], []),
          metrics := ListView(Take(view.metrics.keys + c.metricKeys, 32), Take(view.metrics.nums + c.metricNums, 32), [], []),
          meta := ListView(Take(view.meta.keys + c.metaKeys, 32), [], [], Take(view.meta.vals + c.metaVals, 32)))
  }

  /** After `Send` the entry shows each list of the logger behind its own list of the same kind, up to the limits, and
      otherwise what it showed before; its level is the same. */
  lemma MergedShows(e: Listed, c: GoodContext)
    ensures Counted(Merged(e, c)) && Shown(Merged(e, c)) == WithContext(Shown(e), c) && Merged(e, c).level == e.level
  {
    MergeTagsAppends(e.tags, c.tags, |c.tags|);
    MergeMetaAppends(e.meta, c.metaKeys, c.metaVals, |c.metaKeys|);
    MergeMetricsAppends(e.metrics, c.metricKeys, c.metricNums, |c.metricKeys|);
    assert c.tags[..|c.tags|] == c.tags && c.metaKeys[..|c.metaKeys|] == c.metaKeys && c.metaVals[..|c.metaKeys|] == c.metaVals;
    assert c.metricKeys[..|c.metricKeys|] == c.metricKeys && c.metricNums[..|c.metricKeys|] == c.metricNums;
  }
}
