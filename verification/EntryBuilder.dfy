/** Filling in an entry: what `log` starts from, the chainable calls, and what `Send` merges in. */
module EntryBuilder {
  import opened Bytes
  import opened EntryWire
  import opened EntryTheorems
  import opened EntryArrival

  /** An argument of type `any`, already turned into a string: given as a string, or as something else.
      Only the empty string itself compares equal to `""`. */
  datatype Value = Text(s: Str) | Other(s: Str) {
    predicate Blank() { this == Text([]) }
  }

  function Truncate(s: Str, n: nat): (r: Str)
    ensures r <= s && |r| == if |s| < n then |s| else n
  {
    if |s| > n then s[..n] else s
  }

  function Max(a: byte, b: byte): byte { if a > b then a else b }

  /** `incLevel`. */
  function Raised(e: EntryVal, l: byte): EntryVal { e.(level := Max(e.level, l)) }

  // ---------------------------------------------------------------- tags

  function Pushed(sl: Slots, key: Str): Slots
    requires ShapedSlots(Tags, sl)
  {
    if sl.count >= 8 then sl else sl.(keys := sl.keys[sl.count := key], count := sl.count + 1)
  }

  /** One round of the loop in `Tag`; once the tags are full nothing changes any more. */
  function AddTag(sl: Slots, v: Value): (r: Slots)
    requires ShapedSlots(Tags, sl)
    ensures ShapedSlots(Tags, r)
  {
    if v.Blank() then sl else Pushed(sl, Truncate(v.s, 255))
  }

  function AddTags(sl: Slots, vs: seq<Value>): (r: Slots)
    requires ShapedSlots(Tags, sl)
    ensures ShapedSlots(Tags, r)
  {
    if |vs| == 0 then sl else AddTag(AddTags(sl, vs[..|vs| - 1]), vs[|vs| - 1])
  }

  /** The strings that `Tag` takes from its arguments. */
  function Cleaned(vs: seq<Value>): seq<Str> {
    if |vs| == 0 then []
    else Cleaned(vs[..|vs| - 1]) + (if vs[|vs| - 1].Blank() then [] else [Truncate(vs[|vs| - 1].s, 255)])
  }

  /** The strings that the loop in `PrependTag` takes: blank ones too. */
  function Texts(vs: seq<Value>): (r: seq<Str>)
    ensures |r| == |vs|
  {
    seq(|vs|, i requires 0 <= i < |vs| => Truncate(vs[i].s, 255))
  }

  /** Overwriting one more slot. */
  lemma TextsNext(vs: seq<Value>, i: nat, keys: seq<Str>)
    requires i < |vs| <= |keys|
    ensures (Texts(vs[..i]) + keys[i..])[i := Truncate(vs[i].s, 255)] == Texts(vs[..i + 1]) + keys[i + 1..]
  {
  }

  function Min(a: nat, b: nat): nat { if a < b then a else b }

  function Take<T>(s: seq<T>, n: nat): seq<T> { s[..Min(n, |s|)] }

  /** The tags of an entry. */
  function TagList(sl: Slots): seq<Str>
    requires ShapedSlots(Tags, sl) && sl.count <= 8
  {
    sl.keys[..sl.count]
  }

  /** One more item into the first free slot, or into none if all are taken. */
  lemma TakeNext<T>(keys: seq<T>, count: nat, base: seq<T>, more: seq<T>, n: nat, cap: nat)
    requires |keys| == cap >= count && 0 < n <= |more| && keys[..count] == Take(base + more[..n - 1], cap)
    ensures count < cap ==> keys[count := more[n - 1]][..count + 1] == Take(base + more[..n], cap)
    ensures count == cap ==> keys[..count] == Take(base + more[..n], cap)
  {
    var all := base + more[..n - 1];
    assert base + more[..n] == all + [more[n - 1]];
    if count < cap {
      assert |Take(all, cap)| == count;
      assert Take(all, cap) == all;
      assert keys[count := more[n - 1]][..count + 1] == keys[..count] + [more[n - 1]];
      assert Take(all + [more[n - 1]], cap) == all + [more[n - 1]];
    } else {
      assert |Take(all, cap)| == cap;
      assert Take(all + [more[n - 1]], cap) == Take(all, cap);
    }
  }

  /** `Tag` appends the non-blank arguments, each cut to 255 bytes, up to 8 tags in all. */
  lemma {:induction false} TagAppends(sl: Slots, vs: seq<Value>)
    requires ShapedSlots(Tags, sl) && sl.count <= 8
    ensures AddTags(sl, vs).count <= 8
    ensures TagList(AddTags(sl, vs)) == Take(TagList(sl) + Cleaned(vs), 8)
  {
    if |vs| > 0 {
      var before, all := Cleaned(vs[..|vs| - 1]), Cleaned(vs);
      TagAppends(sl, vs[..|vs| - 1]);
      if vs[|vs| - 1].Blank() {
        assert all == before;
      } else {
        var r := AddTags(sl, vs[..|vs| - 1]);
        assert all[..|all| - 1] == before && all[..|all|] == all;
        TakeNext(r.keys, r.count, TagList(sl), all, |all|, 8);
      }
    }
  }

  /** The whole array after `PrependTag` moved the old tags up and wrote the new ones below them. */
  function Prepended(sl: Slots, vs: seq<Value>): (r: Slots)
    requires ShapedSlots(Tags, sl) && |vs| < 8 && sl.count <= 8
    ensures ShapedSlots(Tags, r)
  {
    var moved := Min(sl.count, 8 - |vs|);
    sl.(keys := Texts(vs) + sl.keys[..moved] + sl.keys[|vs| + moved..], count := Min(8, sl.count + |vs|))
  }

  function PrependTags(sl: Slots, vs: seq<Value>): (r: Slots)
    requires ShapedSlots(Tags, sl) && sl.count <= 8
    ensures ShapedSlots(Tags, r)
  {
    if sl.count == 0 || |vs| >= 8 then AddTags(sl.(count := 0), vs) else Prepended(sl, vs)
  }

  lemma {:induction false} CleanedIsTexts(vs: seq<Value>)
    requires forall i :: 0 <= i < |vs| ==> !vs[i].Blank()
    ensures Cleaned(vs) == Texts(vs)
  {
    if |vs| > 0 {
      CleanedIsTexts(vs[..|vs| - 1]);
    }
  }

  lemma ShiftUp(first: seq<Str>, keys: seq<Str>, count: nat, rest: seq<Str>)
    requires |first| <= 8 == |keys| && count <= 8
    ensures var moved := Min(count, 8 - |first|);
      (first + keys[..moved] + rest)[..Min(8, count + |first|)] == Take(first + keys[..count], 8)
  {
  }

  lemma PrependedShows(sl: Slots, vs: seq<Value>)
    requires ShapedSlots(Tags, sl) && |vs| < 8 && sl.count <= 8
    ensures TagList(Prepended(sl, vs)) == Take(Texts(vs) + TagList(sl), 8)
  {
    ShiftUp(Texts(vs), sl.keys, sl.count, sl.keys[|vs| + Min(sl.count, 8 - |vs|)..]);
  }

  lemma RestartShows(sl: Slots, vs: seq<Value>)
    requires ShapedSlots(Tags, sl)
    ensures AddTags(sl.(count := 0), vs).count <= 8
    ensures TagList(AddTags(sl.(count := 0), vs)) == Take(Cleaned(vs), 8)
  {
    TagAppends(sl.(count := 0), vs);
    assert TagList(sl.(count := 0)) + Cleaned(vs) == Cleaned(vs);
  }

  /** What `PrependTag` leaves: on the append path the blank arguments are skipped and the old tags
      are gone, on the other path blank arguments count and the old tags follow. */
  lemma PrependTagShows(sl: Slots, vs: seq<Value>)
    requires ShapedSlots(Tags, sl) && sl.count <= 8
    ensures PrependTags(sl, vs).count <= 8
    ensures TagList(PrependTags(sl, vs)) ==
      if sl.count == 0 || |vs| >= 8 then Take(Cleaned(vs), 8) else Take(Texts(vs) + TagList(sl), 8)
  {
    if sl.count == 0 || |vs| >= 8 {
      RestartShows(sl, vs);
    } else {
      PrependedShows(sl, vs);
    }
  }

  /** Without blank arguments, `PrependTag` puts the new tags before the old ones and drops what overflows. */
  lemma PrependTagPrepends(sl: Slots, vs: seq<Value>)
    requires ShapedSlots(Tags, sl) && sl.count <= 8
    requires forall i :: 0 <= i < |vs| ==> !vs[i].Blank()
    ensures PrependTags(sl, vs).count <= 8
    ensures TagList(PrependTags(sl, vs)) == Take(Texts(vs) + TagList(sl), 8)
  {
    PrependTagShows(sl, vs);
    CleanedIsTexts(vs);
    TakeAll(Texts(vs), TagList(sl));
  }

  lemma TakeAll(x: seq<Str>, y: seq<Str>)
    ensures |x| >= 8 || y == [] ==> Take(x + y, 8) == Take(x, 8)
  {
  }

  /** What is left of the moved tags behind the new ones. */
  lemma MovedUp(sl: Slots, vs: seq<Value>, moved: nat)
    requires ShapedSlots(Tags, sl) && |vs| + moved <= 8
    ensures (sl.keys[..|vs|] + sl.keys[..moved] + sl.keys[|vs| + moved..])[|vs|..] == sl.keys[..moved] + sl.keys[|vs| + moved..]
    ensures Texts(vs) + (sl.keys[..moved] + sl.keys[|vs| + moved..]) == Texts(vs) + sl.keys[..moved] + sl.keys[|vs| + moved..]
  {
  }

  lemma {:induction false} FullStays(sl: Slots, vs: seq<Value>, i: nat)
    requires ShapedSlots(Tags, sl) && i <= |vs| && AddTags(sl, vs[..i]).count >= 8
    ensures AddTags(sl, vs) == AddTags(sl, vs[..i])
    decreases |vs|
  {
    if i < |vs| {
      var before := vs[..|vs| - 1];
      assert before[..i] == vs[..i];
      FullStays(sl, before, i);
    } else {
      assert vs[..i] == vs;
    }
  }

  // ---------------------------------------------------------------- calls

  datatype Call =
    | Cat(c: byte)
    | Tag(vs: seq<Value>)
    | PrependTag(vs: seq<Value>)
    | Meta(key: Str, v: Value)
    | Metric(key: Str, n: i32)
    | TTL(days: u16)
    | MetaTTL(days: u16)

  function AddPair(sl: Slots, key: Str, val: Str): (r: Slots)
    requires ShapedSlots(Kind.Meta, sl)
    ensures ShapedSlots(Kind.Meta, r)
  {
    if sl.count >= 32 then sl
    else sl.(keys := sl.keys[sl.count := key], vals := sl.vals[sl.count := val], count := sl.count + 1)
  }

  function AddMetric(sl: Slots, key: Str, n: i32): (r: Slots)
    requires ShapedSlots(Metrics, sl)
    ensures ShapedSlots(Metrics, r)
  {
    if sl.count >= 32 then sl
    else sl.(keys := sl.keys[sl.count := key], nums := sl.nums[sl.count := n], count := sl.count + 1)
  }

  /** An entry whose lists are within their limits. */
  type Listed = e: EntryVal | Counted(e) witness BLANK

  function Apply(e: Listed, call: Call): (r: EntryVal)
  {
    match call
    case Cat(c) => Raised(e, 4).(categoryId := c)
    case Tag(vs) => Raised(e, 5).(tags := AddTags(e.tags, vs))
    case PrependTag(vs) => Raised(e, 5).(tags := PrependTags(e.tags, vs))
    case Meta(key, v) =>
      if key == [] || v.Blank() then Raised(e, 7)
      else Raised(e, 7).(meta := AddPair(e.meta, Truncate(key, 255), Truncate(v.s, 65535)))
    case Metric(key, n) =>
      if key == [] then Raised(e, 6)
      else Raised(e, 6).(metrics := AddMetric(e.metrics, Truncate(key, 255), n))
    case TTL(days) => Raised(e, 9).(ttlEntry := days)
    case MetaTTL(days) => Raised(e, 10).(ttlMeta := days)
  }

  // ---------------------------------------------------------------- the invariant

  /** What the calls keep: counts and strings are within their caps and the level covers every list.
      The trace is not touched, so its paths are still those of an earlier use. */
  predicate Built(e: EntryVal, paths: seq<Str>) {
    && 4 <= e.level <= 10 && Counted(e) && Covered(e)
    && |e.message| <= 255
    && (forall i :: 0 <= i < e.tags.count ==> |e.tags.keys[i]| <= 255)
    && (forall i :: 0 <= i < e.metrics.count ==> 0 < |e.metrics.keys[i]| <= 255)
    && (forall i :: 0 <= i < e.meta.count ==> 0 < |e.meta.keys[i]| <= 255)
    && (forall i :: 0 <= i < e.meta.count ==> |e.meta.vals[i]| <= 65535)
    && e.trace.count == 0 && e.trace.keys == paths
  }

  predicate AllShort(ss: seq<Str>) {
    forall i :: 0 <= i < |ss| ==> |ss[i]| <= 255
  }

  lemma {:induction false} CleanedShort(vs: seq<Value>)
    ensures AllShort(Cleaned(vs))
  {
    if |vs| > 0 {
      CleanedShort(vs[..|vs| - 1]);
    }
  }

  /** Tag lists that come from short tags are short. */
  lemma TagsStayShort(sl: Slots, after: Slots, vs: seq<Value>)
    requires ShapedSlots(Tags, sl) && sl.count <= 8 && AllShort(TagList(sl))
    requires after == AddTags(sl, vs) || after == PrependTags(sl, vs)
    ensures ShapedSlots(Tags, after) && after.count <= 8 && AllShort(TagList(after))
  {
    CleanedShort(vs);
    TagAppends(sl, vs);
    PrependTagShows(sl, vs);
  }

  lemma TagCallKeeps(e: Listed, call: Call, paths: seq<Str>)
    requires Built(e, paths) && (call.Tag? || call.PrependTag?)
    ensures Built(Apply(e, call), paths)
  {
    var sl := Apply(e, call).tags;
    TagsStayShort(e.tags, sl, call.vs);
    forall i | 0 <= i < sl.count ensures |sl.keys[i]| <= 255 {
      assert TagList(sl)[i] == sl.keys[i];
    }
  }

  lemma CallKeeps(e: Listed, call: Call, paths: seq<Str>)
    requires Built(e, paths)
    ensures Built(Apply(e, call), paths)
  {
    if call.Tag? || call.PrependTag? {
      TagCallKeeps(e, call, paths);
    }
  }

  /** What `log` takes from the pool options, the clock, the logger and its caller. */
  datatype Header = Header(
    bucketId: u32, id: seq<byte>, severity: byte, message: Str, ttlEntry: u16, ttlMeta: u16, categoryId: byte)

  type GoodHeader = h: Header | |h.id| == 12 witness Header(0, BLANK.id, 0, [], 0, 0, 0)

  /** `log` before it looks at its tags, on an entry from the pool. */
  function Headed(e: Listed, h: GoodHeader): (r: Listed)
  {
    Raised(RawEntry(h.bucketId, h.id, h.severity, Truncate(h.message, 255), h.categoryId,
                    e.tags, e.metrics, e.meta, e.trace, h.ttlEntry, h.ttlMeta, e.level), 4)
  }

  function Logged(e: Listed, h: GoodHeader, tags: seq<Value>): EntryVal {
    if |tags| == 0 then Headed(e, h) else Apply(Headed(e, h), Tag(tags))
  }

  /** The entry that `log` returns, taken from the pool after the use `prior`. */
  function Started(prior: EntryVal, h: GoodHeader, tags: seq<Value>): EntryVal {
    Logged(Reset(prior), h, tags)
  }

  /** The entry after `calls`. A call on lists beyond their limits does not happen: see `BuildKeeps`. */
  function Build(prior: EntryVal, h: GoodHeader, tags: seq<Value>, calls: seq<Call>): EntryVal {
    if |calls| == 0 then Started(prior, h, tags) else
    var e := Build(prior, h, tags, calls[..|calls| - 1]);
    if Counted(e) then Apply(e, calls[|calls| - 1]) else e
  }

  /** Whatever the pooled entry was used for and whatever is called, in any order and number. */
  lemma {:induction false} BuildKeeps(prior: EntryVal, h: GoodHeader, tags: seq<Value>, calls: seq<Call>)
    ensures Built(Build(prior, h, tags, calls), prior.trace.keys)
  {
    if |calls| == 0 {
      var e := Headed(Reset(prior), h);
      assert Built(e, prior.trace.keys);
      if |tags| > 0 {
        CallKeeps(e, Tag(tags), prior.trace.keys);
      }
    } else {
      BuildKeeps(prior, h, tags, calls[..|calls| - 1]);
      CallKeeps(Build(prior, h, tags, calls[..|calls| - 1]), calls[|calls| - 1], prior.trace.keys);
    }
  }

  predicate AddsMetric(call: Call) { call.Metric? && call.key != [] }

  /** How many metrics the calls try to add. */
  function MetricCalls(calls: seq<Call>): nat {
    if |calls| == 0 then 0
    else MetricCalls(calls[..|calls| - 1]) + (if AddsMetric(calls[|calls| - 1]) then 1 else 0)
  }

  lemma CallCountsMetrics(e: Listed, call: Call)
    ensures Apply(e, call).metrics.count == Min(32, e.metrics.count + (if AddsMetric(call) then 1 else 0))
  {
  }

  lemma {:induction false} BuildCountsMetrics(prior: EntryVal, h: GoodHeader, tags: seq<Value>, calls: seq<Call>)
    ensures Build(prior, h, tags, calls).metrics.count == Min(32, MetricCalls(calls))
  {
    if |calls| > 0 {
      BuildCountsMetrics(prior, h, tags, calls[..|calls| - 1]);
      BuildKeeps(prior, h, tags, calls[..|calls| - 1]);
      CallCountsMetrics(Build(prior, h, tags, calls[..|calls| - 1]), calls[|calls| - 1]);
    }
  }

  /** The entry's TTL after the calls: the logger's, unless a call set another. */
  function EntryTtl(h: GoodHeader, calls: seq<Call>): u16 {
    if |calls| == 0 then h.ttlEntry
    else if calls[|calls| - 1].TTL? then calls[|calls| - 1].days
    else EntryTtl(h, calls[..|calls| - 1])
  }

  function MetaTtl(h: GoodHeader, calls: seq<Call>): u16 {
    if |calls| == 0 then h.ttlMeta
    else if calls[|calls| - 1].MetaTTL? then calls[|calls| - 1].days
    else MetaTtl(h, calls[..|calls| - 1])
  }

  predicate CallsTtl(calls: seq<Call>) {
    |calls| > 0 && (calls[|calls| - 1].TTL? || CallsTtl(calls[..|calls| - 1]))
  }

  predicate CallsMetaTtl(calls: seq<Call>) {
    |calls| > 0 && (calls[|calls| - 1].MetaTTL? || CallsMetaTtl(calls[..|calls| - 1]))
  }

  lemma CallTtls(e: Listed, call: Call)
    requires e.level <= 10
    ensures var r := Apply(e, call);
      && r.ttlEntry == (if call.TTL? then call.days else e.ttlEntry)
      && r.ttlMeta == (if call.MetaTTL? then call.days else e.ttlMeta)
      && (r.level >= 9 <==> e.level >= 9 || call.TTL? || call.MetaTTL?)
      && (r.level == 10 <==> e.level == 10 || call.MetaTTL?)
  {
  }

  /** A TTL taken over from the logger does not raise the level; only the TTL calls do. */
  lemma {:induction false} BuildTtls(prior: EntryVal, h: GoodHeader, tags: seq<Value>, calls: seq<Call>)
    ensures var e := Build(prior, h, tags, calls);
      && e.ttlEntry == EntryTtl(h, calls) && e.ttlMeta == MetaTtl(h, calls)
      && (e.level >= 9 <==> CallsTtl(calls) || CallsMetaTtl(calls)) && (e.level == 10 <==> CallsMetaTtl(calls))
  {
    if |calls| > 0 {
      BuildTtls(prior, h, tags, calls[..|calls| - 1]);
      BuildKeeps(prior, h, tags, calls[..|calls| - 1]);
      CallTtls(Build(prior, h, tags, calls[..|calls| - 1]), calls[|calls| - 1]);
    }
  }

  // ---------------------------------------------------------------- what `Send` merges in

  /** What a logger gives to each of its entries. */
  datatype Context = Context(tags: seq<Str>, metaKeys: seq<Str>, metaVals: seq<Str>, metricKeys: seq<Str>, metricNums: seq<i32>)

  type GoodContext = c: Context | |c.metaKeys| == |c.metaVals| && |c.metricKeys| == |c.metricNums|
    witness Context([], [], [], [], [])

  function MergeTags(sl: Slots, ts: seq<Str>, n: nat): (r: Slots)
    requires ShapedSlots(Tags, sl) && n <= |ts|
    ensures ShapedSlots(Tags, r)
  {
    if n == 0 then sl else Pushed(MergeTags(sl, ts, n - 1), ts[n - 1])
  }

  function MergeMeta(sl: Slots, keys: seq<Str>, vals: seq<Str>, n: nat): (r: Slots)
    requires ShapedSlots(Kind.Meta, sl) && n <= |keys| == |vals|
    ensures ShapedSlots(Kind.Meta, r)
  {
    if n == 0 then sl else AddPair(MergeMeta(sl, keys, vals, n - 1), keys[n - 1], vals[n - 1])
  }

  function MergeMetrics(sl: Slots, keys: seq<Str>, nums: seq<i32>, n: nat): (r: Slots)
    requires ShapedSlots(Metrics, sl) && n <= |keys| == |nums|
    ensures ShapedSlots(Metrics, r)
  {
    if n == 0 then sl else AddMetric(MergeMetrics(sl, keys, nums, n - 1), keys[n - 1], nums[n - 1])
  }

  /** `Send` appends the logger's lists and leaves the level alone. */
  function Merged(e: Listed, c: GoodContext): EntryVal {
    e.(tags := MergeTags(e.tags, c.tags, |c.tags|),
       meta := MergeMeta(e.meta, c.metaKeys, c.metaVals, |c.metaKeys|),
       metrics := MergeMetrics(e.metrics, c.metricKeys, c.metricNums, |c.metricKeys|))
  }

  lemma {:induction false} MergeTagsAppends(sl: Slots, ts: seq<Str>, n: nat)
    requires ShapedSlots(Tags, sl) && sl.count <= 8 && n <= |ts|
    ensures var r := MergeTags(sl, ts, n); r.count <= 8 && r.keys[..r.count] == Take(sl.keys[..sl.count] + ts[..n], 8)
  {
    if n > 0 {
      MergeTagsAppends(sl, ts, n - 1);
      var r := MergeTags(sl, ts, n - 1);
      TakeNext(r.keys, r.count, sl.keys[..sl.count], ts, n, 8);
    }
  }

  lemma {:induction false} MergeMetaAppends(sl: Slots, keys: seq<Str>, vals: seq<Str>, n: nat)
    requires ShapedSlots(Kind.Meta, sl) && sl.count <= 32 && n <= |keys| == |vals|
    ensures var r := MergeMeta(sl, keys, vals, n);
      && r.count <= 32
      && r.keys[..r.count] == Take(sl.keys[..sl.count] + keys[..n], 32)
      && r.vals[..r.count] == Take(sl.vals[..sl.count] + vals[..n], 32)
  {
    if n > 0 {
      MergeMetaAppends(sl, keys, vals, n - 1);
      var r := MergeMeta(sl, keys, vals, n - 1);
      TakeNext(r.keys, r.count, sl.keys[..sl.count], keys, n, 32);
      TakeNext(r.vals, r.count, sl.vals[..sl.count], vals, n, 32);
    }
  }

  lemma {:induction false} MergeMetricsAppends(sl: Slots, keys: seq<Str>, nums: seq<i32>, n: nat)
    requires ShapedSlots(Metrics, sl) && sl.count <= 32 && n <= |keys| == |nums|
    ensures var r := MergeMetrics(sl, keys, nums, n);
      && r.count <= 32
      && r.keys[..r.count] == Take(sl.keys[..sl.count] + keys[..n], 32)
      && r.nums[..r.count] == Take(sl.nums[..sl.count] + nums[..n], 32)
  {
    if n > 0 {
      MergeMetricsAppends(sl, keys, nums, n - 1);
      var r := MergeMetrics(sl, keys, nums, n - 1);
      TakeNext(r.keys, r.count, sl.keys[..sl.count], keys, n, 32);
      TakeNext(r.nums, r.count, sl.nums[..sl.count], nums, n, 32);
    }
  }

  lemma MergedCounts(e: Listed, c: GoodContext)
    ensures Merged(e, c).tags.count == Min(8, e.tags.count + |c.tags|)
    ensures Merged(e, c).meta.count == Min(32, e.meta.count + |c.metaKeys|)
    ensures Merged(e, c).metrics.count == Min(32, e.metrics.count + |c.metricKeys|)
  {
    MergeTagsAppends(e.tags, c.tags, |c.tags|);
    MergeMetaAppends(e.meta, c.metaKeys, c.metaVals, |c.metaKeys|);
    MergeMetricsAppends(e.metrics, c.metricKeys, c.metricNums, |c.metricKeys|);
  }

  // Once a list is full, the rest of a merge changes nothing.

  lemma {:induction false} FullTags(sl: Slots, ts: seq<Str>, i: nat, n: nat)
    requires ShapedSlots(Tags, sl) && i <= n <= |ts| && MergeTags(sl, ts, i).count >= 8
    ensures MergeTags(sl, ts, n) == MergeTags(sl, ts, i)
  {
    if i < n { FullTags(sl, ts, i, n - 1); }
  }

  lemma {:induction false} FullMeta(sl: Slots, keys: seq<Str>, vals: seq<Str>, i: nat, n: nat)
    requires ShapedSlots(Kind.Meta, sl) && i <= n <= |keys| == |vals| && MergeMeta(sl, keys, vals, i).count >= 32
    ensures MergeMeta(sl, keys, vals, n) == MergeMeta(sl, keys, vals, i)
  {
    if i < n { FullMeta(sl, keys, vals, i, n - 1); }
  }

  lemma {:induction false} FullMetrics(sl: Slots, keys: seq<Str>, nums: seq<i32>, i: nat, n: nat)
    requires ShapedSlots(Metrics, sl) && i <= n <= |keys| == |nums| && MergeMetrics(sl, keys, nums, i).count >= 32
    ensures MergeMetrics(sl, keys, nums, n) == MergeMetrics(sl, keys, nums, i)
  {
    if i < n { FullMetrics(sl, keys, nums, i, n - 1); }
  }
}
