/** The log entry object: its fields, and the methods that encode it, reset it and decode into it. */
module Entries {
  import opened Bytes
  import opened EntryWire
  import Writer = EntryWriter
  import Encoder = EntryEncoder
  import B = EntryBuilder
  import opened EntryTheorems
  import opened Template

  type Id = s: seq<byte> | |s| == 12 witness BLANK.id
  type TagSlots = s: Slots | ShapedSlots(Tags, s) witness BLANK.tags
  type MetricSlots = s: Slots | ShapedSlots(Metrics, s) witness BLANK.metrics
  type MetaSlots = s: Slots | ShapedSlots(Meta, s) witness BLANK.meta
  type TraceSlots = s: Slots | ShapedSlots(Trace, s) witness BLANK.trace

  /** How `Decode` ends. A panic is an index or a slice out of range. */
  datatype Verdict = NoError | ErrTooShort | ErrCorruptEntry | Panic

  /** How a round of a decoding loop ends: go on, `break loop`, or a panic. */
  datatype Flow = On | Break | Panicked

  /** A verdict and the entry afterwards are what the specification says; after a panic nothing is promised. */
  predicate Reports(o: Outcome, r: Verdict, e: RawEntry) {
    match o
    case Accepted(d) => r == NoError && e == d
    case TooShort(d) => r == ErrTooShort && e == d
    case Corrupt(d) => r == ErrCorruptEntry && e == d
    case Crashed => r == Panic
  }

  /** The same for one round. */
  predicate Went<T(==)>(p: Res<Progress<T>>, flow: Flow, at: T, s: u16) {
    match p
    case Crash => flow == Panicked
    case Ok(q) => flow == (if q.going then On else Break) && q.at == at && q.s == s
  }

  /** The same for the loop over the levels. When it runs out of levels the counter is left one past the last. */
  predicate Ended(p: Res<Progress<RawEntry>>, flow: Flow, e: RawEntry, s: u16) {
    match p
    case Crash => flow == Panicked
    case Ok(q) => flow != Panicked && s == q.s && e == if q.going then q.at.(level := 11) else q.at
  }

  /** `uint16` addition. */
  function Sum(a: u16, b: u16): (r: u16)
    ensures Add(Wrapping, a, b) == Ok(r)
  {
    if a + b < 0x1_0000 then a + b else a + b - 0x1_0000
  }

  /** What one round makes of the rest of a loop. */
  lemma LoopRound<T>(round: Round<T>, n: nat, x: T, i: nat, s: u16)
    requires i < n
    ensures Loop(round, n, x, i, s) == match round(x, i, s)
      case Crash => Crash
      case Ok(p) => if p.going then Loop(round, n, p.at, i + 1, p.s) else Ok(p)
  {
  }

  // The arrays of one list section, as decoding updates them.

  /** What follows the key of item `i`. */
  method DecodeTail(kind: Kind, i: nat, b: seq<byte>, total: u16, sl0: Slots, start: u16) returns (flow: Flow, sl: Slots, s: u16)
    requires ShapedSlots(kind, sl0) && i < Limit(kind)
    ensures ShapedSlots(kind, sl)
    ensures Went(ParseTail(Wrapping, kind, b, total, sl0, i, start, Sum(start, Width(kind))), flow, sl, s)
  {
    flow, sl, s := On, sl0, start;
    var end := Sum(s, Width(kind));
    if !(s <= end <= |b|) { return Panicked, sl, s; }
    var raw := b[s..end];
    s := end;
    match kind
    case Tags =>
    case Metrics => sl := sl.(nums := sl.nums[i := Signed(Get32(raw))]);
    case Trace => sl := sl.(lines := sl.lines[i := Get16(raw)]);
    case Meta =>
      var valEnd := Sum(s, Get16(raw));
      if valEnd > total { return Break, sl, s; }
      if !(s <= valEnd <= |b|) { return Panicked, sl, s; }
      sl := sl.(vals := sl.vals[i := b[s..valEnd]]);
      s := valEnd;
  }

  /** One round of the loop over the items of a list. */
  method DecodeItem(kind: Kind, i: nat, b: seq<byte>, total: u16, sl0: Slots, start: u16) returns (flow: Flow, sl: Slots, s: u16)
    requires ShapedSlots(kind, sl0) && i < Limit(kind)
    ensures ShapedSlots(kind, sl)
    ensures Went(ParseItem(Wrapping, kind, b, total, sl0, i, start), flow, sl, s)
  {
    sl, s := sl0, start;
    if s >= total { return Break, sl, s; }
    if s >= |b| { return Panicked, sl, s; }
    var size := b[s];
    s := Sum(s, 1);
    var keyEnd := Sum(s, size);
    var end := Sum(keyEnd, Width(kind));
    if end > total || (kind.Meta? && end == total) { return Break, sl, s; }
    if !(s <= keyEnd <= |b|) { return Panicked, sl, s; }
    sl := sl.(keys := sl.keys[i := b[s..keyEnd]]);
    flow, sl, s := DecodeTail(kind, i, b, total, sl, keyEnd);
  }

  /** A list section: the count, then the items. */
  method DecodeList(kind: Kind, b: seq<byte>, total: u16, sl0: Slots, start: u16) returns (flow: Flow, sl: Slots, s: u16)
    requires ShapedSlots(kind, sl0)
    ensures ShapedSlots(kind, sl)
    ensures Went(ParseListSection(Wrapping, kind, b, total, sl0, start), flow, sl, s)
  {
    sl, s := sl0, start;
    if s >= |b| { return Panicked, sl, s; }
    var n := b[s];
    sl := sl.(count := n);
    s := Sum(s, 1);
    if n > Limit(kind) { return Break, sl, s; }
    flow, sl, s := DecodeItems(kind, n, b, total, sl, s);
  }

  /** A round of the loop over the items, and what it leaves to do. */
  method DecodeNext(kind: Kind, n: nat, i: nat, b: seq<byte>, total: u16, sl0: Slots, start: u16) returns (flow: Flow, sl: Slots, s: u16)
    requires ShapedSlots(kind, sl0) && i < n <= Limit(kind)
    ensures ShapedSlots(kind, sl)
    ensures var rest := Loop(ItemRound(Wrapping, kind, b, total), n, sl0, i, start);
      if flow == On then rest == Loop(ItemRound(Wrapping, kind, b, total), n, sl, i + 1, s) else Went(rest, flow, sl, s)
  {
    LoopRound(ItemRound(Wrapping, kind, b, total), n, sl0, i, start);
    flow, sl, s := DecodeItem(kind, i, b, total, sl0, start);
  }

  /** The loop over the items of a list. */
  method DecodeItems(kind: Kind, n: nat, b: seq<byte>, total: u16, sl0: Slots, start: u16) returns (flow: Flow, sl: Slots, s: u16)
    requires ShapedSlots(kind, sl0) && n <= Limit(kind)
    ensures ShapedSlots(kind, sl)
    ensures Went(Loop(ItemRound(Wrapping, kind, b, total), n, sl0, 0, start), flow, sl, s)
  {
    ghost var goal := Loop(ItemRound(Wrapping, kind, b, total), n, sl0, 0, start);
    flow, sl, s := On, sl0, start;
    var i := 0;
    while i < n
      invariant 0 <= i <= n && flow == On && ShapedSlots(kind, sl)
      invariant goal == Loop(ItemRound(Wrapping, kind, b, total), n, sl, i, s)
    {
      flow, sl, s := DecodeNext(kind, n, i, b, total, sl, s);
      if flow != On { return; }
      i := i + 1;
    }
  }

  class Entry {
    var bucketId: u32
    var id: Id
    var severity: byte
    var message: Str
    var categoryId: byte
    var tags: TagSlots
    var metrics: MetricSlots
    var meta: MetaSlots
    var trace: TraceSlots
    var ttlEntry: u16
    var ttlMeta: u16
    var level: byte

    /** A new entry of the pool. */
    constructor ()
      ensures Val() == BLANK
    {
      bucketId, id, severity, message, categoryId := 0, BLANK.id, 0, [], 0;
      tags, metrics, meta, trace := BLANK.tags, BLANK.metrics, BLANK.meta, BLANK.trace;
      ttlEntry, ttlMeta, level := 0, 0, 3;
    }

    function Val(): EntryVal
      reads this
    {
      RawEntry(bucketId, id, severity, message, categoryId, tags, metrics, meta, trace, ttlEntry, ttlMeta, level)
    }

    /** `Encode`, into any buffer. It panics or not as the specification says; where there is room it leaves the
        record and touches nothing behind it. */
    method Encode(b: array<byte>) returns (ok: bool, s: nat)
      requires level < 255
      modifies b
      ensures Writer.Wrote(Writer.Encoded(Val(), old(b[..])), ok, b[..], s)
      ensures Encodable(Val()) && |Record(Val())| <= b.Length ==>
        ok && s == |Record(Val())| && b[..] == Record(Val()) + old(b[..])[s..]
    {
      ok, s := Writer.EncodeInto(Val(), b);
      if Encodable(Val()) && |Record(Val())| <= b.Length {
        Encoder.EncodedIsRecord(Val(), old(b[..]));
      }
    }

    method Reset()
      modifies this
      ensures Val() == EntryWire.Reset(old(Val()))
    {
      id := BLANK.id;
      level := 3;
      tags := tags.(count := 0);
      metrics := metrics.(count := 0);
      meta := meta.(count := 0);
      trace := trace.(count := 0);
      ttlEntry := 0;
      ttlMeta := 0;
    }

    // ------------------------------------------------------------ the chainable calls

    method IncLevel(l: byte)
      modifies this`level
      ensures Val() == B.Raised(old(Val()), l)
    {
      level := B.Max(level, l);
    }

    method Cat(c: byte)
      requires Counted(Val())
      modifies this
      ensures Val() == B.Apply(old(Val()), B.Cat(c))
    {
      IncLevel(4);
      categoryId := c;
    }

    method Tag(vs: seq<B.Value>)
      requires Counted(Val())
      modifies this`level, this`tags
      ensures Val() == B.Apply(old(Val()), B.Tag(vs))
    {
      IncLevel(5);
      var i := 0;
      while i < |vs|
        invariant 0 <= i <= |vs|
        invariant Val() == B.Raised(old(Val()), 5).(tags := B.AddTags(old(tags), vs[..i]))
      {
        if tags.count >= 8 {
          B.FullStays(old(tags), vs, i);
          return;
        }
        assert vs[..i + 1][..i] == vs[..i];
        if vs[i] != B.Text([]) {
          tags := tags.(keys := tags.keys[tags.count := B.Truncate(vs[i].s, 255)], count := tags.count + 1);
        }
        i := i + 1;
      }
      assert vs[..i] == vs;
    }

    method PrependTag(vs: seq<B.Value>)
      requires Counted(Val())
      modifies this`level, this`tags
      ensures Val() == B.Apply(old(Val()), B.PrependTag(vs))
    {
      IncLevel(5);
      if tags.count == 0 || |vs| >= 8 {
        tags := tags.(count := 0);
        Tag(vs);
        return;
      }
      var moved := B.Min(tags.count, 8 - |vs|);
      B.MovedUp(tags, vs, moved);
      tags := tags.(keys := tags.keys[..|vs|] + tags.keys[..moved] + tags.keys[|vs| + moved..]);
      Overwrite(vs);
    }

    /** The loop of `PrependTag`, after the old tags were moved up. */
    method Overwrite(vs: seq<B.Value>)
      requires |vs| <= 8 && tags.count <= 8
      modifies this`tags
      ensures tags == old(tags).(keys := B.Texts(vs) + old(tags).keys[|vs|..], count := B.Min(8, old(tags).count + |vs|))
    {
      var i := 0;
      while i < |vs|
        invariant 0 <= i <= |vs|
        invariant tags == old(tags).(keys := B.Texts(vs[..i]) + old(tags).keys[i..], count := B.Min(8, old(tags).count + i))
      {
        B.TextsNext(vs, i, old(tags).keys);
        tags := tags.(keys := tags.keys[i := B.Truncate(vs[i].s, 255)],
                      count := if tags.count < 8 then tags.count + 1 else tags.count);
        i := i + 1;
      }
      assert vs[..i] == vs;
    }

    method Meta(key: Str, v: B.Value)
      requires Counted(Val())
      modifies this`level, this`meta
      ensures Val() == B.Apply(old(Val()), B.Meta(key, v))
    {
      IncLevel(7);
      if meta.count >= 32 { return; }
      if key == [] || v == B.Text([]) { return; }
      meta := meta.(keys := meta.keys[meta.count := B.Truncate(key, 255)],
                    vals := meta.vals[meta.count := B.Truncate(v.s, 65535)],
                    count := meta.count + 1);
    }

    method Metric(key: Str, n: i32)
      requires Counted(Val())
      modifies this`level, this`metrics
      ensures Val() == B.Apply(old(Val()), B.Metric(key, n))
    {
      IncLevel(6);
      if metrics.count >= 32 { return; }
      if key == [] { return; }
      metrics := metrics.(keys := metrics.keys[metrics.count := B.Truncate(key, 255)],
                          nums := metrics.nums[metrics.count := n],
                          count := metrics.count + 1);
    }

    method TTL(days: u16)
      requires Counted(Val())
      modifies this
      ensures Val() == B.Apply(old(Val()), B.TTL(days))
    {
      IncLevel(9);
      ttlEntry := days;
    }

    method MetaTTL(days: u16)
      requires Counted(Val())
      modifies this
      ensures Val() == B.Apply(old(Val()), B.MetaTTL(days))
    {
      IncLevel(10);
      ttlMeta := days;
    }

    /** `Send`, up to handing the entry to the client: the lists of the logger are appended. */
    method Merge(c: B.GoodContext)
      requires Counted(Val())
      modifies this`tags, this`meta, this`metrics
      ensures Val() == B.Merged(old(Val()), c)
    {
      MergeTags(c.tags);
      MergeMeta(c.metaKeys, c.metaVals);
      MergeMetrics(c.metricKeys, c.metricNums);
    }

    method MergeTags(ts: seq<Str>)
      modifies this`tags
      ensures tags == B.MergeTags(old(tags), ts, |ts|)
    {
      var i := 0;
      while i < |ts|
        invariant 0 <= i <= |ts|
        invariant tags == B.MergeTags(old(tags), ts, i)
      {
        if tags.count >= 8 {
          B.FullTags(old(tags), ts, i, |ts|);
          return;
        }
        tags := tags.(keys := tags.keys[tags.count := ts[i]], count := tags.count + 1);
        i := i + 1;
      }
    }

    method MergeMeta(keys: seq<Str>, vals: seq<Str>)
      requires |keys| == |vals|
      modifies this`meta
      ensures meta == B.MergeMeta(old(meta), keys, vals, |keys|)
    {
      var i := 0;
      while i < |keys|
        invariant 0 <= i <= |keys|
        invariant meta == B.MergeMeta(old(meta), keys, vals, i)
      {
        if meta.count >= 32 {
          B.FullMeta(old(meta), keys, vals, i, |keys|);
          return;
        }
        meta := meta.(keys := meta.keys[meta.count := keys[i]], vals := meta.vals[meta.count := vals[i]], count := meta.count + 1);
        i := i + 1;
      }
    }

    method MergeMetrics(keys: seq<Str>, nums: seq<i32>)
      requires |keys| == |nums|
      modifies this`metrics
      ensures metrics == B.MergeMetrics(old(metrics), keys, nums, |keys|)
    {
      var i := 0;
      while i < |keys|
        invariant 0 <= i <= |keys|
        invariant metrics == B.MergeMetrics(old(metrics), keys, nums, i)
      {
        if metrics.count >= 32 {
          B.FullMetrics(old(metrics), keys, nums, i, |keys|);
          return;
        }
        metrics := metrics.(keys := metrics.keys[metrics.count := keys[i]], nums := metrics.nums[metrics.count := nums[i]], count := metrics.count + 1);
        i := i + 1;
      }
    }

    // ------------------------------------------------------------ rendering

    method String() returns (out: Str)
      requires |message| <= 255 || |message| % 256 != 255 || message[254] != PERCENT
      requires tags.count <= 8
      ensures out == Rendered(message, 0, |message| % 256, tags.keys[..tags.count], 0)
      ensures |message| <= 255 ==> out == Render(message, tags.keys[..tags.count])
    {
      out := Expand(message, tags.keys[..tags.count]);
    }

    // ------------------------------------------------------------ decoding

    method SetList(kind: Kind, s: Slots)
      requires ShapedSlots(kind, s)
      modifies this
      ensures Val() == old(Val()).WithList(kind, s)
    {
      match kind
      case Tags => tags := s;
      case Metrics => metrics := s;
      case Meta => meta := s;
      case Trace => trace := s;
    }

    method DecodeMessage(b: seq<byte>, total: u16, start: u16) returns (flow: Flow, s: u16)
      modifies this
      ensures Went(ParseMessage(Wrapping, b, total, old(Val()), start), flow, Val(), s)
    {
      s := start;
      if s >= |b| { return Panicked, s; }
      var size := b[s];
      s := Sum(s, 1);
      var end := Sum(s, size);
      if end > total { return Break, s; }
      if !(s <= end <= |b|) { return Panicked, s; }
      message := b[s..end];
      return On, end;
    }

    /** The section of level `level`. */
    method DecodeSection(b: seq<byte>, total: u16, start: u16) returns (flow: Flow, s: u16)
      modifies this
      ensures Went(ParseSection(Wrapping, b, total, old(Val()), old(level), start), flow, Val(), s)
      ensures flow != Panicked ==> level == old(level)
    {
      s := start;
      match level
      case 0 =>
        if s + 4 > |b| { return Panicked, s; }
        bucketId := Get32(b[s..s + 4]);
        return On, Sum(s, 4);
      case 1 =>
        var end := Sum(s, 12);
        if !(s <= end <= |b|) { return Panicked, s; }
        id := b[s..end];
        return On, end;
      case 2 =>
        if s >= |b| { return Panicked, s; }
        severity := b[s];
        return On, Sum(s, 1);
      case 3 =>
        flow, s := DecodeMessage(b, total, s);
      case 4 =>
        if s >= |b| { return Panicked, s; }
        categoryId := b[s];
        return On, Sum(s, 1);
      case _ =>
        if level <= 8 {
          flow, s := DecodeLists(b, total, s);
        } else {
          flow, s := DecodeTtl(b, total, s);
        }
    }

    /** The section of a level that holds a list. */
    method DecodeLists(b: seq<byte>, total: u16, start: u16) returns (flow: Flow, s: u16)
      requires 5 <= level <= 8
      modifies this
      ensures Went(ParseSection(Wrapping, b, total, old(Val()), old(level), start), flow, Val(), s)
      ensures level == old(level)
    {
      var sl;
      flow, sl, s := DecodeList(KindOf(level), b, total, Val().List(KindOf(level)), start);
      SetList(KindOf(level), sl);
    }

    /** The section of a level that holds a TTL. */
    method DecodeTtl(b: seq<byte>, total: u16, start: u16) returns (flow: Flow, s: u16)
      requires level >= 9
      modifies this`ttlEntry, this`ttlMeta
      ensures Went(ParseSection(Wrapping, b, total, old(Val()), level, start), flow, Val(), s)
    {
      s := start;
      if level == 9 {
        if Sum(s, 2) > total { return Break, s; }
        if s + 2 > |b| { return Panicked, s; }
        ttlEntry := Get16(b[s..s + 2]);
        return On, Sum(s, 2);
      }
      if s + 2 > |b| { return Panicked, s; }
      ttlMeta := Get16(b[s..s + 2]);
      return On, Sum(s, 2);
    }

    /** One round of the loop over the levels. */
    method DecodeLevel(l: byte, b: seq<byte>, total: u16, start: u16) returns (flow: Flow, s: u16)
      modifies this
      ensures Went(LevelRound(Wrapping, b, total)(old(Val()), l, start), flow, Val(), s)
    {
      level := l;
      flow, s := DecodeSection(b, total, start);
      if flow == On && s >= total { flow := Break; }
    }

    /** The loop over the levels. */
    method DecodeLevels(b: seq<byte>, total: u16, ghost round: Round<RawEntry>) returns (flow: Flow, s: u16)
      requires round == LevelRound(Wrapping, b, total)
      modifies this
      ensures Ended(Loop(round, 11, old(Val()), 0, 2), flow, Val(), s)
    {
      ghost var goal := Loop(round, 11, Val(), 0, 2);
      var l: byte := 0;
      flow, s := On, 2;
      while l < 11
        invariant l <= 11 && flow == On
        invariant goal == Loop(round, 11, Val(), l, s)
      {
        LoopRound(round, 11, Val(), l, s);
        flow, s := DecodeLevel(l, b, total, s);
        if flow != On { return; }
        l := l + 1;
      }
      level := l;
    }

    /** `Decode`, copying. Whatever the bytes are, it does what the specification says. */
    method Decode(b: seq<byte>) returns (r: Verdict)
      modifies this
      ensures Reports(Decoded(Wrapping, b, old(Val())), r, Val())
    {
      Reset();
      if |b| < 18 { return ErrTooShort; }
      var total := Get16(b[..2]);
      if |b| % 0x1_0000 != total { return ErrCorruptEntry; }
      var flow, s := DecodeLevels(b, total, LevelRound(Wrapping, b, total));
      if flow == Panicked { return Panic; }
      r := if s != total then ErrCorruptEntry else NoError;
    }
  }
}
