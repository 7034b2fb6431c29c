/** The laws of the entry codec: round trip, size cap, cursor arithmetic. */
module EntryTheorems {
  import opened Bytes
  import opened EntryWire
  import opened EntryRoundTrip

  // ---------------------------------------------------------------- where the sections stand

  lemma {:induction false} ChainHolds(section: Writer, b: seq<byte>, l: nat, top: nat)
    requires l < top && Holds(b, 2, Chain(section, top))
    ensures var s := 2 + |Chain(section, l)|;
            Holds(b, s, section(l, s)) && 2 + |Chain(section, l + 1)| == s + |section(l, s)| <= 2 + |Chain(section, top)|
    decreases top
  {
    HoldsSplit(b, 2, Chain(section, top - 1), section(top - 1, 2 + |Chain(section, top - 1)|));
    if l < top - 1 {
      ChainHolds(section, b, l, top - 1);
    }
  }

  /** Each section of a record is found where the ones before it end. */
  lemma BodyHolds(e: Sendable, b: seq<byte>, l: nat)
    requires l <= e.level
    requires Holds(b, 2, Body(e, e.level + 1))
    ensures Holds(b, Start(e, l), Section(e, l, Start(e, l)))
    ensures Start(e, l + 1) == Start(e, l) + |Section(e, l, Start(e, l))| <= Start(e, e.level + 1) <= |b|
  {
    var section := Sections(e);
    ChainHolds(section, b, l, e.level + 1);
    assert section(l, Start(e, l)) == Section(e, l, Start(e, l));
  }

  lemma SectionTakesSpace(e: Sendable, l: nat, s: nat)
    requires l <= e.level
    ensures |Section(e, l, s)| > 0
  {
  }

  /** How many items of `kind`, from the first on, reach the wire when their section starts at cursor `s`. */
  function Sent(e: Sendable, kind: Kind, s: nat): (n: nat)
    requires LevelOf(kind) <= e.level
    ensures HasItems(e, kind) && n <= e.List(kind).count
  {
    Kept(e, kind, 0, s + 1)
  }

  lemma SectionIsList(e: Sendable, kind: Kind, s: nat)
    requires LevelOf(kind) <= e.level
    ensures Section(e, LevelOf(kind), s) == [Sent(e, kind, s)] + Flatten(Rows(e, kind, Sent(e, kind, s)))
  {
  }

  // ---------------------------------------------------------------- what the decoder makes of them

  /** `d` with the section of level `l`, which started at cursor `s`, taken over from `e`. */
  function Took(e: Sendable, d: RawEntry, l: nat, s: nat): (r: RawEntry)
    requires Shaped(d) && l <= e.level
    ensures Shaped(r) && r.level == d.level
  {
    if l == 0 then d.(bucketId := e.bucketId)
    else if l == 1 then d.(id := e.id)
    else if l == 2 then d.(severity := e.severity)
    else if l == 3 then d.(message := e.message)
    else if l == 4 then d.(categoryId := e.categoryId)
    else if l <= 8 then
      var kind := KindOf(l);
      var n := Sent(e, kind, s);
      d.WithList(kind, FilledTo(e, kind, d.List(kind).(count := n), n))
    else if l == 9 then d.(ttlEntry := e.ttlEntry)
    else d.(ttlMeta := e.ttlMeta)
  }

  /** Nothing in the section is too long for its length field, every length field of it is right, and
      it does not end in a meta value that the decoder's strict test rejects. */
  predicate GoodSection(e: Sendable, l: nat, s: nat, end: nat, size: nat)
    requires l <= e.level
  {
    && (l == 3 ==> |e.message| <= 255)
    && (5 <= l <= 8 ==>
          var kind := KindOf(l);
          var n := Sent(e, kind, s);
          && (forall i :: 0 <= i < n ==> GoodItem(e, kind, i))
          && Followed(e, kind, n, end, size))
  }

  lemma ListSectionHeld(e: EntryVal, kind: Kind, n: nat, b: seq<byte>, s: nat, end: nat) returns (at: seq<nat>)
    requires HasItems(e, kind) && n <= e.List(kind).count
    requires Holds(b, s, [n] + Flatten(Rows(e, kind, n))) && end == s + |[n] + Flatten(Rows(e, kind, n))|
    ensures Placed(e, kind, b, at) && |at| == n + 1
    ensures s < |b| && b[s] == n
    ensures at[0] == s + 1 && at[n] == end <= |b|
  {
    var rows := Rows(e, kind, n);
    HoldsSplit(b, s, [n], Flatten(rows));
    HeldByte(b, s, n);
    RowsPlaced(e, kind, b, s + 1, n);
    at := Offsets(rows, s + 1);
  }

  /** After the count byte, a list section is the loop over its items. */
  lemma ListSectionLoops(m: Arith, kind: Kind, b: seq<byte>, sl: Slots, s: nat, n: nat)
    requires s < |b| <= MAX_ENTRY_SIZE && b[s] == n <= Limit(kind)
    ensures ParseListSection(m, kind, b, |b|, sl, s) == Loop(ItemRound(m, kind, b, |b|), n, sl.(count := n), 0, s + 1)
  {
  }

  lemma ListSectionParses(m: Arith, e: EntryVal, kind: Kind, n: nat, sl: Slots, b: seq<byte>, at: seq<nat>)
    requires ShapedSlots(kind, sl) && |b| <= MAX_ENTRY_SIZE
    requires Placed(e, kind, b, at) && |at| == n + 1 && at[0] > 0 && b[at[0] - 1] == n
    requires forall i :: 0 <= i < n ==> GoodItem(e, kind, i)
    requires Followed(e, kind, n, at[n], |b|)
    ensures ParseListSection(m, kind, b, |b|, sl, at[0] - 1)
         == Ok(Progress(true, FilledTo(e, kind, sl.(count := n), n), at[n]))
  {
    ListSectionLoops(m, kind, b, sl, at[0] - 1, n);
    ListAdvances(m, e, kind, b, at, sl.(count := n), n);
  }

  lemma FixedSectionParses(m: Arith, e: Sendable, d: RawEntry, b: seq<byte>, l: nat, s: nat)
    requires Shaped(d) && l <= e.level && |b| <= MAX_ENTRY_SIZE
    requires (l <= 4 && l != 3) || 9 <= l
    requires Holds(b, s, Section(e, l, s))
    ensures ParseSection(m, b, |b|, d, l, s) == Ok(Progress(true, Took(e, d, l, s), s + |Section(e, l, s)|))
  {
    HoldsSlice(b, s, Section(e, l, s));
    if l == 0 {
      Put32Inverse(e.bucketId, [0, 0, 0, 0]);
    } else if l >= 9 {
      Put16Inverse(if l == 9 then e.ttlEntry else e.ttlMeta, [0, 0]);
    }
  }

  lemma MessageParses(m: Arith, e: EntryVal, d: RawEntry, b: seq<byte>, s: nat)
    requires |b| <= MAX_ENTRY_SIZE && |e.message| <= 255
    requires Holds(b, s, [|e.message|] + e.message)
    ensures ParseMessage(m, b, |b|, d, s) == Ok(Progress(true, d.(message := e.message), s + 1 + |e.message|))
  {
    HoldsSplit(b, s, [|e.message|], e.message);
    HeldByte(b, s, |e.message|);
    HoldsSlice(b, s + 1, e.message);
  }

  lemma ListLevelParses(m: Arith, e: EntryVal, kind: Kind, n: nat, d: RawEntry, b: seq<byte>, s: nat, end: nat)
    requires HasItems(e, kind) && n <= e.List(kind).count && Shaped(d) && |b| <= MAX_ENTRY_SIZE
    requires Holds(b, s, [n] + Flatten(Rows(e, kind, n))) && end == s + |[n] + Flatten(Rows(e, kind, n))|
    requires forall i :: 0 <= i < n ==> GoodItem(e, kind, i)
    requires Followed(e, kind, n, end, |b|)
    ensures end <= |b|
    ensures ParseSection(m, b, |b|, d, LevelOf(kind), s)
         == Ok(Progress(true, d.WithList(kind, FilledTo(e, kind, d.List(kind).(count := n), n)), end))
  {
    ListHeldParses(m, e, kind, n, d.List(kind), b, s, end);
    ListLevelIsSection(m, kind, b, d, s);
  }

  lemma ListHeldParses(m: Arith, e: EntryVal, kind: Kind, n: nat, sl: Slots, b: seq<byte>, s: nat, end: nat)
    requires HasItems(e, kind) && n <= e.List(kind).count && ShapedSlots(kind, sl) && |b| <= MAX_ENTRY_SIZE
    requires Holds(b, s, [n] + Flatten(Rows(e, kind, n))) && end == s + |[n] + Flatten(Rows(e, kind, n))|
    requires forall i :: 0 <= i < n ==> GoodItem(e, kind, i)
    requires Followed(e, kind, n, end, |b|)
    ensures s < end <= |b|
    ensures ParseListSection(m, kind, b, |b|, sl, s) == Ok(Progress(true, FilledTo(e, kind, sl.(count := n), n), end))
  {
    var at := ListSectionHeld(e, kind, n, b, s, end);
    ListSectionParses(m, e, kind, n, sl, b, at);
  }

  lemma ListLevelIsSection(m: Arith, kind: Kind, b: seq<byte>, d: RawEntry, s: u16)
    requires |b| <= MAX_ENTRY_SIZE
    ensures var p := ParseListSection(m, kind, b, |b|, d.List(kind), s);
            ParseSection(m, b, |b|, d, LevelOf(kind), s)
              == if p.Crash? then Crash else Ok(Progress(p.value.going, d.WithList(kind, p.value.at), p.value.s))
  {
  }

  /** A section is decoded as it was written. */
  lemma SectionParses(m: Arith, e: Sendable, d: RawEntry, b: seq<byte>, l: nat, s: nat, end: nat)
    requires Shaped(d) && l <= e.level && |b| <= MAX_ENTRY_SIZE
    requires Holds(b, s, Section(e, l, s)) && end == s + |Section(e, l, s)|
    requires GoodSection(e, l, s, end, |b|)
    ensures ParseSection(m, b, |b|, d, l, s) == Ok(Progress(true, Took(e, d, l, s), end))
  {
    if l == 3 {
      MessageParses(m, e, d, b, s);
    } else if 5 <= l <= 8 {
      ListLevelParses(m, e, KindOf(l), Sent(e, KindOf(l), s), d, b, s, end);
    } else {
      FixedSectionParses(m, e, d, b, l, s);
    }
  }

  // ---------------------------------------------------------------- the level loop

  /** An entry that held `prior`, after the sections of `e` below level `l` were decoded into it. */
  function Image(e: Sendable, prior: RawEntry, l: nat): (d: RawEntry)
    requires Shaped(prior) && l <= e.level + 1
    ensures Shaped(d) && (l > 0 ==> d.level == l - 1)
  {
    if l == 0 then Reset(prior)
    else Took(e, Image(e, prior, l - 1).(level := l - 1), l - 1, Start(e, l - 1))
  }

  /** Section `l` of the record of `e` is good. */
  predicate Good(e: Sendable, l: nat)
    requires l <= e.level
  {
    GoodSection(e, l, Start(e, l), Start(e, l + 1), Start(e, e.level + 1))
  }

  lemma LevelIsSection(m: Arith, b: seq<byte>, total: u16, d: RawEntry, l: byte, s: u16, p: Progress<RawEntry>)
    requires ParseSection(m, b, total, d.(level := l), l, s) == Ok(p)
    ensures ParseLevel(m, b, total, d, l, s) == Ok(p.(going := p.going && p.s < total))
  {
  }

  lemma LevelParses(m: Arith, e: Sendable, d: RawEntry, b: seq<byte>, l: nat, s: nat, end: nat)
    requires Shaped(d) && l <= e.level && |b| <= MAX_ENTRY_SIZE
    requires Holds(b, s, Section(e, l, s)) && end == s + |Section(e, l, s)|
    requires GoodSection(e, l, s, end, |b|)
    ensures ParseLevel(m, b, |b|, d, l, s) == Ok(Progress(end < |b|, Took(e, d.(level := l), l, s), end))
  {
    SectionParses(m, e, d.(level := l), b, l, s, end);
    LevelIsSection(m, b, |b|, d, l, s, Progress(true, Took(e, d.(level := l), l, s), end));
  }

  lemma SectionBounds(e: Sendable, b: seq<byte>, l: nat)
    requires l <= e.level
    requires Holds(b, 2, Body(e, e.level + 1)) && |b| == Start(e, e.level + 1)
    ensures Holds(b, Start(e, l), Section(e, l, Start(e, l)))
    ensures Start(e, l) < Start(e, l + 1) == Start(e, l) + |Section(e, l, Start(e, l))| <= |b|
    ensures Start(e, l + 1) < |b| <==> l < e.level
  {
    BodyHolds(e, b, l);
    SectionTakesSpace(e, l, Start(e, l));
    if l < e.level {
      BodyHolds(e, b, l + 1);
      SectionTakesSpace(e, l + 1, Start(e, l + 1));
    }
  }

  lemma LevelRoundRuns(m: Arith, e: Sendable, d: RawEntry, b: seq<byte>, l: nat)
    requires Shaped(d) && l <= e.level && |b| <= MAX_ENTRY_SIZE
    requires Holds(b, 2, Body(e, e.level + 1)) && |b| == Start(e, e.level + 1)
    requires Good(e, l)
    ensures Start(e, l) < Start(e, l + 1) <= |b|
    ensures LevelRound(m, b, |b|)(d, l, Start(e, l))
         == Ok(Progress(l < e.level, Took(e, d.(level := l), l, Start(e, l)), Start(e, l + 1)))
  {
    SectionBounds(e, b, l);
    LevelParses(m, e, d, b, l, Start(e, l), Start(e, l + 1));
  }

  lemma ImageRoundRuns(m: Arith, e: Sendable, prior: RawEntry, b: seq<byte>, l: nat)
    requires Shaped(prior) && l <= e.level && |b| <= MAX_ENTRY_SIZE
    requires Holds(b, 2, Body(e, e.level + 1)) && |b| == Start(e, e.level + 1)
    requires Good(e, l)
    ensures Start(e, l) < Start(e, l + 1) <= |b|
    ensures LevelRound(m, b, |b|)(Image(e, prior, l), l, Start(e, l))
         == Ok(Progress(l < e.level, Image(e, prior, l + 1), Start(e, l + 1)))
  {
    LevelRoundRuns(m, e, Image(e, prior, l), b, l);
  }

  /** `b` is as long as the record of `e` and holds its sections. */
  predicate Carries(b: seq<byte>, e: Sendable) {
    Holds(b, 2, Body(e, e.level + 1)) && |b| == Start(e, e.level + 1) <= MAX_ENTRY_SIZE
  }

  /** Round `k` of a loop takes it from `xs[k]` at cursor `at[k]` to `xs[k + 1]` at `at[k + 1]`. */
  predicate GoesOn<T(==)>(round: Round<T>, xs: seq<T>, at: seq<u16>, k: nat)
    requires k + 1 < |xs| && k + 1 < |at|
  {
    round(xs[k], k, at[k]) == Ok(Progress(true, xs[k + 1], at[k + 1]))
  }

  lemma {:induction false} LoopReaches<T>(round: Round<T>, n: nat, xs: seq<T>, at: seq<u16>, j: nat)
    requires j <= n && j < |xs| && j < |at|
    requires forall k :: 0 <= k < j ==> GoesOn(round, xs, at, k)
    ensures Loop(round, n, xs[0], 0, at[0]) == Loop(round, n, xs[j], j, at[j])
  {
    if j > 0 {
      LoopReaches(round, n, xs, at, j - 1);
      assert GoesOn(round, xs, at, j - 1);
    }
  }

  /** What the loop over the levels holds, and where it stands, up to level `j`. */
  lemma LevelStates(e: Sendable, prior: RawEntry, b: seq<byte>, j: nat) returns (xs: seq<RawEntry>, at: seq<u16>)
    requires Shaped(prior) && j <= e.level && Carries(b, e)
    ensures |xs| == |at| == j + 1
    ensures forall l :: 0 <= l <= j ==> xs[l] == Image(e, prior, l)
    ensures forall l :: 0 <= l <= j ==> at[l] == Start(e, l) <= |b|
  {
    xs := seq(j + 1, l requires 0 <= l <= j => Image(e, prior, l));
    var starts := seq(j + 1, l requires 0 <= l <= j => Start(e, l));
    forall l | 0 <= l <= j ensures starts[l] == Start(e, l) <= |b| {
      BodyHolds(e, b, l);
    }
    at := starts;
  }

  lemma LevelGoesOn(m: Arith, e: Sendable, prior: RawEntry, b: seq<byte>, l: nat, xs: seq<RawEntry>, at: seq<u16>)
    requires Shaped(prior) && l < e.level && Carries(b, e) && Good(e, l)
    requires l + 1 < |xs| && xs[l] == Image(e, prior, l) && xs[l + 1] == Image(e, prior, l + 1)
    requires l + 1 < |at| && at[l] == Start(e, l) && at[l + 1] == Start(e, l + 1)
    ensures GoesOn(LevelRound(m, b, |b|), xs, at, l)
  {
    ImageRoundRuns(m, e, prior, b, l);
  }

  /** The sections below level `j` are decoded as they were written, and the loop goes on from there. */
  lemma LevelsAdvance(m: Arith, e: Sendable, prior: RawEntry, b: seq<byte>, j: nat)
    requires Shaped(prior) && j <= e.level && Carries(b, e)
    requires forall l :: 0 <= l < j ==> Good(e, l)
    ensures Start(e, j) <= |b|
    ensures Loop(LevelRound(m, b, |b|), 11, Reset(prior), 0, 2)
         == Loop(LevelRound(m, b, |b|), 11, Image(e, prior, j), j, Start(e, j))
  {
    var xs, at := LevelStates(e, prior, b, j);
    forall l | 0 <= l < j ensures GoesOn(LevelRound(m, b, |b|), xs, at, l) {
      LevelGoesOn(m, e, prior, b, l, xs, at);
    }
    LoopReaches(LevelRound(m, b, |b|), 11, xs, at, j);
  }

  /** The decoder gives back the image of the entry, in 16-bit arithmetic as in checked arithmetic. */
  lemma RecordDecodes(m: Arith, e: Sendable, prior: RawEntry)
    requires Shaped(prior) && 1 <= e.level
    requires |Record(e)| <= MAX_ENTRY_SIZE
    requires forall l :: 0 <= l <= e.level ==> Good(e, l)
    ensures Decoded(m, Record(e), prior) == Accepted(Image(e, prior, e.level + 1))
  {
    var b, top := Record(e), e.level;
    RecordHolds(e);
    RecordSize(e);
    LevelsAdvance(m, e, prior, b, top);
    ImageRoundRuns(m, e, prior, b, top);
  }

  /** The size annotation of a record that fits is its length, and the sections follow it. */
  lemma RecordHolds(e: Sendable)
    ensures Holds(Record(e), 2, Body(e, e.level + 1))
    ensures |Record(e)| == Start(e, e.level + 1)
    ensures |Record(e)| < 0x1_0000 ==> Get16(Record(e)[..2]) == |Record(e)|
  {
    AnnotatedBody(Body(e, e.level + 1));
  }

  /** The decoder's lower limit: a record with an entry id has at least 18 bytes. */
  lemma RecordSize(e: Sendable)
    ensures |Record(e)| >= 6
    ensures 1 <= e.level ==> |Record(e)| >= 18
  {
    RecordHolds(e);
    BodyHolds(e, Record(e), 0);
    assert |Section(e, 0, Start(e, 0))| == 4;
    if 1 <= e.level {
      BodyHolds(e, Record(e), 1);
      assert |Section(e, 1, Start(e, 1))| == 12;
    }
  }

  lemma Annotated(size: u16, body: seq<byte>)
    ensures Holds(Put16(size) + body, 2, body)
    ensures Get16((Put16(size) + body)[..2]) == size
  {
    var b := Put16(size) + body;
    assert b[2..] == body && b[..2] == Put16(size);
    HoldsSlice(b, 2, body);
    Put16Inverse(size, [0, 0]);
  }

  lemma AnnotatedBody(body: seq<byte>)
    ensures var record := Put16((2 + |body|) % 0x1_0000) + body;
      && Holds(record, 2, body) && |record| == 2 + |body|
      && (|record| < 0x1_0000 ==> Get16(record[..2]) == |record|)
  {
    Annotated((2 + |body|) % 0x1_0000, body);
  }

  // ---------------------------------------------------------------- what a reader of the entry sees

  /** The visible part of a list section: keys, numbers or lines, values. */
  datatype ListView = ListView(keys: seq<Str>, nums: seq<i32>, lines: seq<u16>, vals: seq<Str>)

  /** The visible part of an entry, except its level. */
  datatype View = View(
    bucketId: u32, id: seq<byte>, severity: byte, message: Str, categoryId: byte,
    tags: ListView, metrics: ListView, meta: ListView, trace: ListView,
    ttlEntry: u16, ttlMeta: u16)

  function ShownList(kind: Kind, sl: Slots, n: nat): ListView
    requires ShapedSlots(kind, sl) && n <= Limit(kind)
  {
    ListView(sl.keys[..n],
             if kind == Metrics then sl.nums[..n] else [],
             if kind == Trace then sl.lines[..n] else [],
             if kind == Meta then sl.vals[..n] else [])
  }

  predicate Counted(d: RawEntry) {
    && Shaped(d)
    && d.tags.count <= 8 && d.metrics.count <= 32 && d.meta.count <= 32 && d.trace.count <= 16
  }

  /** What the accessors of `entry_reader.go` return. */
  function Shown(d: RawEntry): View
    requires Counted(d)
  {
    View(d.bucketId, d.id, d.severity, d.message, d.categoryId,
         ShownList(Tags, d.tags, d.tags.count), ShownList(Metrics, d.metrics, d.metrics.count),
         ShownList(Meta, d.meta, d.meta.count), ShownList(Trace, d.trace, d.trace.count),
         d.ttlEntry, d.ttlMeta)
  }

  /** The items of `kind` that are sent when their section starts at cursor `s`. */
  function SentFrom(e: Sendable, kind: Kind, s: nat): ListView
    requires LevelOf(kind) <= e.level
  {
    ShownList(kind, e.List(kind), Sent(e, kind, s))
  }

  /** The items of `kind` that are sent by the sections below level `l`. */
  function SentList(e: Sendable, kind: Kind, l: nat): ListView
    requires l <= e.level + 1
  {
    if LevelOf(kind) < l then SentFrom(e, kind, Start(e, LevelOf(kind))) else ListView([], [], [], [])
  }

  /** The same for everything, given the lists. */
  function Fields(e: EntryVal, prior: RawEntry, l: nat, tags: ListView, metrics: ListView, meta: ListView, trace: ListView): View {
    View(if l > 0 then e.bucketId else prior.bucketId,
         if l > 1 then e.id else seq(12, _ => 0),
         if l > 2 then e.severity else prior.severity,
         if l > 3 then e.message else prior.message,
         if l > 4 then e.categoryId else prior.categoryId,
         tags, metrics, meta, trace,
         if l > 9 then e.ttlEntry else 0,
         if l > 10 then e.ttlMeta else 0)
  }

  /** What is to be seen after the sections of `e` below level `l` were decoded over `prior`. */
  function Carried(e: Sendable, prior: RawEntry, l: nat): View
    requires l <= e.level + 1
  {
    Fields(e, prior, l, SentList(e, Tags, l), SentList(e, Metrics, l), SentList(e, Meta, l), SentList(e, Trace, l))
  }

  lemma {:induction false} FilledToShows(e: EntryVal, kind: Kind, sl: Slots, n: nat)
    requires HasItems(e, kind) && ShapedSlots(kind, sl) && n <= e.List(kind).count
    ensures SameItems(kind, FilledTo(e, kind, sl, n), e.List(kind), n)
  {
    if n > 0 {
      FilledToShows(e, kind, sl, n - 1);
      FillExtends(e, kind, FilledTo(e, kind, sl, n - 1), n - 1);
    }
  }

  function WithShownList(view: View, kind: Kind, list: ListView): View {
    match kind
    case Tags => view.(tags := list)
    case Metrics => view.(metrics := list)
    case Meta => view.(meta := list)
    case Trace => view.(trace := list)
  }

  /** `view` after the section of level `l`, sent from cursor `s`, was taken over. */
  function Revealed(view: View, e: Sendable, l: nat, s: nat): View
    requires l <= e.level
  {
    if l == 0 then view.(bucketId := e.bucketId)
    else if l == 1 then view.(id := e.id)
    else if l == 2 then view.(severity := e.severity)
    else if l == 3 then view.(message := e.message)
    else if l == 4 then view.(categoryId := e.categoryId)
    else if l <= 8 then WithShownList(view, KindOf(l), SentFrom(e, KindOf(l), s))
    else if l == 9 then view.(ttlEntry := e.ttlEntry)
    else view.(ttlMeta := e.ttlMeta)
  }

  lemma TookShows(e: Sendable, d: RawEntry, l: nat, s: nat)
    requires Counted(d) && l <= e.level
    ensures Counted(Took(e, d, l, s))
    ensures Shown(Took(e, d, l, s)) == Revealed(Shown(d), e, l, s)
  {
    if 5 <= l <= 8 {
      var kind := KindOf(l);
      var n := Sent(e, kind, s);
      FilledToShows(e, kind, d.List(kind).(count := n), n);
    }
  }

  lemma SentListNext(e: Sendable, kind: Kind, l: nat)
    requires l <= e.level
    ensures SentList(e, kind, l + 1) == if l == LevelOf(kind) then SentFrom(e, kind, Start(e, l)) else SentList(e, kind, l)
  {
  }

  lemma CarriedNext(e: Sendable, prior: RawEntry, l: nat)
    requires l <= e.level
    ensures Carried(e, prior, l + 1) == Revealed(Carried(e, prior, l), e, l, Start(e, l))
  {
    SentListNext(e, Tags, l);
    SentListNext(e, Metrics, l);
    SentListNext(e, Meta, l);
    SentListNext(e, Trace, l);
    FieldsNext(e, prior, l, Start(e, l),
      SentList(e, Tags, l), SentList(e, Metrics, l), SentList(e, Meta, l), SentList(e, Trace, l));
  }

  lemma FieldsNext(e: Sendable, prior: RawEntry, l: nat, s: nat, tags: ListView, metrics: ListView, meta: ListView, trace: ListView)
    requires l <= e.level
    ensures Revealed(Fields(e, prior, l, tags, metrics, meta, trace), e, l, s)
         == Fields(e, prior, l + 1,
              if l == 5 then SentFrom(e, Tags, s) else tags, if l == 6 then SentFrom(e, Metrics, s) else metrics,
              if l == 7 then SentFrom(e, Meta, s) else meta, if l == 8 then SentFrom(e, Trace, s) else trace)
  {
  }

  lemma {:induction false} ImageShows(e: Sendable, prior: RawEntry, l: nat)
    requires Shaped(prior) && l <= e.level + 1
    ensures Counted(Image(e, prior, l)) && Shown(Image(e, prior, l)) == Carried(e, prior, l)
  {
    if l > 0 {
      var d := Image(e, prior, l - 1).(level := l - 1);
      ImageShows(e, prior, l - 1);
      assert Shown(d) == Shown(Image(e, prior, l - 1));
      TookShows(e, d, l - 1, Start(e, l - 1));
      CarriedNext(e, prior, l - 1);
    }
  }
}
