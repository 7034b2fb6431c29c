/** The binary form of a log entry: what `Encode` writes and what `Decode` makes of a byte slice. */
module EntryWire {
  import opened Bytes

  const MAX_ENTRY_SIZE := 65535

  /** The four sections that hold a counted list. */
  datatype Kind = Tags | Metrics | Meta | Trace

  /** Slots of the fixed arrays behind a list section. */
  function Limit(kind: Kind): nat {
    match kind case Tags => 8 case Metrics => 32 case Meta => 32 case Trace => 16
  }

  /** Bytes of the fixed-width field that follows the key of a list item. */
  function Width(kind: Kind): nat {
    match kind case Tags => 0 case Metrics => 4 case Meta => 2 case Trace => 2
  }

  function LevelOf(kind: Kind): nat {
    match kind case Tags => 5 case Metrics => 6 case Meta => 7 case Trace => 8
  }

  function KindOf(level: nat): Kind
    requires 5 <= level <= 8
  {
    if level == 5 then Tags else if level == 6 then Metrics else if level == 7 then Meta else Trace
  }

  /** The parallel arrays of one list section and its count. Only metrics use `nums`, only meta
      uses `vals`, only traces use `lines`. */
  datatype Slots = Slots(keys: seq<Str>, nums: seq<i32>, vals: seq<Str>, lines: seq<u16>, count: byte)

  datatype RawEntry = RawEntry(
    bucketId: u32,
    id: seq<byte>,
    severity: byte,
    message: Str,
    categoryId: byte,
    tags: Slots,
    metrics: Slots,
    meta: Slots,
    trace: Slots,
    ttlEntry: u16,
    ttlMeta: u16,
    level: byte)
  {
    function List(kind: Kind): Slots {
      match kind case Tags => tags case Metrics => metrics case Meta => meta case Trace => trace
    }

    function WithList(kind: Kind, s: Slots): RawEntry {
      match kind
      case Tags => this.(tags := s)
      case Metrics => this.(metrics := s)
      case Meta => this.(meta := s)
      case Trace => this.(trace := s)
    }
  }

  /** Facts that Go's array types give for free. */
  predicate ShapedSlots(kind: Kind, s: Slots) {
    |s.keys| == |s.nums| == |s.vals| == |s.lines| == Limit(kind)
  }

  predicate Shaped(e: RawEntry) {
    && |e.id| == 12
    && ShapedSlots(Tags, e.tags) && ShapedSlots(Metrics, e.metrics)
    && ShapedSlots(Meta, e.meta) && ShapedSlots(Trace, e.trace)
  }

  function Empty(kind: Kind): (s: Slots)
    ensures ShapedSlots(kind, s)
  {
    var n := Limit(kind);
    Slots(seq(n, _ => []), seq(n, _ => 0), seq(n, _ => []), seq(n, _ => 0), 0)
  }

  /** An entry fresh from the pool. */
  const BLANK := RawEntry(0, seq(12, _ => 0), 0, [], 0, Empty(Tags), Empty(Metrics), Empty(Meta), Empty(Trace), 0, 0, 3)

  type EntryVal = e: RawEntry | Shaped(e) witness BLANK

  /** What `Encode` needs so as not to run off an array of the entry. The metric loop indexes the
      16 trace paths. */
  predicate Encodable(e: EntryVal) {
    && e.level <= 10
    && e.tags.count <= 8 && e.metrics.count <= 32 && e.meta.count <= 32 && e.trace.count <= 16
    && (e.level >= 6 ==> e.metrics.count <= 16)
  }

  type Sendable = e: EntryVal | Encodable(e) witness BLANK

  // ---------------------------------------------------------------- encoder

  predicate HasItem(kind: Kind, i: nat) {
    && i < Limit(kind)
    && (kind == Metrics ==> i < Limit(Trace))
  }

  /** The length written before a key. For metrics it is taken from the trace path at the same index. */
  function KeyLen(e: EntryVal, kind: Kind, i: nat): nat
    requires HasItem(kind, i)
  {
    if kind == Metrics then |e.trace.keys[i]| else |e.List(kind).keys[i]|
  }

  function Tail(e: EntryVal, kind: Kind, i: nat): seq<byte>
    requires HasItem(kind, i)
  {
    match kind
    case Tags => []
    case Metrics => Put32(Unsigned(e.metrics.nums[i]))
    case Meta => Put16(|e.meta.vals[i]| % 0x1_0000) + e.meta.vals[i]
    case Trace => Put16(e.trace.lines[i])
  }

  function Item(e: EntryVal, kind: Kind, i: nat): seq<byte>
    requires HasItem(kind, i)
  {
    [KeyLen(e, kind, i) % 256] + e.List(kind).keys[i] + Tail(e, kind, i)
  }

  /** The cap test made before an item is written at cursor `s`; tags have none. */
  predicate Fits(e: EntryVal, kind: Kind, i: nat, s: nat)
    requires HasItem(kind, i)
  {
    || kind == Tags
    || s + 1 + KeyLen(e, kind, i) + Width(kind) + (if kind == Meta then |e.meta.vals[i]| else 0) <= MAX_ENTRY_SIZE
  }

  predicate HasItems(e: EntryVal, kind: Kind) {
    && e.List(kind).count <= Limit(kind)
    && (kind == Metrics ==> e.metrics.count <= Limit(Trace))
  }

  /** The length of an item. */
  function ItemSize(e: EntryVal, kind: Kind, i: nat): nat
    requires HasItem(kind, i)
  {
    1 + |e.List(kind).keys[i]| + Width(kind) + (if kind == Meta then |e.meta.vals[i]| else 0)
  }

  /** The index at which the loop over the items stops when item `i` is due at cursor `s`; the count
      byte ends up holding it. */
  function Kept(e: EntryVal, kind: Kind, i: nat, s: nat): (n: nat)
    requires HasItems(e, kind)
    ensures i <= e.List(kind).count ==> i <= n <= e.List(kind).count
    decreases e.List(kind).count - i
  {
    if i >= e.List(kind).count || !Fits(e, kind, i, s) then i
    else Kept(e, kind, i + 1, s + ItemSize(e, kind, i))
  }

  /** The first `n` items. */
  function Rows(e: EntryVal, kind: Kind, n: nat): (rows: seq<seq<byte>>)
    requires HasItems(e, kind) && n <= e.List(kind).count
    ensures |rows| == n && forall i :: 0 <= i < n ==> rows[i] == Item(e, kind, i)
  {
    seq(n, i requires 0 <= i < n => Item(e, kind, i))
  }

  /** A list section that starts at cursor `s`. */
  function ListSection(e: EntryVal, kind: Kind, s: nat): seq<byte>
    requires HasItems(e, kind)
  {
    var n := Kept(e, kind, 0, s + 1);
    [n] + Flatten(Rows(e, kind, n))
  }

  /** The section of level `l` when it starts at cursor `s`. */
  function Section(e: Sendable, l: nat, s: nat): seq<byte>
    requires l <= e.level
  {
    if l == 0 then Put32(e.bucketId)
    else if l == 1 then e.id
    else if l == 2 then [e.severity]
    else if l == 3 then [|e.message| % 256] + e.message
    else if l == 4 then [e.categoryId]
    else if l <= 8 then ListSection(e, KindOf(l), s)
    else if l == 9 then Put16(e.ttlEntry)
    else Put16(e.ttlMeta)
  }

  /** A section, from its level and the cursor it starts at. */
  type Writer = (nat, nat) -> seq<byte>

  /** The sections below level `l`, in order. The cursor starts at 2, after the size annotation. */
  function Chain(section: Writer, l: nat): seq<byte> {
    if l == 0 then [] else Chain(section, l - 1) + section(l - 1, 2 + |Chain(section, l - 1)|)
  }

  function Sections(e: Sendable): Writer
  {
    (l: nat, s: nat) => if l <= e.level then Section(e, l, s) else []
  }

  /** All sections of `e` below level `l`. */
  function Body(e: Sendable, l: nat): seq<byte>
  {
    Chain(Sections(e), l)
  }

  /** Where the section of level `l` starts. */
  function Start(e: Sendable, l: nat): nat
  {
    2 + |Body(e, l)|
  }

  /** Everything `Encode` writes: the size annotation and the sections up to the entry's level. */
  function Record(e: Sendable): seq<byte>
  {
    Put16(Start(e, e.level + 1) % 0x1_0000) + Body(e, e.level + 1)
  }

  // ---------------------------------------------------------------- decoder

  /** Go's `uint16` arithmetic wraps. In the checked reading a sum that would wrap is a crash, so
      whatever succeeds there made no wrapping sum. */
  datatype Arith = Wrapping | Checked

  /** A value, or a run-time panic. */
  datatype Res<+T> = Ok(value: T) | Crash {
    predicate IsFailure() { Crash? }
    function PropagateFailure<U>(): Res<U> requires Crash? { Crash }
    function Extract(): T requires Ok? { value }
  }

  function Add(m: Arith, a: u16, b: u16): Res<u16> {
    if a + b < 0x1_0000 then Ok(a + b)
    else if m.Wrapping? then Ok(a + b - 0x1_0000)
    else Crash
  }

  function At(b: seq<byte>, i: nat): Res<byte> {
    if i < |b| then Ok(b[i]) else Crash
  }

  function Cut(b: seq<byte>, lo: nat, hi: nat): Res<Str> {
    if lo <= hi <= |b| then Ok(b[lo..hi]) else Crash
  }

  /** Where a decoding loop stands: still going, or left by `break loop`. */
  datatype Progress<+T> = Progress(going: bool, at: T, s: u16)

  /** One round of a decoding loop: from what was decoded so far, the loop index and the cursor. */
  type Round<!T> = (T, nat, u16) -> Res<Progress<T>>

  /** A decoding loop that counts `i` up to `n`, unless a round breaks out of it. */
  function Loop<T>(round: Round<T>, n: nat, x: T, i: nat, s: u16): Res<Progress<T>>
    decreases n - i
  {
    if i >= n then Ok(Progress(true, x, s)) else
    var p :- round(x, i, s);
    if !p.going then Ok(p) else Loop(round, n, p.at, i + 1, p.s)
  }

  /** One round of the loop over the items of a list. */
  function ParseItem(m: Arith, kind: Kind, b: seq<byte>, total: u16, sl: Slots, i: nat, s: u16): Res<Progress<Slots>> {
    if !ShapedSlots(kind, sl) || i >= Limit(kind) then Crash else
    if s >= total then Ok(Progress(false, sl, s)) else
    var len :- At(b, s);
    var s1 :- Add(m, s, 1);
    var keyEnd :- Add(m, s1, len);
    var end :- Add(m, keyEnd, Width(kind));
    if end > total || (kind == Meta && end == total) then Ok(Progress(false, sl, s1)) else
    var key :- Cut(b, s1, keyEnd);
    ParseTail(m, kind, b, total, sl.(keys := sl.keys[i := key]), i, keyEnd, end)
  }

  /** What follows the key of an item. */
  function ParseTail(m: Arith, kind: Kind, b: seq<byte>, total: u16, sl: Slots, i: nat, s: u16, end: u16): Res<Progress<Slots>>
    requires ShapedSlots(kind, sl) && i < Limit(kind)
  {
    var raw :- Cut(b, s, end);
    if |raw| != Width(kind) then Crash else
    match kind
    case Tags => Ok(Progress(true, sl, s))
    case Metrics => Ok(Progress(true, sl.(nums := sl.nums[i := Signed(Get32(raw))]), end))
    case Trace => Ok(Progress(true, sl.(lines := sl.lines[i := Get16(raw)]), end))
    case Meta =>
      var valEnd :- Add(m, end, Get16(raw));
      if valEnd > total then Ok(Progress(false, sl, end)) else
      var val :- Cut(b, end, valEnd);
      Ok(Progress(true, sl.(vals := sl.vals[i := val]), valEnd))
  }

  function ItemRound(m: Arith, kind: Kind, b: seq<byte>, total: u16): Round<Slots> {
    (sl: Slots, i: nat, s: u16) => ParseItem(m, kind, b, total, sl, i, s)
  }

  /** A list section: the count, then the items. */
  function ParseListSection(m: Arith, kind: Kind, b: seq<byte>, total: u16, sl: Slots, s: u16): Res<Progress<Slots>> {
    var n :- At(b, s);
    var s1 :- Add(m, s, 1);
    if n > Limit(kind) then Ok(Progress(false, sl.(count := n), s1)) else
    Loop(ItemRound(m, kind, b, total), n, sl.(count := n), 0, s1)
  }

  function ParseMessage(m: Arith, b: seq<byte>, total: u16, e: RawEntry, s: u16): Res<Progress<RawEntry>> {
    var len :- At(b, s);
    var s1 :- Add(m, s, 1);
    var end :- Add(m, s1, len);
    if end > total then Ok(Progress(false, e, s1)) else
    var msg :- Cut(b, s1, end);
    Ok(Progress(true, e.(message := msg), end))
  }

  /** The section of level `l`. */
  function ParseSection(m: Arith, b: seq<byte>, total: u16, e: RawEntry, l: nat, s: u16): Res<Progress<RawEntry>> {
    if l == 0 then
      var v :- Cut(b, s, s + 4);
      var s' :- Add(m, s, 4);
      Ok(Progress(true, e.(bucketId := Get32(v)), s'))
    else if l == 1 then
      var s' :- Add(m, s, 12);
      var v :- Cut(b, s, s');
      Ok(Progress(true, e.(id := v), s'))
    else if l == 2 || l == 4 then
      var v :- At(b, s);
      var s' :- Add(m, s, 1);
      Ok(Progress(true, if l == 2 then e.(severity := v) else e.(categoryId := v), s'))
    else if l == 3 then
      ParseMessage(m, b, total, e, s)
    else if l <= 8 then
      var p :- ParseListSection(m, KindOf(l), b, total, e.List(KindOf(l)), s);
      Ok(Progress(p.going, e.WithList(KindOf(l), p.at), p.s))
    else if l == 9 then
      var end :- Add(m, s, 2);
      if end > total then Ok(Progress(false, e, s)) else
      var v :- Cut(b, s, s + 2);
      Ok(Progress(true, e.(ttlEntry := Get16(v)), end))
    else
      var v :- Cut(b, s, s + 2);
      var s' :- Add(m, s, 2);
      Ok(Progress(true, e.(ttlMeta := Get16(v)), s'))
  }

  /** One round of the loop over the levels, which leaves the loop when the cursor reaches the end. */
  function ParseLevel(m: Arith, b: seq<byte>, total: u16, e: RawEntry, l: nat, s: u16): Res<Progress<RawEntry>> {
    var p :- ParseSection(m, b, total, e.(level := l % 256), l, s);
    Ok(p.(going := p.going && p.s < total))
  }

  function LevelRound(m: Arith, b: seq<byte>, total: u16): Round<RawEntry> {
    (e: RawEntry, l: nat, s: u16) => ParseLevel(m, b, total, e, l, s)
  }

  /** `Entry.Reset`: message, severity, category and bucket keep their values. */
  function Reset(e: RawEntry): RawEntry {
    e.(id := seq(12, _ => 0), level := 3,
       tags := e.tags.(count := 0), metrics := e.metrics.(count := 0),
       meta := e.meta.(count := 0), trace := e.trace.(count := 0),
       ttlEntry := 0, ttlMeta := 0)
  }

  datatype Outcome = Accepted(e: RawEntry) | TooShort(e: RawEntry) | Corrupt(e: RawEntry) | Crashed

  /** `Entry.Decode` of `b` into an entry that held `prior`. */
  function Decoded(m: Arith, b: seq<byte>, prior: RawEntry): Outcome {
    var e := Reset(prior);
    if |b| < 18 then TooShort(e) else
    var total := Get16(b[..2]);
    if |b| % 0x1_0000 != total then Corrupt(e) else
    Finished(total, Loop(LevelRound(m, b, total), 11, e, 0, 2))
  }

  /** After the loop over the levels, which counts the level past the last one if nothing broke out of it. */
  function Finished(total: u16, r: Res<Progress<RawEntry>>): Outcome {
    match r
    case Crash => Crashed
    case Ok(p) =>
      var e := if p.going then p.at.(level := 11) else p.at;
      if p.s != total then Corrupt(e) else Accepted(e)
  }
}
