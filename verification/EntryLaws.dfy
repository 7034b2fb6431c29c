/** The main results about the entry codec. */
module EntryLaws {
  import opened Bytes
  import opened EntryWire
  import opened EntryRoundTrip
  import opened EntryTheorems
  import opened EntrySize

  // ---------------------------------------------------------------- the round trip, and exactly when it holds

  /** Every string fits its length field and the record fits the size annotation. */
  predicate WellFormed(e: Sendable) {
    Capped(e) && |Record(e)| <= MAX_ENTRY_SIZE
  }

  /** Each of the first `n` metric keys is as long as the trace path at its index, as far as a length byte can tell. */
  predicate MatchTo(e: EntryVal, n: nat)
    requires n <= 16
  {
    forall i :: 0 <= i < n ==> |e.trace.keys[i]| % 256 == |e.metrics.keys[i]|
  }

  /** So is each metric key that is sent. */
  predicate MetricsMatchPaths(e: Sendable)
    requires e.level >= LevelOf(Metrics)
  {
    MatchTo(e, Sent(e, Metrics, Start(e, LevelOf(Metrics))))
  }

  /** The last meta pair that is sent, with the section starting at `s`, has an empty value. */
  predicate LastEmpty(e: Sendable, s: nat)
    requires e.level >= 7
  {
    var n := Sent(e, Meta, s);
    n > 0 && e.meta.vals[n - 1] == []
  }

  /** The record of a level 7 entry ends with an empty meta value. */
  predicate EndsEmpty(e: Sendable)
    requires e.level >= 7
  {
    LastEmpty(e, Start(e, LevelOf(Meta)))
  }

  /** Decoding the record into an entry that held `prior` is accepted and shows what was sent. */
  predicate RoundTrips(m: Arith, e: Sendable, prior: RawEntry) {
    match Decoded(m, Record(e), prior)
    case Accepted(d) => Counted(d) && d.level == e.level && Shown(d) == Carried(e, prior, e.level + 1)
    case _ => false
  }

  lemma GoodAt(e: Sendable, l: nat, s: nat, end: nat, size: nat)
    requires Capped(e) && l <= e.level
    requires l == 6 ==> MatchTo(e, Sent(e, Metrics, s))
    requires l == 7 && LastEmpty(e, s) ==> end < size
    ensures GoodSection(e, l, s, end, size)
  {
    if 5 <= l <= 8 {
      GoodItems(e, KindOf(l), Sent(e, KindOf(l), s));
    }
  }

  lemma GoodLevel(e: Sendable, l: nat)
    requires WellFormed(e) && l <= e.level
    requires l == 6 ==> MetricsMatchPaths(e)
    requires l == 7 == e.level ==> !EndsEmpty(e)
    ensures Good(e, l)
  {
    RecordHolds(e);
    SectionBounds(e, Record(e), l);
    GoodAt(e, l, Start(e, l), Start(e, l + 1), Start(e, e.level + 1));
  }

  lemma GoodItems(e: Sendable, kind: Kind, n: nat)
    requires LevelOf(kind) <= e.level && ShortItems(e, kind) && n <= e.List(kind).count
    requires kind == Metrics ==> MatchTo(e, n)
    ensures forall i :: 0 <= i < n ==> HasItem(kind, i) && GoodItem(e, kind, i)
  {
    forall i | 0 <= i < n
      ensures HasItem(kind, i) && GoodItem(e, kind, i)
    {
      assert Short(e, kind, i);
    }
  }

  /** For every well-formed entry that meets the two conditions, `Decode` gives back what `Encode`
      sent, whatever the receiving entry held, in 16-bit arithmetic as in checked arithmetic. */
  lemma RoundTrip(m: Arith, e: Sendable, prior: RawEntry)
    requires WellFormed(e) && 1 <= e.level && Shaped(prior)
    requires e.level >= 6 ==> MetricsMatchPaths(e)
    requires e.level == 7 ==> !EndsEmpty(e)
    ensures RoundTrips(m, e, prior)
  {
    forall l | 0 <= l <= e.level
      ensures Good(e, l)
    {
      GoodLevel(e, l);
    }
    RecordDecodes(m, e, prior);
    ImageShows(e, prior, e.level + 1);
  }

  // ---- the converse: what breaks the round trip

  /** A key that was decoded is as long as its length byte says. */
  lemma ParsedKeyLength(m: Arith, kind: Kind, b: seq<byte>, sl: Slots, i: nat, s: nat)
    requires s < |b| <= MAX_ENTRY_SIZE && ShapedSlots(kind, sl) && i < Limit(kind)
    ensures match ParseItem(m, kind, b, |b|, sl, i, s)
            case Crash => true
            case Ok(p) =>
              && ShapedSlots(kind, p.at)
              && (p.going ==> |p.at.keys[i]| == b[s])
              && (!p.going && kind == Metrics ==> p.s == s + 1)
  {
  }

  lemma ParseItemKeeps(m: Arith, kind: Kind, b: seq<byte>, total: u16, sl: Slots, i: nat, s: u16, j: nat)
    requires ShapedSlots(kind, sl) && j < Limit(kind) && j != i
    ensures match ParseItem(m, kind, b, total, sl, i, s)
            case Crash => true
            case Ok(p) => ShapedSlots(kind, p.at) && p.at.keys[j] == sl.keys[j] && p.at.count == sl.count
  {
  }

  /** A result of a round or a loop, if there is one, meets `inv`. */
  predicate Meets<T>(inv: T -> bool, r: Res<Progress<T>>) { r.Ok? ==> inv(r.value.at) }

  /** What every round keeps, the loop keeps. */
  lemma {:induction false} LoopKeeps<T>(inv: T -> bool, round: Round<T>, n: nat, x: T, i: nat, s: u16)
    requires inv(x) && forall y, k, t :: i <= k < n && inv(y) ==> Meets(inv, round(y, k, t))
    ensures Meets(inv, Loop(round, n, x, i, s))
    decreases n - i
  {
    if i < n {
      var r := round(x, i, s);
      assert Meets(inv, r);
      if r.Ok? && r.value.going {
        LoopKeeps(inv, round, n, r.value.at, i + 1, r.value.s);
      }
    }
  }

  /** The key at `j` and the count are those of `sl`. */
  predicate KeepsKey(kind: Kind, sl: Slots, j: nat, now: Slots)
    requires ShapedSlots(kind, sl) && j < Limit(kind)
  {
    ShapedSlots(kind, now) && now.keys[j] == sl.keys[j] && now.count == sl.count
  }

  lemma ListLoopKeeps(m: Arith, kind: Kind, b: seq<byte>, total: u16, n: nat, sl: Slots, i: nat, s: u16, j: nat)
    requires ShapedSlots(kind, sl) && j < i && j < Limit(kind)
    ensures match Loop(ItemRound(m, kind, b, total), n, sl, i, s)
            case Crash => true
            case Ok(p) => KeepsKey(kind, sl, j, p.at)
  {
    var inv := (now: Slots) => KeepsKey(kind, sl, j, now);
    var round := ItemRound(m, kind, b, total);
    forall y, k, t | i <= k < n && inv(y) ensures Meets(inv, round(y, k, t)) {
      ParseItemKeeps(m, kind, b, total, y, k, t, j);
    }
    LoopKeeps(inv, round, n, sl, i, s);
  }

  /** Once the loop is past the bucket, it stays. */
  lemma BucketStays(m: Arith, b: seq<byte>, total: u16, d: RawEntry, s: u16)
    ensures match Loop(LevelRound(m, b, total), 11, d, 1, s)
            case Crash => true
            case Ok(p) => p.at.bucketId == d.bucketId
  {
    var inv := (now: RawEntry) => now.bucketId == d.bucketId;
    var round := LevelRound(m, b, total);
    forall y, k, t | 1 <= k < 11 && inv(y) ensures Meets(inv, round(y, k, t)) {
      BucketKept(m, b, total, y, k, t);
    }
    LoopKeeps(inv, round, 11, d, 1, s);
  }

  lemma BucketKept(m: Arith, b: seq<byte>, total: u16, d: RawEntry, l: nat, s: u16)
    requires l >= 1
    ensures var r := ParseLevel(m, b, total, d, l, s); r.Ok? ==> r.value.at.bucketId == d.bucketId
  {
  }

  /** Whatever bytes are accepted, and whoever wrote them: they are as long as they say, and the bucket is bytes 2 to 6. */
  lemma AcceptedBucket(m: Arith, b: seq<byte>, prior: RawEntry)
    requires Decoded(m, b, prior).Accepted?
    ensures |b| >= 18 && |b| % 0x1_0000 == Get16(b[..2]) && Decoded(m, b, prior).e.bucketId == Get32(b[2..6])
  {
    var total := Get16(b[..2]);
    var p := ParseLevel(m, b, total, Reset(prior), 0, 2).value;
    assert p.at.bucketId == Get32(b[2..6]);
    if p.going {
      BucketStays(m, b, total, p.at, p.s);
    }
  }

  /** Once the loop is past the metrics, they stay. */
  lemma LevelLoopKeeps(m: Arith, b: seq<byte>, total: u16, d: RawEntry, l: nat, s: u16)
    requires 7 <= l <= 11
    ensures match Loop(LevelRound(m, b, total), 11, d, l, s)
            case Crash => true
            case Ok(p) => p.at.metrics == d.metrics
  {
    var inv := (now: RawEntry) => now.metrics == d.metrics;
    var round := LevelRound(m, b, total);
    forall y, k, t | l <= k < 11 && inv(y) ensures Meets(inv, round(y, k, t)) {
      MetricsKept(m, b, total, y, k, t);
    }
    LoopKeeps(inv, round, 11, d, l, s);
  }

  lemma MetricsKept(m: Arith, b: seq<byte>, total: u16, d: RawEntry, l: nat, s: u16)
    requires l >= 7
    ensures var r := ParseLevel(m, b, total, d, l, s); r.Ok? ==> r.value.at.metrics == d.metrics
  {
  }

  lemma ListReaches(m: Arith, e: EntryVal, kind: Kind, n: nat, sl: Slots, b: seq<byte>, at: seq<nat>, j: nat)
    requires ShapedSlots(kind, sl) && |b| <= MAX_ENTRY_SIZE
    requires Placed(e, kind, b, at) && |at| == n + 1 && at[0] > 0 && b[at[0] - 1] == n
    requires j < n && forall i :: 0 <= i < j ==> GoodItem(e, kind, i)
    ensures ParseListSection(m, kind, b, |b|, sl, at[0] - 1)
         == Loop(ItemRound(m, kind, b, |b|), n, FilledTo(e, kind, sl.(count := n), j), j, at[j])
  {
    ListSectionLoops(m, kind, b, sl, at[0] - 1, n);
    ListAdvances(m, e, kind, b, at, sl.(count := n), j);
  }

  /** The decoded metrics are wrong at `i`, or the cursor is left short of the end. */
  predicate WrongAt(e: EntryVal, i: nat, sl: Slots, going: bool, s: nat, total: nat)
    requires i < 16
  {
    && ShapedSlots(Metrics, sl)
    && (|sl.keys[i]| == |e.metrics.keys[i]| ==> !going && s != total)
  }

  lemma LoopWrongAt(m: Arith, e: EntryVal, b: seq<byte>, n: nat, sl: Slots, i: nat, s: nat)
    requires i < n <= 16 && s + 1 < |b| <= MAX_ENTRY_SIZE && ShapedSlots(Metrics, sl)
    requires b[s] != |e.metrics.keys[i]|
    ensures match Loop(ItemRound(m, Metrics, b, |b|), n, sl, i, s)
            case Crash => true
            case Ok(p) => WrongAt(e, i, p.at, p.going, p.s, |b|)
  {
    ParsedKeyLength(m, Metrics, b, sl, i, s);
    match ParseItem(m, Metrics, b, |b|, sl, i, s)
    case Crash =>
    case Ok(p) => if p.going { ListLoopKeeps(m, Metrics, b, |b|, n, p.at, i + 1, p.s, i); }
  }

  lemma DishonestList(m: Arith, e: EntryVal, n: nat, sl: Slots, b: seq<byte>, at: seq<nat>, i: nat)
    requires ShapedSlots(Metrics, sl) && |b| <= MAX_ENTRY_SIZE
    requires Placed(e, Metrics, b, at) && |at| == n + 1 && at[0] > 0 && b[at[0] - 1] == n
    requires i < n <= 16 && forall k :: 0 <= k < i ==> GoodItem(e, Metrics, k)
    requires Short(e, Metrics, i) && !Honest(e, Metrics, i)
    ensures match ParseListSection(m, Metrics, b, |b|, sl, at[0] - 1)
            case Crash => true
            case Ok(p) => WrongAt(e, i, p.at, p.going, p.s, |b|)
  {
    ListReaches(m, e, Metrics, n, sl, b, at, i);
    ItemTakesSpace(e, Metrics, i);
    assert Holds(b, at[i], Item(e, Metrics, i));
    assert b[at[i] + 0] == Item(e, Metrics, i)[0];
    LoopWrongAt(m, e, b, n, FilledTo(e, Metrics, sl.(count := n), i), i, at[i]);
  }

  /** From wrong metrics the level loop does not get to an accepted entry that shows them right. */
  lemma LevelsWrongAt(m: Arith, e: EntryVal, b: seq<byte>, d: RawEntry, s: nat, i: nat)
    requires s <= |b| <= MAX_ENTRY_SIZE && i < 16
    requires match ParseListSection(m, Metrics, b, |b|, d.metrics, s)
             case Crash => true
             case Ok(p) => WrongAt(e, i, p.at, p.going, p.s, |b|)
    ensures match Loop(LevelRound(m, b, |b|), 11, d, 6, s)
            case Crash => true
            case Ok(p) => p.s == |b| ==> ShapedSlots(Metrics, p.at.metrics) && |p.at.metrics.keys[i]| != |e.metrics.keys[i]|
  {
    ListLevelIsSection(m, Metrics, b, d.(level := 6), s);
    match ParseLevel(m, b, |b|, d, 6, s)
    case Crash =>
    case Ok(p) => if p.going { LevelLoopKeeps(m, b, |b|, p.at, 7, p.s); }
  }

  lemma SectionPlaced(e: Sendable, kind: Kind, b: seq<byte>, s: nat, end: nat) returns (at: seq<nat>)
    requires LevelOf(kind) <= e.level
    requires Holds(b, s, Section(e, LevelOf(kind), s)) && end == s + |Section(e, LevelOf(kind), s)|
    ensures Placed(e, kind, b, at) && |at| == Sent(e, kind, s) + 1
    ensures at[0] == s + 1 && at[|at| - 1] == end <= |b|
    ensures s < |b| && b[s] == Sent(e, kind, s)
  {
    SectionIsList(e, kind, s);
    at := ListSectionHeld(e, kind, Sent(e, kind, s), b, s, end);
  }

  lemma DishonestLoop(m: Arith, e: Sendable, prior: RawEntry, i: nat, n: nat)
    requires WellFormed(e) && LevelOf(Metrics) <= e.level && Shaped(prior)
    requires n == Sent(e, Metrics, Start(e, LevelOf(Metrics))) && i < n
    requires forall k :: 0 <= k < i ==> GoodItem(e, Metrics, k)
    requires Short(e, Metrics, i) && !Honest(e, Metrics, i)
    ensures match Loop(LevelRound(m, Record(e), |Record(e)|), 11, Reset(prior), 0, 2)
            case Crash => true
            case Ok(p) =>
              p.s == |Record(e)| ==> ShapedSlots(Metrics, p.at.metrics) && |p.at.metrics.keys[i]| != |e.metrics.keys[i]|
  {
    RecordHolds(e);
    forall l | 0 <= l < 6 ensures Good(e, l) { GoodLevel(e, l); }
    LevelsAdvance(m, e, prior, Record(e), 6);
    SectionBounds(e, Record(e), 6);
    var at := SectionPlaced(e, Metrics, Record(e), Start(e, 6), Start(e, 7));
    var d := Image(e, prior, 6);
    DishonestList(m, e, n, d.metrics, Record(e), at, i);
    LevelsWrongAt(m, e, Record(e), d, at[0] - 1, i);
  }

  /** After a round trip, the metrics that were sent are there. */
  lemma RoundTripShowsMetric(m: Arith, e: Sendable, prior: RawEntry, i: nat)
    requires RoundTrips(m, e, prior) && LevelOf(Metrics) <= e.level
    requires i < Sent(e, Metrics, Start(e, LevelOf(Metrics)))
    ensures Decoded(m, Record(e), prior).e.metrics.keys[i] == e.metrics.keys[i]
  {
    var d := Decoded(m, Record(e), prior).e;
    var sent := SentFrom(e, Metrics, Start(e, LevelOf(Metrics)));
    assert Shown(d).metrics.keys == sent.keys;
    assert sent.keys[i] == e.metrics.keys[i];
  }

  /** The metric at `i` is not among what an accepted outcome shows. */
  predicate MetricLost(o: Outcome, e: EntryVal, i: nat)
    requires i < 16
  {
    o.Accepted? ==> ShapedSlots(Metrics, o.e.metrics) && |o.e.metrics.keys[i]| != |e.metrics.keys[i]|
  }

  /** A metric whose length byte lies is not given back. */
  lemma DishonestMetric(m: Arith, e: Sendable, prior: RawEntry, i: nat, n: nat)
    requires WellFormed(e) && LevelOf(Metrics) <= e.level && Shaped(prior)
    requires n == Sent(e, Metrics, Start(e, LevelOf(Metrics))) && i < n
    requires forall k :: 0 <= k < i ==> GoodItem(e, Metrics, k)
    requires Short(e, Metrics, i) && !Honest(e, Metrics, i)
    ensures MetricLost(Decoded(m, Record(e), prior), e, i)
  {
    RecordHolds(e);
    DishonestLoop(m, e, prior, i, n);
  }

  /** The strict test: an empty value in the last bytes of the slice breaks the loop. */
  lemma EmptyTailBreaks(m: Arith, b: seq<byte>, sl: Slots, i: nat, s: nat)
    requires s < |b| <= MAX_ENTRY_SIZE && ShapedSlots(Meta, sl) && i < Limit(Meta)
    requires s + 3 + b[s] == |b|
    ensures ParseItem(m, Meta, b, |b|, sl, i, s) == Ok(Progress(false, sl, s + 1))
  {
  }

  lemma EmptyTailList(m: Arith, e: EntryVal, n: nat, sl: Slots, b: seq<byte>, at: seq<nat>)
    requires ShapedSlots(Meta, sl) && |b| <= MAX_ENTRY_SIZE
    requires Placed(e, Meta, b, at) && |at| == n + 1 && at[0] > 0 && b[at[0] - 1] == n
    requires n > 0 && e.meta.vals[n - 1] == [] && at[n] == |b|
    requires forall i :: 0 <= i < n ==> GoodItem(e, Meta, i)
    ensures at[n - 1] + 1 < |b|
    ensures match ParseListSection(m, Meta, b, |b|, sl, at[0] - 1)
            case Crash => false
            case Ok(p) => !p.going && p.s == at[n - 1] + 1
  {
    var j, s := n - 1, at[n - 1];
    ListReaches(m, e, Meta, n, sl, b, at, j);
    assert GoodItem(e, Meta, j) && ItemSize(e, Meta, j) == 3 + |e.meta.keys[j]|;
    ItemIsLaid(e, Meta, j, b, s);
    EmptyTailBreaks(m, b, FilledTo(e, Meta, sl.(count := n), j), j, s);
  }

  lemma EmptyTailLevel(m: Arith, e: Sendable, d: RawEntry, b: seq<byte>, s: nat)
    requires Capped(e) && e.level == 7 && ShapedSlots(Meta, d.meta) && |b| <= MAX_ENTRY_SIZE
    requires Holds(b, s, Section(e, LevelOf(Meta), s)) && |b| == s + |Section(e, LevelOf(Meta), s)|
    requires LastEmpty(e, s)
    ensures match Loop(LevelRound(m, b, |b|), 11, d, 7, s)
            case Crash => false
            case Ok(p) => p.s < |b|
  {
    var at := SectionPlaced(e, Meta, b, s, |b|);
    GoodItems(e, Meta, |at| - 1);
    EmptyTailList(m, e, |at| - 1, d.meta, b, at);
    ListLevelIsSection(m, Meta, b, d.(level := 7), s);
  }

  lemma EmptyTailLoop(m: Arith, e: Sendable, prior: RawEntry, s: nat)
    requires WellFormed(e) && e.level == 7 && Shaped(prior)
    requires MetricsMatchPaths(e) && s == Start(e, LevelOf(Meta)) && LastEmpty(e, s)
    ensures match Loop(LevelRound(m, Record(e), |Record(e)|), 11, Reset(prior), 0, 2)
            case Crash => false
            case Ok(p) => p.s < |Record(e)|
  {
    RecordHolds(e);
    forall l | 0 <= l < 7 ensures Good(e, l) { GoodLevel(e, l); }
    LevelsAdvance(m, e, prior, Record(e), 7);
    BodyHolds(e, Record(e), 7);
    EmptyTailLevel(m, e, Image(e, prior, 7), Record(e), s);
  }

  /** A final empty meta value at level 7 is rejected as corrupt. */
  lemma EmptyTailRejected(m: Arith, e: Sendable, prior: RawEntry)
    requires WellFormed(e) && e.level == 7 && Shaped(prior)
    requires MetricsMatchPaths(e) && EndsEmpty(e)
    ensures Decoded(m, Record(e), prior).Corrupt?
  {
    RecordHolds(e);
    RecordSize(e);
    EmptyTailLoop(m, e, prior, Start(e, LevelOf(Meta)));
    LoopRejects(m, Record(e), prior);
  }

  /** Bytes on which the level loop stops short of the end are rejected. */
  lemma LoopRejects(m: Arith, b: seq<byte>, prior: RawEntry)
    requires 18 <= |b| <= MAX_ENTRY_SIZE && Get16(b[..2]) == |b|
    requires match Loop(LevelRound(m, b, |b|), 11, Reset(prior), 0, 2) case Crash => false case Ok(p) => p.s < |b|
    ensures Decoded(m, b, prior).Corrupt?
  {
  }

  lemma FirstMismatch(e: EntryVal, n: nat) returns (i: nat)
    requires n <= 16 && !MatchTo(e, n)
    ensures i < n && |e.trace.keys[i]| % 256 != |e.metrics.keys[i]| && MatchTo(e, i)
  {
    i := 0;
    while |e.trace.keys[i]| % 256 == |e.metrics.keys[i]|
      invariant i < n && MatchTo(e, i)
      decreases n - i
    {
      i := i + 1;
    }
  }

  /** Metrics whose keys differ in length from the trace paths are not given back: no accepted entry shows
      the first of them. */
  lemma MismatchLoses(m: Arith, e: Sendable, prior: RawEntry) returns (i: nat)
    requires WellFormed(e) && LevelOf(Metrics) <= e.level && Shaped(prior) && !MetricsMatchPaths(e)
    ensures i < Sent(e, Metrics, Start(e, LevelOf(Metrics))) <= e.metrics.count
    ensures MetricLost(Decoded(m, Record(e), prior), e, i)
  {
    var n := Sent(e, Metrics, Start(e, LevelOf(Metrics)));
    i := FirstMismatch(e, n);
    assert ShortItems(e, Metrics);
    forall k | 0 <= k < i ensures GoodItem(e, Metrics, k) { assert Short(e, Metrics, k); }
    assert Short(e, Metrics, i);
    DishonestMetric(m, e, prior, i, n);
  }

  lemma MismatchBreaks(m: Arith, e: Sendable, prior: RawEntry)
    requires WellFormed(e) && LevelOf(Metrics) <= e.level && Shaped(prior) && !MetricsMatchPaths(e)
    ensures !RoundTrips(m, e, prior)
  {
    var i := MismatchLoses(m, e, prior);
    if RoundTrips(m, e, prior) {
      RoundTripShowsMetric(m, e, prior, i);
    }
  }

  /** For every well-formed entry, whatever the receiver held and in either arithmetic: the round trip
      holds if and only if the metric keys are as long as the trace paths at their indices and a
      level 7 record does not end with an empty meta value. */
  lemma RoundTripIff(m: Arith, e: Sendable, prior: RawEntry)
    requires WellFormed(e) && 1 <= e.level && Shaped(prior)
    ensures RoundTrips(m, e, prior) <==>
            (e.level >= 6 ==> MetricsMatchPaths(e)) && (e.level == 7 ==> !EndsEmpty(e))
  {
    if e.level >= 6 && !MetricsMatchPaths(e) {
      MismatchBreaks(m, e, prior);
    } else if e.level == 7 && EndsEmpty(e) {
      EmptyTailRejected(m, e, prior);
    } else {
      RoundTrip(m, e, prior);
    }
  }
}
