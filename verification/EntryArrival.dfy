/** When the receiver sees everything that the sender's entry shows. */
module EntryArrival {
  import opened Bytes
  import opened EntryWire
  import opened EntryRoundTrip
  import opened EntryTheorems
  import opened EntrySize
  import opened EntryLaws

  /** Every list that holds something is in a section that `Encode` reaches. */
  predicate Covered(e: RawEntry) {
    && (e.tags.count > 0 ==> e.level >= 5)
    && (e.metrics.count > 0 ==> e.level >= 6)
    && (e.meta.count > 0 ==> e.level >= 7)
    && (e.trace.count > 0 ==> e.level >= 8)
  }

  /** So is every TTL that is set. */
  predicate TtlsCovered(e: RawEntry) {
    (e.ttlEntry != 0 ==> e.level >= 9) && (e.ttlMeta != 0 ==> e.level >= 10)
  }

  /** The section of `kind`, if there is one, is not cut. */
  predicate AllSent(e: Sendable, kind: Kind) {
    LevelOf(kind) <= e.level ==> Sent(e, kind, Start(e, LevelOf(kind))) == e.List(kind).count
  }

  /** Nothing that the entry shows is left out of its record. */
  predicate Complete(e: Sendable) {
    Covered(e) && TtlsCovered(e) && AllSent(e, Metrics) && AllSent(e, Meta) && AllSent(e, Trace)
  }

  /** The codec gives back what it sends. */
  predicate Faithful(e: Sendable) {
    (e.level >= 6 ==> MetricsMatchPaths(e)) && (e.level == 7 ==> !EndsEmpty(e))
  }

  /** The record of `e` is accepted, and the receiver then shows all that `e` shows. */
  predicate Arrives(m: Arith, e: Sendable, receiver: RawEntry) {
    match Decoded(m, Record(e), receiver)
    case Accepted(d) => Counted(d) && d.level == e.level && Shown(d) == Shown(e)
    case _ => false
  }

  lemma ShownListIff(kind: Kind, sl: Slots, n: nat, k: nat)
    requires ShapedSlots(kind, sl) && n <= Limit(kind) && k <= Limit(kind)
    ensures ShownList(kind, sl, n) == ShownList(kind, sl, k) <==> n == k
    ensures ListView([], [], [], []) == ShownList(kind, sl, k) <==> k == 0
  {
    assert |ShownList(kind, sl, n).keys| == n && |ShownList(kind, sl, k).keys| == k;
  }

  lemma ListShownIff(e: Sendable, kind: Kind)
    requires e.List(kind).count <= Limit(kind)
    ensures SentList(e, kind, e.level + 1) == ShownList(kind, e.List(kind), e.List(kind).count)
            <==> if LevelOf(kind) <= e.level then AllSent(e, kind) else e.List(kind).count == 0
  {
    if LevelOf(kind) <= e.level {
      ShownListIff(kind, e.List(kind), Sent(e, kind, Start(e, LevelOf(kind))), e.List(kind).count);
    } else {
      ShownListIff(kind, e.List(kind), 0, e.List(kind).count);
    }
  }

  /** Tags are never cut, and metrics are not if the trace paths are short. */
  lemma SmallListsSent(e: Sendable)
    requires Capped(e)
    ensures AllSent(e, Tags) && (ShortPaths(e, 0) ==> AllSent(e, Metrics))
  {
    var st := LayoutOf(e);
    if e.level >= 5 {
      FixedEnds(e, st, 5);
      SmallListEnds(e, Tags, st[5]);
    }
    if e.level >= 6 {
      MetricsEnd(e, st);
    }
  }

  /** All meta pairs are sent exactly when they fit behind what comes before them. */
  lemma MetaSentIff(e: Sendable, s: nat)
    requires Capped(e) && e.level >= 7 && s == Start(e, LevelOf(Meta))
    ensures AllSent(e, Meta) <==> s + 1 + SizeTo(e, Meta, e.meta.count) <= MAX_ENTRY_SIZE
  {
    MetaStartsLow(e, s);
    AllSentIff(e, Meta, s);
  }

  lemma FieldsShownIff(e: Sendable, prior: RawEntry, tags: ListView, metrics: ListView, meta: ListView, trace: ListView)
    requires e.level >= 4 && Counted(e)
    ensures Fields(e, prior, e.level + 1, tags, metrics, meta, trace) == Shown(e) <==>
      && tags == Shown(e).tags && metrics == Shown(e).metrics && meta == Shown(e).meta && trace == Shown(e).trace
      && TtlsCovered(e)
  {
  }

  /** What a record carries is all that the entry shows, exactly when nothing is left out. */
  lemma CarriedIsShownIff(e: Sendable, prior: RawEntry)
    requires Capped(e) && e.level >= 4
    ensures Carried(e, prior, e.level + 1) == Shown(e) <==> Complete(e)
  {
    SmallListsSent(e);
    ListShownIff(e, Tags);
    ListShownIff(e, Metrics);
    ListShownIff(e, Meta);
    ListShownIff(e, Trace);
    FieldsShownIff(e, prior, SentList(e, Tags, e.level + 1), SentList(e, Metrics, e.level + 1),
                   SentList(e, Meta, e.level + 1), SentList(e, Trace, e.level + 1));
  }

  lemma LostMetricShows(o: Outcome, e: Sendable, i: nat)
    requires i < e.metrics.count && i < 16 && MetricLost(o, e, i) && o.Accepted? && Counted(o.e)
    ensures Shown(o.e) != Shown(e)
  {
    var got, sent := Shown(o.e).metrics.keys, Shown(e).metrics.keys;
    if |got| == |sent| {
      assert |got[i]| != |sent[i]|;
    }
  }

  /** For every well-formed entry from level 4 on, whatever the receiver held: it arrives whole if and only if the codec
      is faithful to it and its record is complete. */
  lemma ArrivesIff(m: Arith, e: Sendable, receiver: RawEntry)
    requires WellFormed(e) && e.level >= 4 && Shaped(receiver)
    ensures Arrives(m, e, receiver) <==> Faithful(e) && Complete(e)
  {
    if e.level >= 6 && !MetricsMatchPaths(e) {
      var i := MismatchLoses(m, e, receiver);
      var o := Decoded(m, Record(e), receiver);
      if o.Accepted? && Counted(o.e) {
        LostMetricShows(o, e, i);
      }
    } else if e.level == 7 && EndsEmpty(e) {
      EmptyTailRejected(m, e, receiver);
    } else {
      RoundTrip(m, e, receiver);
      CarriedIsShownIff(e, receiver);
    }
  }
}
