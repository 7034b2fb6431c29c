/** The logger: what it collects for its entries, and the entry that a log call starts. */
module Loggers {
  import opened Bytes
  import opened EntryWire
  import opened EntryTheorems
  import opened Entries
  import B = EntryBuilder

  class Logger {
    var tags: seq<Str>
    var metaKeys: seq<Str>
    var metaVals: seq<Str>
    var metricKeys: seq<Str>
    var metricNums: seq<i32>
    var ttlEntry: u16
    var ttlMeta: u16
    var categoryId: byte

    ghost predicate Valid()
      reads this
    {
      |tags| <= 8 && |metaKeys| == |metaVals| && |metricKeys| == |metricNums|
    }

    function Context(): B.GoodContext
      requires Valid()
      reads this
    {
      B.Context(tags, metaKeys, metaVals, metricKeys, metricNums)
    }

    /** Appends the non-blank arguments, up to 8 tags in all. */
    method Tag(vs: seq<B.Value>)
      requires Valid()
      modifies this`tags
      ensures Valid() && tags == B.Take(old(tags) + B.Cleaned(vs), 8)
    {
      var i := 0;
      while i < |vs|
        invariant 0 <= i <= |vs| && |tags| <= 8
        invariant tags == B.Take(old(tags) + B.Cleaned(vs[..i]), 8)
      {
        if |tags| >= 8 {
          CleanedGrows(vs, i);
          return;
        }
        assert vs[..i + 1][..i] == vs[..i];
        if vs[i] != B.Text([]) {
          tags := tags + [B.Truncate(vs[i].s, 255)];
        }
        i := i + 1;
      }
      assert vs[..i] == vs;
    }

    /** Unlike on an entry, there is no limit and nothing is skipped. */
    method Meta(key: Str, v: B.Value)
      requires Valid()
      modifies this`metaKeys, this`metaVals
      ensures Valid()
      ensures metaKeys == old(metaKeys) + [B.Truncate(key, 255)] && metaVals == old(metaVals) + [B.Truncate(v.s, 65535)]
    {
      metaKeys := metaKeys + [B.Truncate(key, 255)];
      metaVals := metaVals + [B.Truncate(v.s, 65535)];
    }

    method Metric(key: Str, n: i32)
      requires Valid()
      modifies this`metricKeys, this`metricNums
      ensures Valid()
      ensures metricKeys == old(metricKeys) + [B.Truncate(key, 255)] && metricNums == old(metricNums) + [n]
    {
      metricKeys := metricKeys + [B.Truncate(key, 255)];
      metricNums := metricNums + [n];
    }

    /** `log`, on an entry from the pool. */
    method Log(e: Entry, bucketId: u32, id: Id, severity: byte, message: Str, vs: seq<B.Value>)
      requires Counted(e.Val())
      modifies e
      ensures e.Val() == B.Logged(old(e.Val()),
        B.Header(bucketId, id, severity, message, ttlEntry, ttlMeta, categoryId), vs)
    {
      e.bucketId := bucketId;
      e.id := id;
      e.severity := severity;
      e.message := B.Truncate(message, 255);
      e.ttlEntry := ttlEntry;
      e.ttlMeta := ttlMeta;
      e.categoryId := categoryId;
      e.IncLevel(4);
      if |vs| > 0 {
        e.Tag(vs);
      }
    }
  }

  lemma {:induction false} CleanedGrows(vs: seq<B.Value>, i: nat)
    requires i <= |vs|
    ensures B.Cleaned(vs[..i]) <= B.Cleaned(vs)
    decreases |vs|
  {
    if i == |vs| {
      assert vs[..i] == vs;
    } else {
      var before := vs[..|vs| - 1];
      assert before[..i] == vs[..i];
      CleanedGrows(before, i);
    }
  }
}
