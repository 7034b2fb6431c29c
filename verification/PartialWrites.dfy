/** A connection that may take less than it is given, or fail: how many records a sequence of writes takes. */
module PartialWrites {

  datatype WriteError = NoError | ShortWrite | Broken

  /** What the connection does with the next write: how many bytes it takes, and what it reports. */
  datatype WriteResult = WriteResult(n: nat, err: WriteError)

  function Min(a: nat, b: nat): nat { if a < b then a else b }

  /** The bytes that the connection is ready to take in these writes. */
  function Total(script: seq<WriteResult>): nat {
    if |script| == 0 then 0 else Total(script[..|script| - 1]) + script[|script| - 1].n
  }

  predicate Unbroken(script: seq<WriteResult>) {
    forall i :: 0 <= i < |script| ==> script[i].err != Broken
  }

  /** Some first writes, none of which fails, take `size` bytes. A short write is no failure. */
  predicate Takes(size: nat, script: seq<WriteResult>) {
    exists k :: 0 <= k <= |script| && Unbroken(script[..k]) && Total(script[..k]) >= size
  }

  /** The writes up to and including the first that fails. */
  function UntilBroken(script: seq<WriteResult>): seq<WriteResult> {
    if |script| == 0 then [] else if script[0].err == Broken then script[..1] else [script[0]] + UntilBroken(script[1..])
  }

  lemma TotalNext(script: seq<WriteResult>, k: nat)
    requires k < |script|
    ensures Total(script[..k + 1]) == Total(script[..k]) + script[k].n
  {
    assert script[..k + 1][..k] == script[..k];
  }

  lemma {:induction false} TotalGrows(script: seq<WriteResult>, j: nat, k: nat)
    requires j <= k <= |script|
    ensures Total(script[..j]) <= Total(script[..k])
  {
    if j < k {
      TotalGrows(script, j, k - 1);
      TotalNext(script, k - 1);
    }
  }

  lemma UnbrokenSplit(script: seq<WriteResult>, j: nat)
    requires j <= |script|
    ensures Unbroken(script) <==> Unbroken(script[..j]) && Unbroken(script[j..])
  {
    assert script == script[..j] + script[j..];
  }

  /** Unbroken writes, and one that fails if there is one, are all that goes out. */
  lemma {:induction false} UntilBrokenIs(script: seq<WriteResult>, k: nat)
    requires k <= |script| && Unbroken(script[..k])
    ensures script[..k] <= UntilBroken(script)
    ensures k == |script| ==> UntilBroken(script) == script
    ensures k < |script| && script[k].err == Broken ==> UntilBroken(script) == script[..k + 1]
    decreases |script|
  {
    if k > 0 {
      assert script[..k][0] == script[0];
      assert script[1..][..k - 1] == script[..k][1..];
      UnbrokenSplit(script[..k], 1);
      UntilBrokenIs(script[1..], k - 1);
      assert script[..k] == [script[0]] + script[1..][..k - 1];
      if k < |script| {
        assert script[..k + 1] == [script[0]] + script[1..][..k];
      }
    }
  }

  /** Writes that do not fail and take `size` bytes are enough. */
  lemma Enough(size: nat, script: seq<WriteResult>, k: nat)
    requires k <= |script| && Unbroken(script[..k]) && Total(script[..k]) >= size
    ensures Takes(size, script) && Total(UntilBroken(script)) >= size
  {
    UntilBrokenIs(script, k);
    var all := UntilBroken(script);
    assert all[..k] == script[..k] && all[..|all|] == all;
    TotalGrows(all, k, |all|);
  }

  lemma UnbrokenAt(script: seq<WriteResult>, j: nat, k: nat)
    requires k < j <= |script| && Unbroken(script[..j])
    ensures script[k].err != Broken
  {
    assert script[..j][k] == script[k];
  }

  /** A write that fails, or the end of the writes, before `size` bytes were taken. */
  lemma StopsShort(size: nat, script: seq<WriteResult>, k: nat)
    requires k <= |script| && Unbroken(script[..k]) && Total(script[..k]) < size
    requires k < |script| ==> script[k].err == Broken
    ensures !Takes(size, script)
    ensures Total(UntilBroken(script)) == Total(script[..k]) + (if k < |script| then script[k].n else 0)
  {
    forall j | 0 <= j <= |script| && Unbroken(script[..j]) ensures Total(script[..j]) < size {
      if j > k {
        UnbrokenAt(script, j, k);
      } else {
        TotalGrows(script, j, k);
      }
    }
    UntilBrokenIs(script, k);
    if k < |script| {
      TotalNext(script, k);
    } else {
      assert script[..k] == script;
    }
  }

  /** How many writes it takes until `size` bytes are taken. */
  function NeedFrom(size: nat, script: seq<WriteResult>, k: nat): nat
    requires k <= |script|
    decreases |script| - k
  {
    if k == |script| || Total(script[..k]) >= size then k else NeedFrom(size, script, k + 1)
  }

  function Need(size: nat, script: seq<WriteResult>): nat { NeedFrom(size, script, 0) }

  /** The writes can be divided into one run of writes for each size, none of which fails and each of which takes its size. */
  predicate TakesAll(sizes: seq<nat>, script: seq<WriteResult>) {
    |sizes| == 0 ||
      exists k :: 0 <= k <= |script| && Unbroken(script[..k]) && Total(script[..k]) >= sizes[0] && TakesAll(sizes[1..], script[k..])
  }

  lemma {:induction false} TotalSplit(script: seq<WriteResult>, j: nat)
    requires j <= |script|
    ensures Total(script) == Total(script[..j]) + Total(script[j..])
  {
    if j == |script| {
      assert script[..j] == script;
    } else {
      var n := |script| - 1;
      TotalSplit(script[..n], j);
      assert script[..n][..j] == script[..j] && script[j..][..n - j] == script[..n][j..];
    }
  }

  /** More writes that do not fail, in front, do no harm. */
  lemma MoreTakesAll(sizes: seq<nat>, script: seq<WriteResult>, j: nat)
    requires j <= |script| && Unbroken(script[..j]) && TakesAll(sizes, script[j..])
    ensures TakesAll(sizes, script)
  {
    if |sizes| > 0 {
      var rest := script[j..];
      var k :| 0 <= k <= |rest| && Unbroken(rest[..k]) && Total(rest[..k]) >= sizes[0] && TakesAll(sizes[1..], rest[k..]);
      assert script[..j + k][..j] == script[..j] && script[..j + k][j..] == rest[..k];
      UnbrokenSplit(script[..j + k], j);
      TotalSplit(script[..j + k], j);
      assert script[j + k..] == rest[k..];
    }
  }

  /** It is best to give each record no more writes than it needs. */
  lemma TakesAllGreedily(sizes: seq<nat>, script: seq<WriteResult>, used: nat)
    requires |sizes| > 0 && used <= |script| && Unbroken(script[..used]) && Total(script[..used]) >= sizes[0]
    requires forall k :: 0 <= k < used ==> Total(script[..k]) < sizes[0]
    ensures TakesAll(sizes, script) <==> TakesAll(sizes[1..], script[used..])
  {
    if TakesAll(sizes, script) {
      var k :| 0 <= k <= |script| && Unbroken(script[..k]) && Total(script[..k]) >= sizes[0] && TakesAll(sizes[1..], script[k..]);
      TakesFromEarlier(sizes[1..], script, used, k);
    }
  }

  lemma TakesFromEarlier(sizes: seq<nat>, script: seq<WriteResult>, used: nat, k: nat)
    requires used <= k <= |script| && Unbroken(script[..k]) && TakesAll(sizes, script[k..])
    ensures TakesAll(sizes, script[used..])
  {
    assert script[..k][used..] == script[used..][..k - used] && script[used..][k - used..] == script[k..];
    UnbrokenSplit(script[..k], used);
    MoreTakesAll(sizes, script[used..], k - used);
  }

  lemma {:induction false} NeedIs(size: nat, script: seq<WriteResult>, j: nat)
    requires j <= |script| && Takes(size, script) && forall i :: 0 <= i < j ==> Total(script[..i]) < size
    ensures var k := NeedFrom(size, script, j);
      && k <= |script| && Unbroken(script[..k]) && Total(script[..k]) >= size
      && forall i :: 0 <= i < k ==> Total(script[..i]) < size
    decreases |script| - j
  {
    var k :| 0 <= k <= |script| && Unbroken(script[..k]) && Total(script[..k]) >= size;
    if j < |script| && Total(script[..j]) < size {
      NeedIs(size, script, j + 1);
    } else {
      TotalGrows(script, k, |script|);
      assert script[..k][..Min(j, k)] == script[..Min(j, k)];
    }
  }

  /** The writes that the first `n` records use up. */
  function Spent(sizes: seq<nat>, n: nat, script: seq<WriteResult>): (k: nat)
    requires n <= |sizes|
    ensures k <= |script|
  {
    if n == 0 then 0 else SpentMore(Spent(sizes, n - 1, script), sizes[n - 1], script)
  }

  function SpentMore(k: nat, size: nat, script: seq<WriteResult>): (r: nat)
    requires k <= |script|
    ensures r <= |script|
  {
    Min(k + Need(size, script[k..]), |script|)
  }

  lemma {:induction false} TakesFewer(sizes: seq<nat>, script: seq<WriteResult>, j: nat)
    requires j <= |sizes| && TakesAll(sizes, script)
    ensures TakesAll(sizes[..j], script)
    decreases j
  {
    if j > 0 {
      var k :| 0 <= k <= |script| && Unbroken(script[..k]) && Total(script[..k]) >= sizes[0] && TakesAll(sizes[1..], script[k..]);
      TakesFewer(sizes[1..], script[k..], j - 1);
      assert sizes[..j][1..] == sizes[1..][..j - 1];
    }
  }

  lemma AfterNeed(sizes: seq<nat>, script: seq<WriteResult>)
    requires |sizes| > 0 && Takes(sizes[0], script)
    ensures Need(sizes[0], script) <= |script|
    ensures TakesAll(sizes, script) <==> TakesAll(sizes[1..], script[Need(sizes[0], script)..])
  {
    NeedIs(sizes[0], script, 0);
    TakesAllGreedily(sizes, script, Need(sizes[0], script));
  }

  lemma SpentNext(size: nat, script: seq<WriteResult>, at: nat)
    requires at <= |script| && Takes(size, script[at..])
    ensures SpentMore(at, size, script) == at + Need(size, script[at..]) <= |script|
  {
    NeedIs(size, script[at..], 0);
  }

  /** What the first `n` records leave decides about those after them. */
  lemma {:induction false} LeftDecides(sizes: seq<nat>, script: seq<WriteResult>, n: nat, j: nat)
    requires n <= j <= |sizes| && TakesAll(sizes[..n], script)
    ensures TakesAll(sizes[..j], script) <==> TakesAll(sizes[n..j], script[Spent(sizes, n, script)..])
    decreases n
  {
    if n == 0 {
      assert sizes[0..j] == sizes[..j] && script[0..] == script;
    } else {
      assert sizes[..n][..n - 1] == sizes[..n - 1];
      TakesFewer(sizes[..n], script, n - 1);
      LeftDecides(sizes, script, n - 1, n);
      LeftDecides(sizes, script, n - 1, j);
      DecidesNext(sizes, script, n - 1, Spent(sizes, n - 1, script), j);
    }
  }

  lemma DecidesNext(sizes: seq<nat>, script: seq<WriteResult>, n: nat, at: nat, j: nat)
    requires n < j <= |sizes| && at == Spent(sizes, n, script) && TakesAll(sizes[n..n + 1], script[at..])
    ensures TakesAll(sizes[n..j], script[at..]) <==> TakesAll(sizes[n + 1..j], script[Spent(sizes, n + 1, script)..])
  {
    assert sizes[n..n + 1] == [sizes[n]];
    TakesOne(sizes[n], script[at..]);
    SpentNext(sizes[n], script, at);
    AfterNeed(sizes[n..j], script[at..]);
    var used := Need(sizes[n], script[at..]);
    assert sizes[n..j][1..] == sizes[n + 1..j] && script[at..][used..] == script[at + used..];
  }

  lemma TakesOne(size: nat, script: seq<WriteResult>)
    ensures TakesAll([size], script) <==> Takes(size, script)
  {
    if Takes(size, script) {
      var k :| 0 <= k <= |script| && Unbroken(script[..k]) && Total(script[..k]) >= size;
      assert TakesAll([size][1..], script[k..]);
    }
  }

  /** Record `n` is taken after those before it if and only if the writes that they leave take it. */
  lemma TakesNext(sizes: seq<nat>, script: seq<WriteResult>, n: nat)
    requires n < |sizes| && TakesAll(sizes[..n], script)
    ensures var at := Spent(sizes, n, script);
      && (TakesAll(sizes[..n + 1], script) <==> Takes(sizes[n], script[at..]))
      && (Takes(sizes[n], script[at..]) ==> Spent(sizes, n + 1, script) == at + Need(sizes[n], script[at..]))
  {
    var at := Spent(sizes, n, script);
    LeftDecides(sizes, script, n, n + 1);
    TakesOne(sizes[n], script[at..]);
    assert sizes[n..n + 1] == [sizes[n]];
    if Takes(sizes[n], script[at..]) {
      SpentNext(sizes[n], script, at);
    }
  }
}
