/** Which buckets a client may write to: the list packed into its certificate, and the server's check. */
module Buckets {
  import opened Bytes
  import opened EntryWire
  import opened EntryTheorems
  import Buffer

  /** The bucket ids, four bytes each. */
  function Packed(ids: seq<u32>): (key: seq<byte>)
    ensures |key| == 4 * |ids| && |key| % 4 == 0
  {
    if |ids| == 0 then [] else Packed(ids[..|ids| - 1]) + Put32(ids[|ids| - 1])
  }

  /** The packing loop that fills the certificate's subject key id. */
  method PackBucketIds(ids: seq<u32>) returns (key: array<byte>)
    ensures fresh(key) && key[..] == Packed(ids)
  {
    key := new byte[4 * |ids|](_ => 0);
    var i := 0;
    while i < |ids|
      invariant 0 <= i <= |ids| && fresh(key) && key.Length == 4 * |ids|
      invariant key[..4 * i] == Packed(ids[..i])
    {
      ghost var before := key[..];
      var end := Buffer.Copy(key, 4 * i, Put32(ids[i]));
      Buffer.PatchedIs(before, 4 * i, Put32(ids[i]));
      assert key[..end] == before[..4 * i] + Put32(ids[i]);
      assert ids[..i + 1][..i] == ids[..i];
      i := i + 1;
    }
    assert ids[..i] == ids;
  }

  /** The buckets of a connection: all of them (a nil list), or those in the packed list. */
  datatype Allowed = Any | Only(key: seq<byte>)

  type GoodAllowed = a: Allowed | a.Only? ==> |a.key| % 4 == 0 witness Any

  /** One of the four-byte groups of `key` from group `k` on is `id`. */
  predicate Lists(key: seq<byte>, k: nat, id: seq<byte>)
    requires |key| % 4 == 0
    decreases |key| - 4 * k
  {
    4 * k < |key| && (key[4 * k..4 * k + 4] == id || Lists(key, k + 1, id))
  }

  /** The `k`-th four bytes of `key`. */
  function Group(key: seq<byte>, k: nat): seq<byte>
    requires 0 <= k < |key| / 4
  {
    key[4 * k..4 * k + 4]
  }

  lemma {:induction false} ListsGroup(key: seq<byte>, j: nat, id: seq<byte>)
    requires |key| % 4 == 0
    ensures Lists(key, j, id) <==> exists k :: j <= k < |key| / 4 && Group(key, k) == id
    decreases |key| - 4 * j
  {
    if 4 * j < |key| {
      ListsGroup(key, j + 1, id);
      assert Group(key, j) == key[4 * j..4 * j + 4];
    }
  }

  predicate Allows(allowed: GoodAllowed, id: seq<byte>) {
    allowed.Any? || Lists(allowed.key, 0, id)
  }

  /** `validBucketId`, on the connection's buffer. */
  method ValidBucketId(allowed: GoodAllowed, buf: array<byte>) returns (ok: bool)
    requires buf.Length >= 6
    ensures ok <==> Allows(allowed, buf[2..6])
    ensures ok <==> (allowed.Only? ==> exists k :: 0 <= k < |allowed.key| / 4 && Group(allowed.key, k) == buf[2..6])
  {
    if allowed.Only? { ListsGroup(allowed.key, 0, buf[2..6]); }
    if allowed.Any? { return true; }
    var i := 0;
    ghost var k: nat := 0;
    while i < |allowed.key|
      invariant i == 4 * k <= |allowed.key|
      invariant Lists(allowed.key, 0, buf[2..6]) == Lists(allowed.key, k, buf[2..6])
    {
      if buf[2..6] == allowed.key[i..i + 4] { return true; }
      i, k := i + 4, k + 1;
    }
    return false;
  }

  lemma {:induction false} PackedAt(ids: seq<u32>, k: nat)
    requires k < |ids|
    ensures Packed(ids)[4 * k..4 * k + 4] == Put32(ids[k])
  {
    var n := |ids| - 1;
    if k < n {
      PackedAt(ids[..n], k);
      assert Packed(ids)[4 * k..4 * k + 4] == Packed(ids[..n])[4 * k..4 * k + 4];
    }
  }

  lemma {:induction false} ListsIff(ids: seq<u32>, k: nat, id: u32)
    requires k <= |ids|
    ensures Lists(Packed(ids), k, Put32(id)) <==> id in ids[k..]
    decreases |ids| - k
  {
    if k < |ids| {
      PackedAt(ids, k);
      Put32Inverse(id, Put32(id));
      Put32Inverse(ids[k], Put32(ids[k]));
      ListsIff(ids, k + 1, id);
      assert ids[k..] == [ids[k]] + ids[k + 1..];
    }
  }

  lemma RecordBucket(e: Sendable)
    ensures |Record(e)| >= 6 && Record(e)[2..6] == Put32(e.bucketId)
  {
    RecordSize(e);
    RecordHolds(e);
    BodyHolds(e, Record(e), 0);
    HoldsSlice(Record(e), 2, Put32(e.bucketId));
  }

  /** Both encoders agree: the check lets a record pass exactly when its entry's bucket is on the list. */
  lemma BucketCheck(ids: seq<u32>, e: Sendable, record: seq<byte>)
    requires |record| >= 6 && record == Record(e)
    ensures Allows(Only(Packed(ids)), record[2..6]) <==> e.bucketId in ids
  {
    RecordBucket(e);
    ListsIff(ids, 0, e.bucketId);
    assert ids[0..] == ids;
  }
}
