/** Writing into a byte buffer. */
module Buffer {
  import opened Bytes

  /** `w` with `data` written over it at `s`, byte by byte. */
  function Patched(w: seq<byte>, s: nat, data: seq<byte>): (r: seq<byte>)
    requires s + |data| <= |w|
    ensures |r| == |w|
  {
    if |data| == 0 then w
    else Patched(w, s, data[..|data| - 1])[s + |data| - 1 := data[|data| - 1]]
  }

  lemma {:induction false} PatchedIs(w: seq<byte>, s: nat, data: seq<byte>)
    requires s + |data| <= |w|
    ensures Patched(w, s, data) == w[..s] + data + w[s + |data|..]
  {
    if |data| > 0 {
      PatchedIs(w, s, data[..|data| - 1]);
    }
  }

  lemma PatchedStart(w: seq<byte>, data: seq<byte>)
    requires |data| <= |w|
    ensures Patched(w, 0, data) == data + w[|data|..]
  {
    PatchedIs(w, 0, data);
    assert w[..0] + data == data;
  }

  lemma {:induction false} PatchNext(w: seq<byte>, s: nat, xs: seq<byte>, ys: seq<byte>)
    requires s + |xs| + |ys| <= |w|
    ensures Patched(Patched(w, s, xs), s + |xs|, ys) == Patched(w, s, xs + ys)
  {
    if |ys| == 0 {
      assert xs + ys == xs;
    } else {
      assert (xs + ys)[..|xs + ys| - 1] == xs + ys[..|ys| - 1];
      PatchNext(w, s, xs, ys[..|ys| - 1]);
    }
  }

  /** Overwriting the first byte of a section: the count of a list that was cut short. */
  lemma PatchFirst(w: seq<byte>, s: nat, x: byte, y: byte, xs: seq<byte>)
    requires s + 1 + |xs| <= |w|
    ensures Patched(Patched(w, s, [x] + xs), s, [y]) == Patched(w, s, [y] + xs)
  {
    PatchedIs(w, s, [x] + xs);
    PatchedIs(w, s, [y] + xs);
    PatchedIs(Patched(w, s, [x] + xs), s, [y]);
  }

  lemma PatchBefore(w: seq<byte>, s: nat, xs: seq<byte>, ys: seq<byte>)
    requires s + |xs| + |ys| <= |w|
    ensures Patched(Patched(w, s + |xs|, ys), s, xs) == Patched(w, s, xs + ys)
  {
    PatchedIs(w, s + |xs|, ys);
    PatchedIs(w, s, xs + ys);
    PatchedIs(Patched(w, s + |xs|, ys), s, xs);
  }

  /** Go's `copy` into the rest of a buffer that has room. */
  method Copy(b: array<byte>, s: nat, data: seq<byte>) returns (end: nat)
    requires s + |data| <= b.Length
    modifies b
    ensures b[..] == Patched(old(b[..]), s, data) && end == s + |data|
  {
    var k := 0;
    while k < |data|
      invariant 0 <= k <= |data|
      invariant b[..] == Patched(old(b[..]), s, data[..k])
    {
      b[s + k] := data[k];
      k := k + 1;
      assert data[..k][..k - 1] == data[..k - 1];
    }
    end := s + |data|;
    assert data[..k] == data;
  }
}
