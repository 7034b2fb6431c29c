/** Bytes, fixed-width integers and their big-endian encodings. */
module Bytes {

  type byte = x: int | 0 <= x < 256
  type u16 = x: int | 0 <= x < 0x1_0000
  type u32 = x: int | 0 <= x < 0x1_0000_0000
  type i32 = x: int | -0x8000_0000 <= x < 0x8000_0000

  /** Go strings are byte sequences. */
  type Str = seq<byte>

  function Put16(v: u16): (b: seq<byte>)
    ensures |b| == 2
  {
    [v / 256, v % 256]
  }

  function Get16(b: seq<byte>): u16
    requires |b| == 2
  {
    (b[0] as int) * 256 + b[1]
  }

  function Put32(v: u32): (b: seq<byte>)
    ensures |b| == 4
  {
    Put16(v / 0x1_0000) + Put16(v % 0x1_0000)
  }

  function Get32(b: seq<byte>): u32
    requires |b| == 4
  {
    (Get16(b[..2]) as int) * 0x1_0000 + Get16(b[2..])
  }

  /** The two's complement bits of a signed value, as the `uint32` conversion gives them. */
  function Unsigned(v: i32): u32 {
    if v < 0 then v + 0x1_0000_0000 else v
  }

  function Signed(v: u32): i32 {
    if v < 0x8000_0000 then v else v - 0x1_0000_0000
  }

  lemma Put16Inverse(v: u16, b: seq<byte>)
    requires |b| == 2
    ensures Get16(Put16(v)) == v
    ensures Put16(Get16(b)) == b
  {
    assert Put16(Get16(b)) == [b[0], b[1]];
  }

  lemma Put32Inverse(v: u32, b: seq<byte>)
    requires |b| == 4
    ensures Get32(Put32(v)) == v
    ensures Put32(Get32(b)) == b
  {
    var hi, lo := Put16(v / 0x1_0000), Put16(v % 0x1_0000);
    assert Put32(v)[..2] == hi && Put32(v)[2..] == lo;
    Put16Inverse(v / 0x1_0000, b[..2]);
    Put16Inverse(v % 0x1_0000, b[2..]);
    assert Get32(b) / 0x1_0000 == Get16(b[..2]) && Get32(b) % 0x1_0000 == Get16(b[2..]);
    assert b == b[..2] + b[2..];
  }

  lemma SignedInverse(v: u32)
    ensures Unsigned(Signed(v)) == v
  {
  }

  /** The order of byte strings of the same length. */
  predicate Precedes(a: seq<byte>, b: seq<byte>)
    requires |a| == |b|
  {
    |a| > 0 && (a[0] < b[0] || (a[0] == b[0] && Precedes(a[1..], b[1..])))
  }

  lemma Precedes16(v: u16, w: u16)
    ensures v < w <==> Precedes(Put16(v), Put16(w))
  {
    assert Put16(v)[1..] == [v % 256] && Put16(w)[1..] == [w % 256];
    assert Precedes([v % 256], [w % 256]) <==> v % 256 < w % 256;
  }

  /** Integers are written with the most significant byte first: their encodings sort as they do. */
  lemma BigEndianSorts(v: u32, w: u32)
    ensures v < w <==> Precedes(Put32(v), Put32(w))
  {
    var a, c := Put16(v / 0x1_0000), Put16(w / 0x1_0000);
    var x, y := Put16(v % 0x1_0000), Put16(w % 0x1_0000);
    Precedes16(v / 0x1_0000, w / 0x1_0000);
    Precedes16(v % 0x1_0000, w % 0x1_0000);
    Put16Inverse(v / 0x1_0000, c);
    Put16Inverse(w / 0x1_0000, a);
    assert Put32(v)[1..] == [a[1]] + x && Put32(w)[1..] == [c[1]] + y;
    assert Put32(v)[1..][1..] == x && Put32(w)[1..][1..] == y;
    assert a[1..][0] == a[1] && c[1..][0] == c[1];
  }

  /** A signed value is written as its two's complement. */
  lemma TwosComplement(v: i32)
    ensures Unsigned(v) % 0x1_0000_0000 == v % 0x1_0000_0000 && Signed(Unsigned(v)) == v
  {
  }

  // ---------------------------------------------------------------- strings laid out in a buffer

  /** The rows one after the other. */
  function Flatten(rows: seq<seq<byte>>): seq<byte> {
    if |rows| == 0 then [] else Flatten(rows[..|rows| - 1]) + rows[|rows| - 1]
  }

  /** Bytes `w` stand in `b` at `s`. */
  predicate Holds(b: seq<byte>, s: nat, w: seq<byte>) {
    s + |w| <= |b| && forall k {:trigger w[k]} :: 0 <= k < |w| ==> b[s + k] == w[k]
  }

  lemma HoldsSlice(b: seq<byte>, s: nat, w: seq<byte>)
    ensures Holds(b, s, w) <==> s + |w| <= |b| && b[s..s + |w|] == w
  {
    if s + |w| <= |b| && b[s..s + |w|] == w {
      forall k | 0 <= k < |w| ensures b[s + k] == w[k] {
        assert b[s..s + |w|][k] == w[k];
      }
    }
  }

  lemma HoldsSplit(b: seq<byte>, s: nat, x: seq<byte>, y: seq<byte>)
    ensures Holds(b, s, x + y) <==> Holds(b, s, x) && Holds(b, s + |x|, y)
  {
    if Holds(b, s, x + y) {
      forall k | 0 <= k < |x| ensures b[s + k] == x[k] {
        assert (x + y)[k] == x[k];
      }
      forall k | 0 <= k < |y| ensures b[s + |x| + k] == y[k] {
        assert (x + y)[|x| + k] == y[k];
      }
    }
  }

  lemma HoldsThree(b: seq<byte>, s: nat, x: seq<byte>, y: seq<byte>, z: seq<byte>)
    requires Holds(b, s, x + y + z)
    ensures Holds(b, s, x) && Holds(b, s + |x|, y) && Holds(b, s + |x| + |y|, z)
  {
    HoldsSplit(b, s, x + y, z);
    HoldsSplit(b, s, x, y);
  }

  lemma HeldByte(b: seq<byte>, s: nat, x: byte)
    requires Holds(b, s, [x])
    ensures b[s] == x
  {
    assert b[s] == [x][0];
  }

  /** Where row `i` starts. */
  function Offset(rows: seq<seq<byte>>, i: nat): nat
    requires i <= |rows|
  {
    |Flatten(rows[..i])|
  }

  lemma OffsetStep(rows: seq<seq<byte>>, i: nat)
    requires i < |rows|
    ensures Flatten(rows[..i + 1]) == Flatten(rows[..i]) + rows[i]
    ensures Offset(rows, i + 1) == Offset(rows, i) + |rows[i]|
  {
    assert rows[..i + 1][..i] == rows[..i];
  }

  /** Every row of a flattened list is found at its offset. */
  lemma {:induction false} RowHeld(b: seq<byte>, s: nat, rows: seq<seq<byte>>, i: nat)
    requires i < |rows| && Holds(b, s, Flatten(rows))
    ensures Holds(b, s + Offset(rows, i), rows[i])
    ensures Offset(rows, i + 1) == Offset(rows, i) + |rows[i]| && s + Offset(rows, i + 1) <= |b|
    decreases |rows|
  {
    var n := |rows| - 1;
    HoldsSplit(b, s, Flatten(rows[..n]), rows[n]);
    OffsetStep(rows, i);
    if i == n {
      assert rows[..n + 1] == rows;
    } else {
      RowHeld(b, s, rows[..n], i);
      assert rows[..n][..i] == rows[..i] && rows[..n][..i + 1] == rows[..i + 1];
    }
  }

  lemma Regroup(x: seq<byte>, y: seq<byte>, z: seq<byte>)
    ensures x + y + z == x + (y + z)
  {
  }
}
