/** Index arithmetic of a ring of slots. */
module Ring {

  /** `ByteChannel.wrap` */
  function Wrap(i: int, cap: nat): (r: nat)
    requires 0 < cap && 0 <= i + cap < 3 * cap
    ensures r < cap && r == if i < 0 then i + cap else if i < cap then i else i - cap
  {
    WrapMod(i + cap, cap);
    (i + cap) % cap
  }

  lemma WrapMod(i: int, cap: nat)
    requires 0 < cap && 0 <= i < 3 * cap
    ensures i % cap == if i < cap then i else if i < 2 * cap then i - cap else i - 2 * cap
  {
    Quotient(i, if i < cap then 0 else if i < 2 * cap then 1 else 2, cap);
  }

  lemma Quotient(i: int, k: int, cap: int)
    requires 0 < cap && 0 <= i - k * cap < cap
    ensures i % cap == i - k * cap
  {
    var d := i / cap - k;
    assert d * cap == (i / cap) * cap - k * cap;
    Multiple(d, cap);
  }

  lemma Multiple(d: int, cap: int)
    requires 0 < cap
    ensures d >= 1 ==> d * cap >= cap
    ensures d <= -1 ==> d * cap <= -cap
  {
    if d >= 1 {
      assert (d - 1) * cap >= 0;
    } else if d <= -1 {
      assert (-1 - d) * cap >= 0;
    }
  }

  /** The `len` slots from `start` on. */
  function Window<T>(slots: seq<T>, start: nat, len: nat): (w: seq<T>)
    requires 0 < |slots| && start < |slots| && len <= |slots|
    ensures |w| == len && forall k :: 0 <= k < len ==> w[k] == slots[Wrap(start + k, |slots|)]
  {
    seq(len, k requires 0 <= k < len => slots[Wrap(start + k, |slots|)])
  }

  /** Writing behind the last item of a ring with room appends. */
  lemma WindowAppends<T>(slots: seq<T>, start: nat, len: nat, x: T)
    requires 0 < |slots| && start < |slots| && len < |slots|
    ensures Window(slots[Wrap(start + len, |slots|) := x], start, len + 1) == Window(slots, start, len) + [x]
  {
  }

  /** Writing behind the last item of a full ring replaces the oldest one. */
  lemma WindowReplaces<T>(slots: seq<T>, start: nat, x: T)
    requires 0 < |slots| && start < |slots|
    ensures var cap := |slots|;
            Window(slots[Wrap(start + cap, cap) := x], Wrap(start + 1, cap), cap) == Window(slots, start, cap)[1..] + [x]
  {
  }

  lemma WindowDrops<T>(slots: seq<T>, start: nat, len: nat)
    requires 0 < |slots| && start < |slots| && 0 < len <= |slots|
    ensures Window(slots, Wrap(start + 1, |slots|), len - 1) == Window(slots, start, len)[1..]
  {
  }

  /** Slot `i` of a byte array of `cap` slots lies inside it and before the later slots. */
  lemma SlotRange(i: nat, cap: nat, size: nat)
    requires i < cap
    ensures 0 <= i * size
    ensures (i + 1) * size == i * size + size
    ensures i * size + size <= cap * size
  {
    SlotsApart(i, cap, size);
  }

  lemma {:induction false} SlotsApart(i: nat, j: nat, size: nat)
    requires i < j
    ensures i * size + size <= j * size
    decreases j
  {
    assert j * size == (j - 1) * size + size;
    if i < j - 1 {
      SlotsApart(i, j - 1, size);
    }
  }
}
