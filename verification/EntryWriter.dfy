/** `Entry.Encode` on any entry and any buffer: a moving cursor, with every write that can panic. */
module EntryWriter {
  import opened Bytes
  import opened Buffer
  import opened EntryWire

  /** The buffer and the cursor. */
  datatype Out = Out(w: seq<byte>, s: nat)

  // ---------------------------------------------------------------- what is written

  /** Fixed-width bytes: all of them fit, or the write panics. */
  function Put(o: Out, data: seq<byte>): Res<Out> {
    if o.s + |data| <= |o.w| then Ok(Out(Patched(o.w, o.s, data), o.s + |data|)) else Crash
  }

  /** Go's `copy`: as much as there is room for. A cursor past the end panics. */
  function CopiedIn(o: Out, data: seq<byte>): Res<Out> {
    if o.s > |o.w| then Crash else
    var n := if |o.w| - o.s < |data| then |o.w| - o.s else |data|;
    Ok(Out(Patched(o.w, o.s, data[..n]), o.s + n))
  }

  /** What follows the key of an item. */
  function TailWritten(e: EntryVal, kind: Kind, i: nat, o: Out): Res<Out>
    requires HasItem(kind, i)
  {
    match kind
    case Tags => Ok(o)
    case Metrics => Put(o, Put32(Unsigned(e.metrics.nums[i])))
    case Trace => Put(o, Put16(e.trace.lines[i]))
    case Meta =>
      var o1 :- Put(o, Put16(|e.meta.vals[i]| % 0x1_0000));
      CopiedIn(o1, e.meta.vals[i])
  }

  function ItemWritten(e: EntryVal, kind: Kind, i: nat, o: Out): Res<Out>
    requires HasItem(kind, i)
  {
    var o1 :- Put(o, [KeyLen(e, kind, i) % 256]);
    var o2 :- CopiedIn(o1, e.List(kind).keys[i]);
    TailWritten(e, kind, i, o2)
  }

  /** The loop over the items from item `i` on; the count byte stands at `pos`. An index past the arrays panics; the
      metric loop indexes the 16 trace paths. */
  function ItemsWritten(e: EntryVal, kind: Kind, i: nat, o: Out, pos: nat): Res<Out>
    decreases e.List(kind).count - i
  {
    if i >= e.List(kind).count then Ok(o)
    else if !HasItem(kind, i) then Crash
    else if !Fits(e, kind, i, o.s) then (if pos < |o.w| then Ok(o.(w := Patched(o.w, pos, [i]))) else Crash)
    else
      var o1 :- ItemWritten(e, kind, i, o);
      ItemsWritten(e, kind, i + 1, o1, pos)
  }

  function ListWritten(e: EntryVal, kind: Kind, o: Out): Res<Out> {
    var o1 :- Put(o, [e.List(kind).count]);
    ItemsWritten(e, kind, 0, o1, o.s)
  }

  /** The section of level `l`; there is none past level 10. */
  function SectionWritten(e: EntryVal, l: nat, o: Out): Res<Out> {
    if l == 0 then Put(o, Put32(e.bucketId))
    else if l == 1 then CopiedIn(o, e.id)
    else if l == 2 then Put(o, [e.severity])
    else if l == 3 then
      var o1 :- Put(o, [|e.message| % 256]);
      CopiedIn(o1, e.message)
    else if l == 4 then Put(o, [e.categoryId])
    else if l <= 8 then ListWritten(e, KindOf(l), o)
    else if l == 9 then Put(o, Put16(e.ttlEntry))
    else if l == 10 then Put(o, Put16(e.ttlMeta))
    else Ok(o)
  }

  /** How the section of a level is written. */
  type Part = (nat, Out) -> Res<Out>

  function Parts(e: EntryVal): Part { (l: nat, o: Out) => SectionWritten(e, l, o) }

  /** The parts below level `l`, in order. The cursor starts at 2, after the size annotation. */
  function PartsWritten(part: Part, l: nat, w: seq<byte>): Res<Out> {
    if l == 0 then Ok(Out(w, 2)) else
    var o :- PartsWritten(part, l - 1, w);
    part(l - 1, o)
  }

  function LevelsWritten(e: EntryVal, l: nat, w: seq<byte>): Res<Out> {
    PartsWritten(Parts(e), l, w)
  }

  /** `Encode`: the sections up to the entry's level, then the size annotation. */
  function Encoded(e: EntryVal, w: seq<byte>): Res<Out> {
    WithSize(LevelsWritten(e, e.level + 1, w))
  }

  function WithSize(r: Res<Out>): Res<Out> {
    var o :- r;
    if |o.w| < 2 then Crash else Ok(Out(Patched(o.w, 0, Put16(o.s % 0x1_0000)), o.s))
  }

  // ---------------------------------------------------------------- the methods

  /** A write went as specified: it panicked, or left this buffer and cursor. */
  predicate Wrote(r: Res<Out>, ok: bool, w: seq<byte>, s: nat) {
    match r
    case Crash => !ok
    case Ok(o) => ok && o.w == w && o.s == s
  }

  method PutBytes(b: array<byte>, start: nat, data: seq<byte>) returns (ok: bool, s: nat)
    modifies b
    ensures Wrote(Put(Out(old(b[..]), start), data), ok, b[..], s)
  {
    if start + |data| > b.Length { return false, start; }
    s := Copy(b, start, data);
    ok := true;
  }

  method CopyBytes(b: array<byte>, start: nat, data: seq<byte>) returns (ok: bool, s: nat)
    modifies b
    ensures Wrote(CopiedIn(Out(old(b[..]), start), data), ok, b[..], s)
  {
    if start > b.Length { return false, start; }
    var n := if b.Length - start < |data| then b.Length - start else |data|;
    s := Copy(b, start, data[..n]);
    ok := true;
  }

  method EncodeTail(e: EntryVal, kind: Kind, i: nat, b: array<byte>, start: nat) returns (ok: bool, s: nat)
    requires HasItem(kind, i)
    modifies b
    ensures Wrote(TailWritten(e, kind, i, Out(old(b[..]), start)), ok, b[..], s)
  {
    ok, s := true, start;
    match kind
    case Tags =>
    case Metrics => ok, s := PutBytes(b, s, Put32(Unsigned(e.metrics.nums[i])));
    case Trace => ok, s := PutBytes(b, s, Put16(e.trace.lines[i]));
    case Meta =>
      ok, s := PutBytes(b, s, Put16(|e.meta.vals[i]| % 0x1_0000));
      if ok { ok, s := CopyBytes(b, s, e.meta.vals[i]); }
  }

  /** One round of the loop over the items of a list. */
  method EncodeItem(e: EntryVal, kind: Kind, i: nat, b: array<byte>, start: nat) returns (ok: bool, s: nat)
    requires HasItem(kind, i)
    modifies b
    ensures Wrote(ItemWritten(e, kind, i, Out(old(b[..]), start)), ok, b[..], s)
  {
    ok, s := PutBytes(b, start, [KeyLen(e, kind, i) % 256]);
    if !ok { return; }
    ok, s := CopyBytes(b, s, e.List(kind).keys[i]);
    if !ok { return; }
    ok, s := EncodeTail(e, kind, i, b, s);
  }

  /** A list section: the count, then items until one does not fit; then the count is corrected. */
  method EncodeList(e: EntryVal, kind: Kind, b: array<byte>, pos: nat) returns (ok: bool, s: nat)
    modifies b
    ensures Wrote(ListWritten(e, kind, Out(old(b[..]), pos)), ok, b[..], s)
  {
    var count := e.List(kind).count;
    ok, s := PutBytes(b, pos, [count]);
    if !ok { return; }
    ghost var goal := ItemsWritten(e, kind, 0, Out(b[..], s), pos);
    var i: nat := 0;
    while i < count
      invariant i <= count && ok
      invariant goal == ItemsWritten(e, kind, i, Out(b[..], s), pos)
    {
      if !HasItem(kind, i) { return false, s; }
      if !Fits(e, kind, i, s) {
        if pos >= b.Length { return false, s; }
        var _ := Copy(b, pos, [i]);
        return;
      }
      ItemsNext(e, kind, i, Out(b[..], s), pos, ItemWritten(e, kind, i, Out(b[..], s)));
      ok, s := EncodeItem(e, kind, i, b, s);
      if !ok { return; }
      i := i + 1;
    }
  }

  method EncodeSection(e: EntryVal, l: nat, b: array<byte>, start: nat) returns (ok: bool, s: nat)
    modifies b
    ensures Wrote(SectionWritten(e, l, Out(old(b[..]), start)), ok, b[..], s)
  {
    ok, s := true, start;
    match l
    case 0 => ok, s := PutBytes(b, s, Put32(e.bucketId));
    case 1 => ok, s := CopyBytes(b, s, e.id);
    case 2 => ok, s := PutBytes(b, s, [e.severity]);
    case 3 =>
      ok, s := PutBytes(b, s, [|e.message| % 256]);
      if ok { ok, s := CopyBytes(b, s, e.message); }
    case 4 => ok, s := PutBytes(b, s, [e.categoryId]);
    case 9 => ok, s := PutBytes(b, s, Put16(e.ttlEntry));
    case 10 => ok, s := PutBytes(b, s, Put16(e.ttlMeta));
    case _ =>
      if l <= 8 { ok, s := EncodeList(e, KindOf(l), b, s); }
  }

  /** One round of the loop over the levels, on a buffer that held `w` at first. */
  method EncodeLevel(e: EntryVal, l: nat, b: array<byte>, start: nat, ghost w: seq<byte>) returns (ok: bool, s: nat)
    requires LevelsWritten(e, l, w) == Ok(Out(b[..], start))
    modifies b
    ensures Wrote(LevelsWritten(e, l + 1, w), ok, b[..], s)
  {
    LevelsNext(e, l, w, Out(b[..], start), SectionWritten(e, l, Out(b[..], start)));
    ok, s := EncodeSection(e, l, b, start);
  }

  /** The loop over the levels, up to level `stop`. */
  method EncodeLevels(e: EntryVal, b: array<byte>) returns (ok: bool, s: nat, ghost stop: nat)
    requires e.level < 255
    modifies b
    ensures stop <= e.level + 1 && (ok ==> stop == e.level + 1)
    ensures Wrote(LevelsWritten(e, stop, old(b[..])), ok, b[..], s)
  {
    ghost var w := b[..];
    var l: byte := 0;
    ok, s, stop := true, 2, 0;
    while l <= e.level
      invariant l <= e.level + 1 && ok && stop == l
      invariant LevelsWritten(e, l, w) == Ok(Out(b[..], s))
    {
      ok, s := EncodeLevel(e, l, b, s, w);
      stop := l + 1;
      if !ok { return; }
      l := l + 1;
    }
  }

  /** The whole of `Encode`, on every entry and every buffer. At level 255 the counter of the source's loop wraps
      and the loop does not end. */
  method EncodeInto(e: EntryVal, b: array<byte>) returns (ok: bool, s: nat)
    requires e.level < 255
    modifies b
    ensures Wrote(Encoded(e, old(b[..])), ok, b[..], s)
  {
    ghost var w, stop := b[..], 0;
    ok, s, stop := EncodeLevels(e, b);
    if !ok {
      CrashStays(Parts(e), stop, e.level + 1, w);
      return;
    }
    if b.Length < 2 { return false, s; }
    var _ := Copy(b, 0, Put16(s % 0x1_0000));
  }

  lemma ItemsNext(e: EntryVal, kind: Kind, i: nat, o: Out, pos: nat, r: Res<Out>)
    requires i < e.List(kind).count && HasItem(kind, i) && Fits(e, kind, i, o.s) && ItemWritten(e, kind, i, o) == r
    ensures ItemsWritten(e, kind, i, o, pos) == if r.Crash? then Crash else ItemsWritten(e, kind, i + 1, r.value, pos)
  {
  }

  lemma LevelsNext(e: EntryVal, l: nat, w: seq<byte>, o: Out, r: Res<Out>)
    requires LevelsWritten(e, l, w) == Ok(o) && SectionWritten(e, l, o) == r
    ensures LevelsWritten(e, l + 1, w) == r
  {
  }

  lemma {:induction false} CrashStays(part: Part, l: nat, n: nat, w: seq<byte>)
    requires PartsWritten(part, l, w).Crash? && l <= n
    ensures PartsWritten(part, n, w).Crash?
  {
    if l < n {
      CrashStays(part, l, n - 1, w);
    }
  }
}
