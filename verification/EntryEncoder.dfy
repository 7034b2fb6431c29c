/** What `Encode` leaves in a buffer that has room is the record of the entry, and when a buffer has none. */
module EntryEncoder {
  import opened Bytes
  import opened Buffer
  import opened EntryWire
  import opened EntryRoundTrip
  import opened EntryTheorems
  import opened EntrySize
  import opened EntryWriter

  lemma {:induction false} FlattenGrows(rows: seq<seq<byte>>, i: nat)
    requires i <= |rows|
    ensures |Flatten(rows[..i])| <= |Flatten(rows)|
  {
    if i < |rows| {
      FlattenGrows(rows[..|rows| - 1], i);
      assert rows[..|rows| - 1][..i] == rows[..i];
    } else {
      assert rows[..i] == rows;
    }
  }

  /** Where the loop over the items stands: `i` of the rows that it will write, `done`, end at cursor `s`. */
  predicate Listing(rows: seq<seq<byte>>, pos: nat, i: nat, s: nat, done: seq<byte>) {
    i <= |rows| && done == Flatten(rows[..i]) && s == pos + 1 + |done|
  }

  lemma ListingStep(rows: seq<seq<byte>>, pos: nat, i: nat, s: nat, done: seq<byte>)
    requires Listing(rows, pos, i, s, done) && i < |rows|
    ensures Listing(rows, pos, i + 1, s + |rows[i]|, done + rows[i])
    ensures s + |rows[i]| <= pos + 1 + |Flatten(rows)|
  {
    OffsetStep(rows, i);
    FlattenGrows(rows, i + 1);
  }

  lemma {:induction false} KeptFrom(e: EntryVal, kind: Kind, i: nat, s: nat)
    requires HasItems(e, kind) && i <= Kept(e, kind, 0, s)
    ensures i <= e.List(kind).count
    ensures Kept(e, kind, i, s + SizeTo(e, kind, i)) == Kept(e, kind, 0, s)
  {
    if i > 0 {
      KeptFrom(e, kind, i - 1, s);
    }
  }

  /** The loop's own test says whether there are items left to keep. */
  lemma KeepsOn(e: EntryVal, kind: Kind, pos: nat, i: nat)
    requires HasItems(e, kind) && i <= Kept(e, kind, 0, pos + 1)
    ensures i <= e.List(kind).count
    ensures i < Kept(e, kind, 0, pos + 1) <==> i < e.List(kind).count && Fits(e, kind, i, pos + 1 + SizeTo(e, kind, i))
  {
    KeptFrom(e, kind, i, pos + 1);
  }

  lemma ListingSize(e: EntryVal, kind: Kind, n: nat, pos: nat, i: nat, s: nat, done: seq<byte>)
    requires HasItems(e, kind) && n <= e.List(kind).count && Listing(Rows(e, kind, n), pos, i, s, done)
    ensures s == pos + 1 + SizeTo(e, kind, i)
  {
    RowsSize(e, kind, i);
    assert Rows(e, kind, n)[..i] == Rows(e, kind, i);
  }

  lemma GuardIff(e: EntryVal, kind: Kind, n: nat, pos: nat, i: nat, s: nat, done: seq<byte>)
    requires HasItems(e, kind) && n == Kept(e, kind, 0, pos + 1)
    requires Listing(Rows(e, kind, n), pos, i, s, done)
    ensures i < n <==> i < e.List(kind).count && Fits(e, kind, i, s)
  {
    KeepsOn(e, kind, pos, i);
    ListingSize(e, kind, n, pos, i, s, done);
  }

  /** `r` is `o` with `data` written at the cursor. */
  predicate Appends(r: Res<Out>, o: Out, data: seq<byte>) {
    o.s + |data| <= |o.w| && r == Ok(Out(Patched(o.w, o.s, data), o.s + |data|))
  }

  lemma AppendsTwice(o: Out, x: seq<byte>, y: seq<byte>, r: Res<Out>)
    requires o.s + |x| + |y| <= |o.w|
    requires Appends(r, Out(Patched(o.w, o.s, x), o.s + |x|), y)
    ensures Appends(r, o, x + y)
  {
    PatchNext(o.w, o.s, x, y);
  }

  lemma CopyAppends(o: Out, data: seq<byte>)
    requires o.s + |data| <= |o.w|
    ensures Appends(CopiedIn(o, data), o, data)
  {
    assert data[..|data|] == data;
  }

  lemma TailAppends(e: EntryVal, kind: Kind, i: nat, o: Out)
    requires HasItem(kind, i) && o.s + |Tail(e, kind, i)| <= |o.w|
    ensures Appends(TailWritten(e, kind, i, o), o, Tail(e, kind, i))
  {
    if kind == Meta {
      var size, val := Put16(|e.meta.vals[i]| % 0x1_0000), e.meta.vals[i];
      CopyAppends(Out(Patched(o.w, o.s, size), o.s + 2), val);
      AppendsTwice(o, size, val, TailWritten(e, kind, i, o));
    }
  }

  lemma ItemAppends(e: EntryVal, kind: Kind, i: nat, o: Out)
    requires HasItem(kind, i) && o.s + |Item(e, kind, i)| <= |o.w|
    ensures Appends(ItemWritten(e, kind, i, o), o, Item(e, kind, i))
  {
    var size, key, tail := [KeyLen(e, kind, i) % 256], e.List(kind).keys[i], Tail(e, kind, i);
    var o1 := Out(Patched(o.w, o.s, size), o.s + 1);
    var o2 := Out(Patched(o1.w, o1.s, key), o1.s + |key|);
    CopyAppends(o1, key);
    TailAppends(e, kind, i, o2);
    AppendsTwice(o1, key, tail, TailWritten(e, kind, i, o2));
    AppendsTwice(o, size, key + tail, TailWritten(e, kind, i, o2));
    Regroup(size, key, tail);
  }

  /** What the loop over the items has to do to the section so far. */
  lemma ItemContinues(e: EntryVal, kind: Kind, i: nat, w: seq<byte>, pos: nat, before: seq<byte>)
    requires HasItem(kind, i) && pos + |before| + |Item(e, kind, i)| <= |w|
    ensures ItemWritten(e, kind, i, Out(Patched(w, pos, before), pos + |before|))
         == Ok(Out(Patched(w, pos, before + Item(e, kind, i)), pos + |before| + |Item(e, kind, i)|))
  {
    ItemAppends(e, kind, i, Out(Patched(w, pos, before), pos + |before|));
    PatchNext(w, pos, before, Item(e, kind, i));
  }

  /** The buffer and cursor before round `i` of the loop, with the items `done` written. */
  function Standing(w: seq<byte>, pos: nat, count: byte, done: seq<byte>): Out
    requires pos + 1 + |done| <= |w|
  {
    Out(Patched(w, pos, [count] + done), pos + 1 + |done|)
  }

  lemma ItemsStep(e: EntryVal, kind: Kind, i: nat, w: seq<byte>, pos: nat, done: seq<byte>, row: seq<byte>)
    requires i < e.List(kind).count && HasItem(kind, i) && row == Item(e, kind, i)
    requires Fits(e, kind, i, pos + 1 + |done|) && pos + 1 + |done + row| <= |w|
    ensures ItemsWritten(e, kind, i, Standing(w, pos, e.List(kind).count, done), pos)
         == ItemsWritten(e, kind, i + 1, Standing(w, pos, e.List(kind).count, done + row), pos)
  {
    var count := e.List(kind).count;
    ItemContinues(e, kind, i, w, pos, [count] + done);
    Regroup([count], done, row);
    ItemsNext(e, kind, i, Standing(w, pos, count, done), pos, Ok(Standing(w, pos, count, done + row)));
  }

  lemma ItemsStop(e: EntryVal, kind: Kind, i: nat, w: seq<byte>, pos: nat, done: seq<byte>)
    requires i <= e.List(kind).count && (i < e.List(kind).count ==> HasItem(kind, i) && !Fits(e, kind, i, pos + 1 + |done|))
    requires pos + 1 + |done| <= |w|
    ensures ItemsWritten(e, kind, i, Standing(w, pos, e.List(kind).count, done), pos) == Ok(Standing(w, pos, i, done))
  {
    PatchFirst(w, pos, e.List(kind).count, i, done);
  }

  /** The loop over the items writes those that fit, one after the other, and corrects the count. */
  lemma {:induction false} ItemsAppend(e: EntryVal, kind: Kind, n: nat, w: seq<byte>, pos: nat, i: nat, done: seq<byte>)
    requires HasItems(e, kind) && n == Kept(e, kind, 0, pos + 1)
    requires Listing(Rows(e, kind, n), pos, i, pos + 1 + |done|, done) && pos + 1 + |done| <= |w|
    requires pos + 1 + |Flatten(Rows(e, kind, n))| <= |w|
    ensures ItemsWritten(e, kind, i, Standing(w, pos, e.List(kind).count, done), pos)
         == Ok(Standing(w, pos, n, Flatten(Rows(e, kind, n))))
    decreases n - i
  {
    var rows := Rows(e, kind, n);
    GuardIff(e, kind, n, pos, i, pos + 1 + |done|, done);
    if i < n {
      ListingStep(rows, pos, i, pos + 1 + |done|, done);
      ItemsStep(e, kind, i, w, pos, done, rows[i]);
      ItemsAppend(e, kind, n, w, pos, i + 1, done + rows[i]);
    } else {
      assert rows[..i] == rows;
      ItemsStop(e, kind, i, w, pos, done);
    }
  }

  lemma ListStarts(e: EntryVal, kind: Kind, o: Out)
    requires o.s + 1 <= |o.w|
    ensures ListWritten(e, kind, o) == ItemsWritten(e, kind, 0, Standing(o.w, o.s, e.List(kind).count, []), o.s)
  {
    assert [e.List(kind).count] + [] == [e.List(kind).count];
  }

  lemma AllItemsAppend(e: EntryVal, kind: Kind, o: Out, n: nat, items: seq<byte>)
    requires HasItems(e, kind) && n == Kept(e, kind, 0, o.s + 1) && items == Flatten(Rows(e, kind, n))
    requires o.s + 1 + |items| <= |o.w|
    ensures ListWritten(e, kind, o) == Ok(Standing(o.w, o.s, n, items))
  {
    ListStarts(e, kind, o);
    ItemsAppend(e, kind, n, o.w, o.s, 0, []);
  }

  lemma StandingAppends(o: Out, n: byte, items: seq<byte>, r: Res<Out>)
    requires o.s + 1 + |items| <= |o.w| && r == Ok(Standing(o.w, o.s, n, items))
    ensures Appends(r, o, [n] + items)
  {
  }

  lemma ListAppends(e: EntryVal, kind: Kind, o: Out)
    requires HasItems(e, kind) && o.s + |ListSection(e, kind, o.s)| <= |o.w|
    ensures Appends(ListWritten(e, kind, o), o, ListSection(e, kind, o.s))
  {
    var n := Kept(e, kind, 0, o.s + 1);
    var items := Flatten(Rows(e, kind, n));
    AllItemsAppend(e, kind, o, n, items);
    StandingAppends(o, n, items, ListWritten(e, kind, o));
  }

  lemma SectionAppends(e: Sendable, l: nat, o: Out)
    requires l <= e.level && o.s + |Section(e, l, o.s)| <= |o.w|
    ensures Appends(SectionWritten(e, l, o), o, Section(e, l, o.s))
  {
    if l == 1 {
      CopyAppends(o, e.id);
    } else if l == 3 {
      var size := [|e.message| % 256];
      CopyAppends(Out(Patched(o.w, o.s, size), o.s + 1), e.message);
      AppendsTwice(o, size, e.message, SectionWritten(e, l, o));
    } else if 5 <= l <= 8 {
      ListAppends(e, KindOf(l), o);
    }
  }

  /** Wherever it fits, `part` writes what `section` says for level `k`. */
  ghost predicate Writes(part: Part, section: Writer, k: nat) {
    forall o: Out :: o.s + |section(k, o.s)| <= |o.w| ==> Appends(part(k, o), o, section(k, o.s))
  }

  lemma {:induction false} PartsAppend(part: Part, section: Writer, l: nat, w: seq<byte>)
    requires (forall k :: 0 <= k < l ==> Writes(part, section, k)) && 2 + |Chain(section, l)| <= |w|
    ensures Appends(PartsWritten(part, l, w), Out(w, 2), Chain(section, l))
  {
    if l > 0 {
      PartsAppend(part, section, l - 1, w);
      var before := Chain(section, l - 1);
      var o := Out(Patched(w, 2, before), 2 + |before|);
      assert Writes(part, section, l - 1);
      assert Appends(part(l - 1, o), o, section(l - 1, o.s));
      AppendsTwice(Out(w, 2), before, section(l - 1, o.s), part(l - 1, o));
    }
  }

  lemma SectionWrites(e: Sendable, l: nat)
    requires l <= e.level
    ensures Writes(Parts(e), Sections(e), l)
  {
    forall o: Out | o.s + |Section(e, l, o.s)| <= |o.w|
      ensures Appends(SectionWritten(e, l, o), o, Section(e, l, o.s))
    {
      SectionAppends(e, l, o);
    }
  }

  /** As far as the sections fit, the loop over the levels writes them. */
  lemma LevelsAppend(e: Sendable, l: nat, w: seq<byte>)
    requires l <= e.level + 1 && Start(e, l) <= |w|
    ensures Appends(LevelsWritten(e, l, w), Out(w, 2), Body(e, l))
  {
    forall k | 0 <= k < l ensures Writes(Parts(e), Sections(e), k) {
      SectionWrites(e, k);
    }
    PartsAppend(Parts(e), Sections(e), l, w);
  }

  lemma AnnotatedIs(w: seq<byte>, body: seq<byte>, r: Res<Out>)
    requires 2 + |body| <= |w| && Appends(r, Out(w, 2), body)
    ensures var record := Put16((2 + |body|) % 0x1_0000) + body;
      WithSize(r) == Ok(Out(record + w[|record|..], |record|))
  {
    var size := Put16((2 + |body|) % 0x1_0000);
    PatchBefore(w, 0, size, body);
    PatchedStart(w, size + body);
  }

  /** In a buffer with room, `Encode` leaves the record of the entry and every other byte as it was. */
  lemma EncodedIsRecord(e: Sendable, w: seq<byte>)
    requires |Record(e)| <= |w|
    ensures Encoded(e, w) == Ok(Out(Record(e) + w[|Record(e)|..], |Record(e)|))
  {
    LevelsAppend(e, e.level + 1, w);
    AnnotatedIs(w, Body(e, e.level + 1), LevelsWritten(e, e.level + 1, w));
  }
}
