/** `Encode` into a buffer that is too short for the record: it panics, or it cuts the record off without a word. */
module EntryShort {
  import opened Bytes
  import opened Buffer
  import opened EntryWire
  import opened EntryTheorems
  import opened EntryWriter
  import opened EntryEncoder

  /** `r` is `o` with as much of `data` written as there is room for, which is not all. */
  predicate Fills(r: Res<Out>, o: Out, data: seq<byte>) {
    && o.s <= |o.w| < o.s + |data|
    && r.Ok? && r.value.s == |r.value.w| == |o.w|
    && r.value.w[..o.s] == o.w[..o.s] && r.value.w[o.s..] <= data
  }

  /** The write panics, or fills the buffer; the latter exactly if `quiet`. */
  predicate CutsOff(r: Res<Out>, o: Out, data: seq<byte>, quiet: bool) {
    if quiet then Fills(r, o, data) else r.Crash?
  }

  lemma FillsAfter(o: Out, x: seq<byte>, y: seq<byte>, r: Res<Out>)
    requires o.s + |x| <= |o.w| && Fills(r, Out(Patched(o.w, o.s, x), o.s + |x|), y)
    ensures Fills(r, o, x + y)
  {
    PatchedIs(o.w, o.s, x);
    FillsJoin(o.w, Patched(o.w, o.s, x), r.value.w, o.s, x, y);
  }

  lemma FillsJoin(w: seq<byte>, w1: seq<byte>, w2: seq<byte>, s: nat, x: seq<byte>, y: seq<byte>)
    requires s + |x| <= |w| == |w1| == |w2| && w1 == w[..s] + x + w[s + |x|..]
    requires w2[..s + |x|] == w1[..s + |x|] && w2[s + |x|..] <= y
    ensures w2[..s] == w[..s] && w2[s..] <= x + y
  {
    assert w2[..s] == w2[..s + |x|][..s] == w[..s];
    assert w2[s..] == w2[..s + |x|][s..] + w2[s + |x|..];
    assert w2[..s + |x|][s..] == x;
  }

  /** A copy that is cut. */
  lemma CopyFills(o: Out, data: seq<byte>)
    requires o.s <= |o.w| < o.s + |data|
    ensures Fills(CopiedIn(o, data), o, data)
  {
    PatchedIs(o.w, o.s, data[..|o.w| - o.s]);
  }

  // ---------------------------------------------------------------- one item

  /** How many of the last bytes of item `i` are a string that is copied, not put byte by byte. */
  function LastCopied(e: EntryVal, kind: Kind, i: nat): (n: nat)
    requires HasItem(kind, i)
    ensures n < |Item(e, kind, i)|
  {
    match kind
    case Tags => |e.tags.keys[i]|
    case Meta => |e.meta.vals[i]|
    case _ => 0
  }

  /** The tail does not fit behind the key. */
  lemma TailShort(e: EntryVal, kind: Kind, i: nat, o: Out)
    requires HasItem(kind, i) && kind != Tags && o.s <= |o.w| < o.s + |Tail(e, kind, i)|
    ensures CutsOff(TailWritten(e, kind, i, o), o, Tail(e, kind, i),
                    |o.w| + LastCopied(e, kind, i) >= o.s + |Tail(e, kind, i)|)
  {
    if kind == Meta && o.s + 2 <= |o.w| {
      var size, val := Put16(|e.meta.vals[i]| % 0x1_0000), e.meta.vals[i];
      CopyFills(Out(Patched(o.w, o.s, size), o.s + 2), val);
      FillsAfter(o, size, val, TailWritten(e, kind, i, o));
    }
  }

  /** The key does not fit: the copy is cut, and whatever should follow it panics. */
  lemma KeyShort(e: EntryVal, kind: Kind, i: nat, o: Out)
    requires HasItem(kind, i) && o.s <= |o.w| < o.s + 1 + |e.List(kind).keys[i]|
    ensures CutsOff(ItemWritten(e, kind, i, o), o, Item(e, kind, i), kind == Tags && o.s < |o.w|)
  {
    if o.s < |o.w| {
      var size, key := [KeyLen(e, kind, i) % 256], e.List(kind).keys[i];
      var o1 := Out(Patched(o.w, o.s, size), o.s + 1);
      if kind == Tags {
        CopyFills(o1, key);
        FillsAfter(o, size, key, CopiedIn(o1, key));
        assert Item(e, kind, i) == size + key;
      }
    }
  }

  lemma ItemShort(e: EntryVal, kind: Kind, i: nat, o: Out)
    requires HasItem(kind, i) && o.s <= |o.w| < o.s + |Item(e, kind, i)|
    ensures CutsOff(ItemWritten(e, kind, i, o), o, Item(e, kind, i),
                    |o.w| + LastCopied(e, kind, i) >= o.s + |Item(e, kind, i)|)
  {
    var key := e.List(kind).keys[i];
    if o.s + 1 + |key| <= |o.w| {
      var o2 := KeyWritten(e, kind, i, o);
      TailShortAfter(e, kind, i, o, [KeyLen(e, kind, i) % 256] + key, o2);
    } else {
      KeyShort(e, kind, i, o);
    }
  }

  lemma TailShortAfter(e: EntryVal, kind: Kind, i: nat, o: Out, head: seq<byte>, o2: Out)
    requires HasItem(kind, i) && o.s + |head| <= |o.w| < o.s + |head + Tail(e, kind, i)|
    requires o2 == Out(Patched(o.w, o.s, head), o.s + |head|)
    ensures CutsOff(TailWritten(e, kind, i, o2), o, head + Tail(e, kind, i),
                    |o.w| + LastCopied(e, kind, i) >= o.s + |head + Tail(e, kind, i)|)
  {
    TailShort(e, kind, i, o2);
    CutsOffAfter(o, head, Tail(e, kind, i), TailWritten(e, kind, i, o2),
                 |o2.w| + LastCopied(e, kind, i) >= o2.s + |Tail(e, kind, i)|);
  }

  lemma CutsOffAfter(o: Out, x: seq<byte>, y: seq<byte>, r: Res<Out>, quiet: bool)
    requires o.s + |x| <= |o.w| && CutsOff(r, Out(Patched(o.w, o.s, x), o.s + |x|), y, quiet)
    ensures CutsOff(r, o, x + y, quiet)
  {
    if quiet {
      FillsAfter(o, x, y, r);
    }
  }

  /** The length and the key fit. */
  lemma KeyWritten(e: EntryVal, kind: Kind, i: nat, o: Out) returns (o2: Out)
    requires HasItem(kind, i) && o.s + 1 + |e.List(kind).keys[i]| <= |o.w|
    ensures ItemWritten(e, kind, i, o) == TailWritten(e, kind, i, o2)
    ensures var head := [KeyLen(e, kind, i) % 256] + e.List(kind).keys[i]; o2 == Out(Patched(o.w, o.s, head), o.s + |head|)
  {
    var size, key := [KeyLen(e, kind, i) % 256], e.List(kind).keys[i];
    var o1 := Out(Patched(o.w, o.s, size), o.s + 1);
    CopyAppends(o1, key);
    PatchNext(o.w, o.s, size, key);
    o2 := Out(Patched(o1.w, o1.s, key), o1.s + |key|);
  }

  // ---------------------------------------------------------------- a list

  /** The last item that is kept may be cut off without a word if the loop ends there, or finds that the next does not fit. */
  predicate Quiet(e: EntryVal, kind: Kind, n: nat, end: nat, room: nat)
    requires HasItems(e, kind) && n <= e.List(kind).count
  {
    && n > 0 && room + LastCopied(e, kind, n - 1) >= end
    && (n < e.List(kind).count ==> !Fits(e, kind, n, room))
  }

  /** After the buffer is full, the loop ends, corrects the count, or panics. */
  lemma FullStops(e: EntryVal, kind: Kind, i: nat, o: Out, pos: nat)
    requires HasItems(e, kind) && i <= e.List(kind).count && o.s == |o.w| && pos < |o.w|
    ensures ItemsWritten(e, kind, i, o, pos) ==
      if i == e.List(kind).count then Ok(o)
      else if Fits(e, kind, i, |o.w|) then Crash else Ok(o.(w := Patched(o.w, pos, [i])))
  {
  }

  lemma CountCorrected(w: seq<byte>, w1: seq<byte>, pos: nat, count: byte, n: byte, items: seq<byte>)
    requires pos < |w| == |w1| < pos + 1 + |items| && w1[..pos] == w[..pos] && w1[pos..] <= [count] + items
    ensures var w2 := Patched(w1, pos, [n]); w2[..pos] == w[..pos] && w2[pos..] <= [n] + items
  {
    PatchedIs(w1, pos, [n]);
    assert w1[pos..][1..] == w1[pos + 1..] && ([count] + items)[1..] == items;
    assert w1[pos + 1..] == items[..|w| - pos - 1];
    assert Patched(w1, pos, [n])[pos..] == [n] + w1[pos + 1..];
  }

  /** Item `i` is the one that crosses the end. */
  lemma CrossingItem(e: EntryVal, kind: Kind, i: nat, w: seq<byte>, pos: nat, done: seq<byte>, row: seq<byte>)
    requires HasItems(e, kind) && i < e.List(kind).count && row == Item(e, kind, i)
    requires Fits(e, kind, i, pos + 1 + |done|) && pos + 1 + |done| <= |w| < pos + 1 + |done + row|
    ensures ListCutsOff(e, kind, i + 1, w, pos, done + row,
                        ItemsWritten(e, kind, i, Standing(w, pos, e.List(kind).count, done), pos))
  {
    var o := Standing(w, pos, e.List(kind).count, done);
    var r := ItemWritten(e, kind, i, o);
    CrossingWrites(e, kind, i, w, pos, done, row, r);
    ItemsNext(e, kind, i, o, pos, r);
    if r.Ok? {
      AfterFull(e, kind, i + 1, w, pos, done + row, r);
    }
  }

  /** What that item does to the section so far. */
  lemma CrossingWrites(e: EntryVal, kind: Kind, i: nat, w: seq<byte>, pos: nat, done: seq<byte>, row: seq<byte>, r: Res<Out>)
    requires HasItem(kind, i) && row == Item(e, kind, i) && pos + 1 + |done| <= |w| < pos + 1 + |done + row|
    requires r == ItemWritten(e, kind, i, Standing(w, pos, e.List(kind).count, done))
    ensures CutsOff(r, Out(w, pos), [e.List(kind).count] + (done + row),
                    |w| + LastCopied(e, kind, i) >= pos + 1 + |done + row|)
  {
    var before := [e.List(kind).count] + done;
    CrossingAfter(e, kind, i, w, pos, before, row, r, |w| + LastCopied(e, kind, i) >= pos + 1 + |done + row|);
    Regroup([e.List(kind).count], done, row);
  }

  lemma CrossingAfter(e: EntryVal, kind: Kind, i: nat, w: seq<byte>, pos: nat, before: seq<byte>, row: seq<byte>, r: Res<Out>, quiet: bool)
    requires HasItem(kind, i) && row == Item(e, kind, i) && pos + |before| <= |w| < pos + |before| + |row|
    requires r == ItemWritten(e, kind, i, Out(Patched(w, pos, before), pos + |before|))
    requires quiet == (|w| + LastCopied(e, kind, i) >= pos + |before| + |row|)
    ensures CutsOff(r, Out(w, pos), before + row, quiet)
  {
    ItemShort(e, kind, i, Out(Patched(w, pos, before), pos + |before|));
    CutsOffAfter(Out(w, pos), before, row, r, quiet);
  }

  /** Item `i` is due when the buffer is full. */
  lemma AfterFull(e: EntryVal, kind: Kind, i: nat, w: seq<byte>, pos: nat, items: seq<byte>, r: Res<Out>)
    requires HasItems(e, kind) && i <= e.List(kind).count && pos < |w| && Fills(r, Out(w, pos), [e.List(kind).count] + items)
    ensures CutsOff(ItemsWritten(e, kind, i, r.value, pos), Out(w, pos), [i] + items,
                    i < e.List(kind).count ==> !Fits(e, kind, i, |w|))
  {
    FullStops(e, kind, i, r.value, pos);
    if i < e.List(kind).count {
      CountCorrected(w, r.value.w, pos, e.List(kind).count, i, items);
    }
  }

  /** What becomes of a list of which `n` items, `all` together, should be written at `pos`. */
  predicate ListCutsOff(e: EntryVal, kind: Kind, n: nat, w: seq<byte>, pos: nat, all: seq<byte>, r: Res<Out>)
    requires HasItems(e, kind) && n <= e.List(kind).count
  {
    CutsOff(r, Out(w, pos), [n] + all, Quiet(e, kind, n, pos + 1 + |all|, |w|))
  }

  lemma {:induction false} ItemsShort(e: EntryVal, kind: Kind, n: nat, w: seq<byte>, pos: nat, i: nat, done: seq<byte>, all: seq<byte>)
    requires HasItems(e, kind) && n == Kept(e, kind, 0, pos + 1) && all == Flatten(Rows(e, kind, n))
    requires Listing(Rows(e, kind, n), pos, i, pos + 1 + |done|, done)
    requires pos + 1 + |done| <= |w| < pos + 1 + |all|
    ensures ListCutsOff(e, kind, n, w, pos, all, ItemsWritten(e, kind, i, Standing(w, pos, e.List(kind).count, done), pos))
    decreases n - i
  {
    var rows := Rows(e, kind, n);
    var s := pos + 1 + |done|;
    GuardIff(e, kind, n, pos, i, s, done);
    DoneIsAll(rows, i);
    if i < n {
      ListingStep(rows, pos, i, s, done);
      if s + |rows[i]| <= |w| {
        ItemsStep(e, kind, i, w, pos, done, rows[i]);
        ItemsShort(e, kind, n, w, pos, i + 1, done + rows[i], all);
      } else {
        CrossingIsLast(e, kind, n, w, pos, i, done, all);
      }
    }
  }

  lemma DoneIsAll(rows: seq<seq<byte>>, i: nat)
    requires i <= |rows|
    ensures i == |rows| ==> rows[..i] == rows
  {
  }

  lemma CrossingIsLast(e: EntryVal, kind: Kind, n: nat, w: seq<byte>, pos: nat, i: nat, done: seq<byte>, all: seq<byte>)
    requires HasItems(e, kind) && i < n == Kept(e, kind, 0, pos + 1) && all == Flatten(Rows(e, kind, n))
    requires Listing(Rows(e, kind, n), pos, i, pos + 1 + |done|, done) && Fits(e, kind, i, pos + 1 + |done|)
    requires pos + 1 + |done| <= |w| < pos + 1 + |done + Rows(e, kind, n)[i]|
    ensures ListCutsOff(e, kind, n, w, pos, all, ItemsWritten(e, kind, i, Standing(w, pos, e.List(kind).count, done), pos))
  {
    var row := Rows(e, kind, n)[i];
    CrossingItem(e, kind, i, w, pos, done, row);
    if i + 1 < n {
      CrossingPanics(e, kind, n, w, pos, i, done, row, all,
                     ItemsWritten(e, kind, i, Standing(w, pos, e.List(kind).count, done), pos));
    } else {
      LastRowDone(Rows(e, kind, n), i, done);
    }
  }

  lemma CrossingPanics(e: EntryVal, kind: Kind, n: nat, w: seq<byte>, pos: nat, i: nat, done: seq<byte>, row: seq<byte>, all: seq<byte>,
                       r: Res<Out>)
    requires HasItems(e, kind) && i + 1 < n == Kept(e, kind, 0, pos + 1) && all == Flatten(Rows(e, kind, n))
    requires row == Rows(e, kind, n)[i] && Listing(Rows(e, kind, n), pos, i, pos + 1 + |done|, done)
    requires |w| < pos + 1 + |done + row| && (!Quiet(e, kind, i + 1, pos + 1 + |done + row|, |w|) ==> r.Crash?)
    ensures ListCutsOff(e, kind, n, w, pos, all, r)
  {
    CrossesEarly(e, kind, n, w, pos, i, done, row);
    PanicsBehind(e, kind, n, w, pos, i, done, row, all, r);
  }

  lemma PanicsBehind(e: EntryVal, kind: Kind, n: nat, w: seq<byte>, pos: nat, i: nat, done: seq<byte>, row: seq<byte>, all: seq<byte>,
                     r: Res<Out>)
    requires HasItems(e, kind) && i + 1 < n <= e.List(kind).count && all == Flatten(Rows(e, kind, n)) && r.Crash?
    requires row == Rows(e, kind, n)[i] && Listing(Rows(e, kind, n), pos, i, pos + 1 + |done|, done)
    requires |w| < pos + 1 + |done + row|
    ensures ListCutsOff(e, kind, n, w, pos, all, r)
  {
    LastIsBehind(e, kind, n, |w|, pos, i, done, row, pos + 1 + |all|);
    PanicsUnlessQuiet(e, kind, n, w, pos, all, r);
  }

  lemma PanicsUnlessQuiet(e: EntryVal, kind: Kind, n: nat, w: seq<byte>, pos: nat, all: seq<byte>, r: Res<Out>)
    requires HasItems(e, kind) && n <= e.List(kind).count && !Quiet(e, kind, n, pos + 1 + |all|, |w|)
    ensures ListCutsOff(e, kind, n, w, pos, all, r) <==> r.Crash?
  {
  }

  /** An item that crosses the end can be cut off quietly only if it is the last that is kept. */
  lemma CrossesEarly(e: EntryVal, kind: Kind, n: nat, w: seq<byte>, pos: nat, i: nat, done: seq<byte>, row: seq<byte>)
    requires HasItems(e, kind) && i + 1 < n == Kept(e, kind, 0, pos + 1) && row == Rows(e, kind, n)[i]
    requires Listing(Rows(e, kind, n), pos, i, pos + 1 + |done|, done) && |w| < pos + 1 + |done + row|
    ensures !Quiet(e, kind, i + 1, pos + 1 + |done + row|, |w|)
  {
    ListingStep(Rows(e, kind, n), pos, i, pos + 1 + |done|, done);
    GuardIff(e, kind, n, pos, i + 1, pos + 1 + |done + row|, done + row);
  }

  /** Nor can the whole list, then. */
  lemma LastIsBehind(e: EntryVal, kind: Kind, n: nat, room: nat, pos: nat, i: nat, done: seq<byte>, row: seq<byte>, end: nat)
    requires HasItems(e, kind) && i + 1 < n <= e.List(kind).count && row == Rows(e, kind, n)[i]
    requires Listing(Rows(e, kind, n), pos, i, pos + 1 + |done|, done) && room < pos + 1 + |done + row|
    requires end == pos + 1 + |Flatten(Rows(e, kind, n))|
    ensures !Quiet(e, kind, n, end, room)
  {
    var rows := Rows(e, kind, n);
    var last := LastRowBehind(rows, n, i, done);
    LastItem(e, kind, n, last);
    NotQuiet(e, kind, n, last, room, pos + 1 + |done + row|, end);
  }

  lemma LastRowBehind(rows: seq<seq<byte>>, n: nat, i: nat, done: seq<byte>) returns (last: seq<byte>)
    requires i + 1 < n == |rows| && done == Flatten(rows[..i])
    ensures last == rows[n - 1] && |done + rows[i]| + |last| <= |Flatten(rows)|
  {
    last := rows[n - 1];
    OffsetStep(rows, i);
    LastRow(rows, i + 1);
  }

  lemma LastItem(e: EntryVal, kind: Kind, n: nat, last: seq<byte>)
    requires HasItems(e, kind) && 0 < n <= e.List(kind).count && last == Rows(e, kind, n)[n - 1]
    ensures last == Item(e, kind, n - 1)
  {
  }

  lemma NotQuiet(e: EntryVal, kind: Kind, n: nat, last: seq<byte>, room: nat, some: nat, end: nat)
    requires HasItems(e, kind) && 0 < n <= e.List(kind).count && last == Item(e, kind, n - 1) && room < some && some + |last| <= end
    ensures !Quiet(e, kind, n, end, room)
  {
  }

  lemma LastRowDone(rows: seq<seq<byte>>, i: nat, done: seq<byte>)
    requires i + 1 == |rows| && done == Flatten(rows[..i])
    ensures done + rows[i] == Flatten(rows)
  {
  }

  /** The last of some more rows is within what follows the first `i`. */
  lemma LastRow(rows: seq<seq<byte>>, i: nat)
    requires i < |rows|
    ensures |Flatten(rows[..i])| + |rows[|rows| - 1]| <= |Flatten(rows)|
  {
    FlattenGrows(rows[..|rows| - 1], i);
    assert rows[..|rows| - 1][..i] == rows[..i];
  }

  /** A list section that does not fit. */
  lemma ListShort(e: EntryVal, kind: Kind, o: Out, n: nat, all: seq<byte>)
    requires HasItems(e, kind) && n == Kept(e, kind, 0, o.s + 1) && all == Flatten(Rows(e, kind, n))
    requires o.s <= |o.w| < o.s + 1 + |all|
    ensures ListCutsOff(e, kind, n, o.w, o.s, all, ListWritten(e, kind, o))
  {
    if o.s < |o.w| {
      ListStarts(e, kind, o);
      ItemsShort(e, kind, n, o.w, o.s, 0, [], all);
    } else {
      NoRoom(e, kind, n, o.s, all);
      PanicsUnlessQuiet(e, kind, n, o.w, o.s, all, ListWritten(e, kind, o));
    }
  }

  lemma NoRoom(e: EntryVal, kind: Kind, n: nat, s: nat, all: seq<byte>)
    requires HasItems(e, kind) && n <= e.List(kind).count && all == Flatten(Rows(e, kind, n))
    ensures !Quiet(e, kind, n, s + 1 + |all|, s)
  {
    if n > 0 {
      LastRow(Rows(e, kind, n), 0);
      NotQuiet(e, kind, n, Item(e, kind, n - 1), s, s + 1, s + 1 + |all|);
    }
  }

  // ---------------------------------------------------------------- a section

  /** The section of level `l`, which starts at `s`, can be cut off without a word in a buffer of `room` bytes: its last bytes are
      copied, and the buffer reaches as far as these. */
  predicate QuietSection(e: Sendable, l: nat, s: nat, room: nat)
    requires l <= e.level
  {
    if l == 1 then room >= s
    else if l == 3 then room >= s + 1
    else if l == 5 || l == 7 then
      var n := Sent(e, KindOf(l), s);
      Quiet(e, KindOf(l), n, s + |Section(e, l, s)|, room)
    else false
  }

  lemma ListSectionShort(e: Sendable, kind: Kind, l: nat, o: Out)
    requires l == LevelOf(kind) <= e.level && o.s <= |o.w| < o.s + |Section(e, l, o.s)|
    ensures CutsOff(ListWritten(e, kind, o), o, Section(e, l, o.s),
                    Quiet(e, kind, Sent(e, kind, o.s), o.s + |Section(e, l, o.s)|, |o.w|))
  {
    var n := Sent(e, kind, o.s);
    SectionIsList(e, kind, o.s);
    ListShort(e, kind, o, n, Flatten(Rows(e, kind, n)));
  }

  lemma FixedShort(e: Sendable, l: nat, o: Out)
    requires l <= e.level && (l < 5 || l > 8) && o.s <= |o.w| < o.s + |Section(e, l, o.s)|
    ensures CutsOff(SectionWritten(e, l, o), o, Section(e, l, o.s), QuietSection(e, l, o.s, |o.w|))
  {
    if l == 1 {
      CopyFills(o, e.id);
    } else if l == 3 && o.s < |o.w| {
      CopyFills(Out(Patched(o.w, o.s, [|e.message| % 256]), o.s + 1), e.message);
      FillsAfter(o, [|e.message| % 256], e.message, SectionWritten(e, l, o));
    }
  }

  lemma SectionShort(e: Sendable, l: nat, o: Out)
    requires l <= e.level && o.s <= |o.w| < o.s + |Section(e, l, o.s)|
    ensures CutsOff(SectionWritten(e, l, o), o, Section(e, l, o.s), QuietSection(e, l, o.s, |o.w|))
  {
    if 5 <= l <= 8 {
      var kind := KindOf(l);
      assert LevelOf(kind) == l;
      ListSectionShort(e, kind, l, o);
    } else {
      FixedShort(e, l, o);
    }
  }

  // ---------------------------------------------------------------- all sections

  /** With the buffer full, the next section panics, unless it is the id, which is copied. */
  lemma FullPanics(e: Sendable, l: nat, o: Out)
    requires l <= e.level && l != 1 && o.s >= |o.w|
    ensures SectionWritten(e, l, o).Crash?
  {
    assert 5 <= l <= 8 ==> ListWritten(e, KindOf(l), o).Crash?;
  }

  /** What the parts write, one section after the other. */
  lemma PartsNext(e: Sendable, l: nat, w: seq<byte>, r: Res<Out>)
    requires r == LevelsWritten(e, l, w)
    ensures LevelsWritten(e, l + 1, w) == if r.Crash? then Crash else SectionWritten(e, l, r.value)
  {
  }

  /** The section of level `l` is the first that does not fit. */
  lemma CrossingSection(e: Sendable, l: nat, w: seq<byte>, s: nat)
    requires l <= e.level && s == Start(e, l) <= |w| < s + |Section(e, l, s)|
    ensures CutsOff(LevelsWritten(e, l + 1, w), Out(w, 2), Body(e, l) + Section(e, l, s), QuietSection(e, l, s, |w|))
  {
    LevelsAppend(e, l, w);
    var o := Out(Patched(w, 2, Body(e, l)), s);
    PartsNext(e, l, w, Ok(o));
    SectionShort(e, l, o);
    if QuietSection(e, l, s, |w|) {
      FillsAfter(Out(w, 2), Body(e, l), Section(e, l, s), LevelsWritten(e, l + 1, w));
    }
  }

  /** A section before the last does not fit. */
  lemma {:induction false} EarlierPanics(e: Sendable, l: nat, w: seq<byte>)
    requires l <= e.level && Start(e, l) > |w|
    ensures LevelsWritten(e, l + 1, w).Crash?
  {
    if l == 0 {
      PartsNext(e, 0, w, Ok(Out(w, 2)));
    } else {
      var s := Start(e, l - 1);
      BodyNextIs(e, l - 1, s);
      if s <= |w| {
        CrossingSection(e, l - 1, w, s);
        FullAfter(e, l, w, s);
      } else {
        EarlierPanics(e, l - 1, w);
        PartsNext(e, l, w, Crash);
      }
    }
  }

  lemma FullAfter(e: Sendable, l: nat, w: seq<byte>, s: nat)
    requires 0 < l <= e.level
    requires CutsOff(LevelsWritten(e, l, w), Out(w, 2), Body(e, l - 1) + Section(e, l - 1, s), QuietSection(e, l - 1, s, |w|))
    ensures LevelsWritten(e, l + 1, w).Crash?
  {
    var r := LevelsWritten(e, l, w);
    PartsNext(e, l, w, r);
    if r.Ok? {
      FullPanics(e, l, r.value);
    }
  }

  lemma BodyNextIs(e: Sendable, l: nat, s: nat)
    requires l <= e.level && s == Start(e, l)
    ensures Body(e, l + 1) == Body(e, l) + Section(e, l, s) && Start(e, l + 1) == s + |Section(e, l, s)|
  {
    assert Sections(e)(l, s) == Section(e, l, s);
  }

  /** `w` is filled with the first bytes of `body` behind a size annotation, which claims that this is all. */
  lemma FilledIs(w: seq<byte>, body: seq<byte>, r: Res<Out>)
    requires Fills(r, Out(w, 2), body)
    ensures WithSize(r) == Ok(Out(Put16(|w| % 0x1_0000) + body[..|w| - 2], |w|))
  {
    var w1 := r.value.w;
    PatchedStart(w1, Put16(|w| % 0x1_0000));
    assert w1[2..] == body[..|w| - 2];
  }

  /** For every entry and every buffer that is too short for its record. The documentation promises a panic (entry.go:171). It
      does panic, unless the last thing to write is a string and the buffer ends within it or right before it: then `Encode`
      returns as if nothing had happened, with the record cut off and its size annotation made to fit. */
  lemma ShortBufferIff(e: Sendable, w: seq<byte>, s: nat)
    requires |w| < |Record(e)| && s == Start(e, e.level)
    ensures Encoded(e, w).Ok? <==> s <= |w| && QuietSection(e, e.level, s, |w|)
    ensures Encoded(e, w).Ok? ==>
      2 <= |w| && Encoded(e, w).value == Out(Put16(|w| % 0x1_0000) + Body(e, e.level + 1)[..|w| - 2], |w|)
  {
    var l := e.level;
    RecordHolds(e);
    BodyNextIs(e, l, s);
    if s <= |w| {
      CrossingSection(e, l, w, s);
      if QuietSection(e, l, s, |w|) {
        FilledIs(w, Body(e, l + 1), LevelsWritten(e, l + 1, w));
      }
    } else {
      EarlierPanics(e, l, w);
    }
  }
}
