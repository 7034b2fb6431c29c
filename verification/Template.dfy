/** Message templates: `%%` stands for a percent sign, `%` and another byte for the next tag. */
module Template {
  import opened Bytes

  const PERCENT: byte := 37

  /** What `Entry.String` makes of a message and the tags that are left. */
  function Render(t: Str, tags: seq<Str>): Str
    decreases |t|
  {
    if |t| == 0 then []
    else if t[0] == PERCENT && |t| > 1 then
      if t[1] == PERCENT then [PERCENT] + Render(t[2..], tags)
      else if |tags| > 0 then tags[0] + Render(t[2..], tags[1..])
      else [PERCENT] + Render(t[1..], tags)
    else [t[0]] + Render(t[1..], tags)
  }

  /** A template as its author means it: literal bytes and placeholders. */
  datatype Piece = Literal(c: byte) | Placeholder(mark: Mark)

  type Mark = c: byte | c != PERCENT witness 0

  /** How a piece is written. */
  function Written(p: Piece): Str {
    match p
    case Literal(c) => if c == PERCENT then [PERCENT, PERCENT] else [c]
    case Placeholder(c) => [PERCENT, c]
  }

  function Source(ps: seq<Piece>): Str {
    if |ps| == 0 then [] else Written(ps[0]) + Source(ps[1..])
  }

  /** What a piece stands for when `tags` are left. */
  function Shown(p: Piece, tags: seq<Str>): Str {
    match p
    case Literal(c) => [c]
    case Placeholder(mark) => if |tags| > 0 then tags[0] else [PERCENT, mark]
  }

  /** What the pieces mean: the n-th placeholder stands for the n-th tag, or for itself when there is none. */
  function Meaning(ps: seq<Piece>, tags: seq<Str>): Str {
    if |ps| == 0 then []
    else match ps[0]
      case Literal(c) => [c] + Meaning(ps[1..], tags)
      case Placeholder(c) => if |tags| > 0 then tags[0] + Meaning(ps[1..], tags[1..]) else [PERCENT, c] + Meaning(ps[1..], tags)
  }

  /** Every message is written from pieces, but for a percent sign at its very end. */
  lemma {:induction false} EveryMessage(t: Str) returns (ps: seq<Piece>, tail: Str)
    ensures t == Source(ps) + tail && (tail == [] || tail == [PERCENT])
    decreases |t|
  {
    if |t| == 0 || t == [PERCENT] {
      ps, tail := [], t;
    } else {
      var k := if t[0] == PERCENT then 2 else 1;
      var rest;
      rest, tail := EveryMessage(t[k..]);
      var p := if k == 1 then Literal(t[0]) else if t[1] == PERCENT then Literal(PERCENT) else Placeholder(t[1]);
      ps := [p] + rest;
      assert ps[1..] == rest && t == Written(p) + t[k..];
    }
  }

  /** Rendering takes a written piece as a whole. */
  lemma RenderPiece(p: Piece, rest: Str, tags: seq<Str>)
    ensures Render(Written(p) + rest, tags) ==
      if p.Literal? then [p.c] + Render(rest, tags)
      else if |tags| > 0 then tags[0] + Render(rest, tags[1..])
      else [PERCENT, p.mark] + Render(rest, tags)
  {
    match p
    case Literal(c) => RenderLiteral(c, rest, tags);
    case Placeholder(mark) => RenderPlaceholder(mark, rest, tags);
  }

  lemma RenderLiteral(c: byte, rest: Str, tags: seq<Str>)
    ensures Render(Written(Literal(c)) + rest, tags) == [c] + Render(rest, tags)
  {
    var t := Written(Literal(c)) + rest;
    assert t[|Written(Literal(c))|..] == rest;
  }

  lemma RenderPlaceholder(mark: Mark, rest: Str, tags: seq<Str>)
    ensures Render([PERCENT, mark] + rest, tags) ==
      if |tags| > 0 then tags[0] + Render(rest, tags[1..]) else [PERCENT, mark] + Render(rest, tags)
  {
    var t := [PERCENT, mark] + rest;
    assert t[2..] == rest && t[1..] == [mark] + rest;
    if |tags| == 0 {
      var u := [mark] + rest;
      assert u[1..] == rest;
      Regroup([PERCENT], [mark], Render(rest, tags));
    }
  }

  /** Rendering does what the pieces mean, for every message and any tags. */
  lemma {:induction false} RenderFills(ps: seq<Piece>, tail: Str, tags: seq<Str>)
    requires tail == [] || tail == [PERCENT]
    ensures Render(Source(ps) + tail, tags) == Meaning(ps, tags) + tail
  {
    if |ps| == 0 {
      assert Source(ps) + tail == tail;
      assert Render(tail, tags) == tail;
    } else {
      var rest := Source(ps[1..]) + tail;
      Regroup(Written(ps[0]), Source(ps[1..]), tail);
      RenderPiece(ps[0], rest, tags);
      var left := if ps[0].Placeholder? && |tags| > 0 then tags[1..] else tags;
      RenderFills(ps[1..], tail, left);
      Regroup(Shown(ps[0], tags), Meaning(ps[1..], left), tail);
    }
  }

  /** What the loop of `String` writes from index `i` on, with `j` tags used, when it looks at indices below `n`. The
      byte after a percent sign is looked up in the whole message. */
  function Rendered(t: Str, i: nat, n: nat, tags: seq<Str>, j: nat): Str
    requires n <= |t| && j <= |tags|
    decreases |t| - i
  {
    if i >= n then []
    else if t[i] == PERCENT && i + 1 < |t| then
      if t[i + 1] == PERCENT then [PERCENT] + Rendered(t, i + 2, n, tags, j)
      else if j < |tags| then tags[j] + Rendered(t, i + 2, n, tags, j + 1)
      else [PERCENT] + Rendered(t, i + 1, n, tags, j)
    else [t[i]] + Rendered(t, i + 1, n, tags, j)
  }

  /** A loop over the whole message renders it. */
  lemma {:induction false} RenderedIsRender(t: Str, i: nat, tags: seq<Str>, j: nat)
    requires i <= |t| && j <= |tags|
    ensures Rendered(t, i, |t|, tags, j) == Render(t[i..], tags[j..])
    decreases |t| - i
  {
    if i < |t| {
      var rest := t[i..];
      assert rest[1..] == t[i + 1..];
      RenderedIsRender(t, i + 1, tags, j);
      if i + 1 < |t| {
        assert rest[2..] == t[i + 2..];
        RenderedIsRender(t, i + 2, tags, j);
        if j < |tags| {
          assert tags[j..][1..] == tags[j + 1..];
          RenderedIsRender(t, i + 2, tags, j + 1);
        }
      }
    }
  }

  /** The tags that are left after the pieces. */
  function TagsLeft(ps: seq<Piece>, tags: seq<Str>): seq<Str> {
    if |ps| == 0 then tags else TagsLeft(ps[1..], if ps[0].Placeholder? && |tags| > 0 then tags[1..] else tags)
  }

  /** What a percent sign at the very end of the cut stands for: the byte behind the cut decides. */
  function Ending(tail: Str, next: byte, tags: seq<Str>): Str {
    if tail != [] && next != PERCENT && |tags| > 0 then tags[0] else tail
  }

  lemma CutEnd(t: Str, i: nat, n: nat, tags: seq<Str>, j: nat, tail: Str)
    requires i <= n < |t| && j <= |tags| && t[i..n] == tail && (tail == [] || tail == [PERCENT])
    ensures Rendered(t, i, n, tags, j) == Ending(tail, t[n], tags[j..])
  {
    if tail != [] {
      assert i + 1 == n && t[i..n][0] == t[i];
      assert j < |tags| ==> tags[j] + Rendered(t, i + 2, n, tags, j + 1) == tags[j];
    }
  }

  lemma CutPiece(t: Str, i: nat, n: nat, tags: seq<Str>, j: nat, p: Piece, rest: Str)
    requires i <= n < |t| && j <= |tags| && t[i..n] == Written(p) + rest
    ensures var k := |Written(p)|; i + k <= n && t[i + k..n] == rest
    ensures var k, left := |Written(p)|, if p.Placeholder? && j < |tags| then j + 1 else j;
      Rendered(t, i, n, tags, j) == Shown(p, tags[j..]) + Rendered(t, i + k, n, tags, left)
  {
    StartsWith(t, i, n, Written(p), rest);
    if p.Literal? {
      CutLiteral(t, i, n, tags, j, p.c);
    } else {
      CutPlaceholder(t, i, n, tags, j, p.mark);
    }
  }

  lemma StartsWith(t: Str, i: nat, n: nat, x: Str, rest: Str)
    requires i <= n <= |t| && t[i..n] == x + rest && 0 < |x| <= 2
    ensures i + |x| <= n && t[i + |x|..n] == rest && t[i] == x[0] && (|x| == 2 ==> t[i + 1] == x[1])
  {
    assert t[i..n][|x|..] == t[i + |x|..n];
    assert t[i..n][0] == x[0];
    if |x| == 2 {
      assert t[i..n][1] == x[1];
    }
  }

  lemma CutLiteral(t: Str, i: nat, n: nat, tags: seq<Str>, j: nat, c: byte)
    requires i + |Written(Literal(c))| <= n < |t| && j <= |tags|
    requires t[i] == c && (c == PERCENT ==> t[i + 1] == PERCENT)
    ensures Rendered(t, i, n, tags, j) == [c] + Rendered(t, i + |Written(Literal(c))|, n, tags, j)
  {
  }

  lemma CutPlaceholder(t: Str, i: nat, n: nat, tags: seq<Str>, j: nat, mark: Mark)
    requires i + 2 <= n < |t| && j <= |tags| && t[i] == PERCENT && t[i + 1] == mark
    ensures Rendered(t, i, n, tags, j) ==
      if j < |tags| then tags[j] + Rendered(t, i + 2, n, tags, j + 1) else [PERCENT, mark] + Rendered(t, i + 2, n, tags, j)
  {
    if j == |tags| {
      Regroup([PERCENT], [mark], Rendered(t, i + 2, n, tags, j));
    }
  }

  /** A message that is longer than what the loop looks at, cut after byte `n`: the pieces before the cut are rendered as they
      mean, and a percent sign at the cut looks at the byte behind it. */
  lemma {:induction false} RenderedCut(t: Str, i: nat, n: nat, tags: seq<Str>, j: nat, ps: seq<Piece>, tail: Str)
    requires i <= n < |t| && j <= |tags| && t[i..n] == Source(ps) + tail && (tail == [] || tail == [PERCENT])
    ensures Rendered(t, i, n, tags, j) == Meaning(ps, tags[j..]) + Ending(tail, t[n], TagsLeft(ps, tags[j..]))
    decreases |ps|
  {
    if |ps| == 0 {
      assert Source(ps) + tail == tail;
      CutEnd(t, i, n, tags, j, tail);
    } else {
      var p, rest := ps[0], Source(ps[1..]) + tail;
      var left := if p.Placeholder? && j < |tags| then j + 1 else j;
      var k := i + |Written(p)|;
      Regroup(Written(p), Source(ps[1..]), tail);
      CutPiece(t, i, n, tags, j, p, rest);
      RenderedCut(t, k, n, tags, left, ps[1..], tail);
      FirstPiece(ps, tags, j, left);
      Assemble(Rendered(t, i, n, tags, j), Rendered(t, k, n, tags, left), Meaning(ps, tags[j..]),
               Shown(p, tags[j..]), Meaning(ps[1..], tags[left..]), Ending(tail, t[n], TagsLeft(ps, tags[j..])));
    }
  }

  lemma FirstPiece(ps: seq<Piece>, tags: seq<Str>, j: nat, left: nat)
    requires |ps| > 0 && j <= |tags| && left == if ps[0].Placeholder? && j < |tags| then j + 1 else j
    ensures Meaning(ps, tags[j..]) == Shown(ps[0], tags[j..]) + Meaning(ps[1..], tags[left..])
    ensures TagsLeft(ps, tags[j..]) == TagsLeft(ps[1..], tags[left..])
  {
    assert j < |tags| ==> tags[j..][1..] == tags[j + 1..];
  }

  lemma Assemble(all: Str, rest: Str, meaning: Str, x: Str, y: Str, z: Str)
    requires all == x + rest && rest == y + z && meaning == x + y
    ensures all == meaning + z
  {
  }

  /** The loop of `String`. Its length and its indices are of type `uint8`, and so are `strLen`, `i` and `tagIdx` here: a
      longer message is cut to its length modulo 256, and no sum leaves the range. If that length is 255 and the message is
      longer, a percent sign at index 254 can make the source's index wrap to zero. */
  method Expand(message: Str, tags: seq<Str>) returns (out: Str)
    requires |message| <= 255 || |message| % 256 != 255 || message[254] != PERCENT
    requires |tags| <= 8
    ensures out == Rendered(message, 0, |message| % 256, tags, 0)
    ensures |message| <= 255 ==> out == Render(message, tags)
  {
    var strLen: byte := |message| % 256;
    var i: byte, tagIdx: byte := 0, 0;
    out := [];
    while i < strLen
      invariant tagIdx <= |tags| && (i <= strLen || i == strLen + 1)
      invariant out + Rendered(message, i, strLen, tags, tagIdx) == Rendered(message, 0, strLen, tags, 0)
      decreases 256 - i
    {
      var emitted := [message[i]];
      if message[i] == PERCENT && i + 1 < |message| {
        if message[i + 1] == PERCENT {
          i := i + 1;
        } else if tagIdx < |tags| {
          emitted := tags[tagIdx];
          tagIdx := tagIdx + 1;
          i := i + 1;
        }
      }
      i := i + 1;
      Regroup(out, emitted, Rendered(message, i, strLen, tags, tagIdx));
      out := out + emitted;
    }
    assert out + [] == out;
    if |message| <= 255 {
      RenderedIsRender(message, 0, tags, 0);
      assert message[0..] == message && tags[0..] == tags;
    }
  }

  /** Every percent sign of `t`, doubled. */
  function Doubled(t: Str): Str {
    if |t| == 0 then [] else (if t[0] == PERCENT then [PERCENT, PERCENT] else [t[0]]) + Doubled(t[1..])
  }

  function Literals(t: Str): seq<Piece> {
    seq(|t|, i requires 0 <= i < |t| => Literal(t[i]))
  }

  lemma {:induction false} DoubledIsSource(t: Str, tags: seq<Str>)
    ensures Source(Literals(t)) == Doubled(t) && Meaning(Literals(t), tags) == t
  {
    if |t| > 0 {
      assert Literals(t)[1..] == Literals(t[1..]);
      DoubledIsSource(t[1..], tags);
    }
  }

  /** Doubling the percent signs of any text is undone by rendering, whatever the tags. */
  lemma {:induction false} DoublingIsUndone(t: Str, tags: seq<Str>)
    ensures Render(Doubled(t), tags) == t
  {
    DoubledIsSource(t, tags);
    RenderFills(Literals(t), [], tags);
    assert Doubled(t) + [] == Doubled(t);
  }
}
