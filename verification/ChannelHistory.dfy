/** The channel as its users see it: a window on everything that was ever written, with an account
    of where each item went. The ring buffer refines this. */
module ChannelHistory {
  import opened ChannelGate
  import opened RunEvents

  /** Counters of the source are 64 bits wide. */
  const WORD: nat := 0x1_0000_0000_0000_0000

  /** What a 64-bit counter shows after `n` steps from zero. */
  function Word(n: nat): (w: nat)
    ensures w < WORD
  {
    if n < WORD then n else Word(n - WORD)
  }

  /** `++` and `--` on a 64-bit counter. */
  function Inc(w: nat): nat { if w + 1 == WORD then 0 else w + 1 }
  function Dec(w: nat): nat { if w == 0 then WORD - 1 else w - 1 }

  lemma {:induction false} CountStep(n: nat)
    ensures Word(n + 1) == Inc(Word(n)) && Dec(Word(n + 1)) == Word(n)
  {
    if n >= WORD {
      CountStep(n - WORD);
    }
  }

  /** What became of the items that left the queue, and of the reads that did not last. */
  datatype Tally = Tally(
    acked: nat,
    replacedUnread: nat,
    replacedInFlight: nat,
    resetUnread: nat,
    resetInFlight: nat,
    truncated: nat,
    rewound: nat)
  {
    function Left(): nat { acked + replacedUnread + replacedInFlight + resetUnread + resetInFlight }
    function ReadAndGone(): nat { acked + replacedInFlight + resetInFlight + rewound }
  }

  datatype History<T> = History(
    gate: Gate,
    written: seq<T>,       // every item accepted, in order; its index is its position
    base: nat,             // the position of the oldest item still queued
    itemsWritten: nat,
    itemsRead: nat,
    tally: Tally,
    handed: seq<nat>,      // the positions handed to the reader since the last rewind
    since: nat,            // where that rewind went back to
    skipped: set<nat>)     // the positions replaced before they were read
  {
    /** The items queued now, oldest first. */
    function Window(): seq<T>
      requires base <= |written|
    {
      written[base..]
    }

    /** The position that is read next. */
    function ReadPos(): int { base + gate.awaiting }

    ghost predicate Sound() { InAccount() && CountersAgree() && InSequence() }

    /** The queue is the newest part of the history, and everything before it is accounted for. */
    predicate InAccount() {
      && gate.InOrder()
      && base + gate.len == |written|
      && base == tally.Left()
      && since <= ReadPos()
    }

    /** The 64-bit counters agree with the account. */
    predicate CountersAgree() {
      && 0 <= gate.awaiting
      && itemsWritten == Word(|written| + tally.truncated)
      && itemsRead == Word(tally.ReadAndGone() + gate.awaiting)
    }

    /** Since the last rewind the reader got every position once and in order, except those
        that were replaced before it came to them. */
    ghost predicate InSequence() {
      && Increasing(handed)
      && (forall p {:trigger Has(handed, p)} :: Has(handed, p) ==> since <= p < ReadPos())
      && (forall p {:trigger Has(handed, p)} :: since <= p < ReadPos() ==> (Has(handed, p) <==> p !in skipped))
      && (forall p :: p in skipped ==> p < base)
    }
  }

  predicate Has(s: seq<nat>, p: int) { p in s }

  /** Each element is greater than the one before it. */
  predicate Increasing(s: seq<nat>) {
    |s| < 2 || (s[|s| - 2] < s[|s| - 1] && Increasing(s[..|s| - 1]))
  }

  lemma {:induction false} IncreasingPairs(s: seq<nat>, i: nat, j: nat)
    requires Increasing(s) && i < j < |s|
    ensures s[i] < s[j]
    decreases |s|
  {
    if j < |s| - 1 {
      IncreasingPairs(s[..|s| - 1], i, j);
    } else if i < j - 1 {
      IncreasingPairs(s[..|s| - 1], i, j - 1);
    }
  }

  function NewRaw<T>(cap: nat): History<T> {
    History(Gate(cap, 0, 0, false, false), [], 0, 0, 0, Tally(0, 0, 0, 0, 0, 0, 0), [], 0, {})
  }

  function PutRaw<T>(q: History<T>, x: T): History<T> {
    var r := q.(gate := q.gate.Written(), written := q.written + [x], itemsWritten := Inc(q.itemsWritten));
    if q.gate.SpaceLeft() then r
    else if q.gate.ToAck() then
      r.(base := q.base + 1, tally := q.tally.(replacedInFlight := q.tally.replacedInFlight + 1))
    else
      r.(base := q.base + 1, tally := q.tally.(replacedUnread := q.tally.replacedUnread + 1),
         skipped := q.skipped + {q.base})
  }

  function TakeRaw<T>(q: History<T>): History<T>
    requires q.gate.InOrder() && q.gate.ToRead()
  {
    q.(gate := q.gate.Taken(), itemsRead := Inc(q.itemsRead), handed := q.handed + [q.ReadPos()])
  }

  function AckRaw<T>(q: History<T>): History<T> {
    if !q.gate.ToAck() then q
    else q.(gate := q.gate.Acked(), base := q.base + 1, tally := q.tally.(acked := q.tally.acked + 1))
  }

  function RewindRaw<T>(q: History<T>): History<T>
    requires q.gate.InOrder()
  {
    q.(gate := q.gate.Rewound(), tally := q.tally.(rewound := q.tally.rewound + q.gate.awaiting),
       handed := [], since := q.base)
  }

  function ResetRaw<T>(q: History<T>): History<T>
    requires q.Sound()
  {
    q.(gate := q.gate.Cleared(), base := |q.written|,
       tally := q.tally.(resetUnread := q.tally.resetUnread + q.gate.Unread(),
                         resetInFlight := q.tally.resetInFlight + q.gate.awaiting),
       handed := [], since := |q.written|)
  }

  /** What `CopyTo` does to its destination after the writes: only the oldest `n` items stay, unread. */
  function TruncateRaw<T>(q: History<T>, n: nat): History<T>
    requires q.Sound() && n <= q.gate.len
  {
    var r := RewindRaw(q);
    r.(gate := r.gate.(len := n), written := q.written[..q.base + n],
       tally := r.tally.(truncated := r.tally.truncated + q.gate.len - n))
  }

  // ---------------------------------------------------------------- every operation keeps the account

  lemma NewSound<T>(cap: nat)
    requires 0 < cap
    ensures NewRaw<T>(cap).Sound()
  {
  }

  lemma PutCounted<T>(q: History<T>, x: T)
    requires q.InAccount() && q.CountersAgree()
    ensures PutRaw(q, x).InAccount() && PutRaw(q, x).CountersAgree()
  {
    CountStep(|q.written| + q.tally.truncated);
  }

  lemma PutInSequence<T>(q: History<T>, x: T)
    requires q.InAccount() && q.InSequence()
    ensures PutRaw(q, x).InSequence()
  {
    assert !Has(q.handed, q.ReadPos());
  }

  lemma PutSound<T>(q: History<T>, x: T)
    requires q.Sound()
    ensures PutRaw(q, x).Sound()
    ensures PutRaw(q, x).Window() == (if q.gate.SpaceLeft() then q.Window() else q.Window()[1..]) + [x]
  {
    PutCounted(q, x);
    PutInSequence(q, x);
  }

  lemma TakeSound<T>(q: History<T>)
    requires q.Sound() && q.gate.ToRead()
    ensures TakeRaw(q).Sound() && TakeRaw(q).Window() == q.Window()
  {
    CountStep(q.tally.ReadAndGone() + q.gate.awaiting);
    TakeInSequence(q);
  }

  lemma TakeInSequence<T>(q: History<T>)
    requires q.InAccount() && q.InSequence() && q.gate.ToRead()
    ensures TakeRaw(q).InSequence()
  {
    var r := TakeRaw(q);
    forall p
      ensures Has(r.handed, p) <==> Has(q.handed, p) || p == q.ReadPos()
    {
      assert r.handed[|q.handed|] == q.ReadPos();
    }
    assert !Has(q.handed, q.ReadPos());
    if |q.handed| > 0 {
      assert Has(q.handed, q.handed[|q.handed| - 1]);
    }
    assert r.handed[..|q.handed|] == q.handed;
  }

  lemma AckSound<T>(q: History<T>)
    requires q.Sound()
    ensures AckRaw(q).Sound()
    ensures AckRaw(q).Window() == if q.gate.ToAck() then q.Window()[1..] else q.Window()
    ensures AckRaw(q).ReadPos() == q.ReadPos()
  {
  }

  lemma RewindSound<T>(q: History<T>)
    requires q.Sound()
    ensures RewindRaw(q).Sound() && RewindRaw(q).Window() == q.Window()
  {
  }

  lemma ResetSound<T>(q: History<T>)
    requires q.Sound()
    ensures ResetRaw(q).Sound() && ResetRaw(q).Window() == []
  {
  }

  lemma TruncateSound<T>(q: History<T>, n: nat)
    requires q.Sound() && n <= q.gate.len
    ensures TruncateRaw(q, n).Sound() && TruncateRaw(q, n).Window() == q.Window()[..n]
  {
  }

  // ---------------------------------------------------------------- sound histories

  /** A channel history that is in order and fully accounted for. Every operation gives one. */
  type Queue<T> = h: History<T> | h.Sound() ghost witness SoundStart<T>()

  ghost function SoundStart<T>(): (h: History<T>)
    ensures h.Sound()
  {
    NewSound<T>(1);
    NewRaw(1)
  }

  function New<T>(cap: nat): (q: Queue<T>)
    requires 0 < cap
    ensures q.Window() == [] && q.gate.cap == cap
  {
    NewSound<T>(cap);
    NewRaw(cap)
  }

  /** A write appends; a full channel lets go of its oldest item. */
  function Put<T>(q: Queue<T>, x: T): (r: Queue<T>)
    ensures r.Window() == (if q.gate.SpaceLeft() then q.Window() else q.Window()[1..]) + [x]
    ensures r.gate == q.gate.Written()
  {
    PutSound(q, x);
    PutRaw(q, x)
  }

  function Take<T>(q: Queue<T>): (r: Queue<T>)
    requires q.gate.ToRead()
    ensures r.Window() == q.Window() && r.gate == q.gate.Taken()
  {
    TakeSound(q);
    TakeRaw(q)
  }

  /** Acknowledging lets go of the oldest item and leaves the absolute read position alone. */
  function Ack<T>(q: Queue<T>): (r: Queue<T>)
    ensures r.Window() == if q.gate.ToAck() then q.Window()[1..] else q.Window()
    ensures r.gate == q.gate.Acked() && r.ReadPos() == q.ReadPos()
  {
    AckSound(q);
    AckRaw(q)
  }

  function Rewind<T>(q: Queue<T>): (r: Queue<T>)
    ensures r.Window() == q.Window() && r.gate == q.gate.Rewound()
  {
    RewindSound(q);
    RewindRaw(q)
  }

  function CloseWriting<T>(q: Queue<T>): (r: Queue<T>)
    ensures r.Window() == q.Window() && r.gate == q.gate.WritingClosed()
  {
    q.(gate := q.gate.WritingClosed())
  }

  function Close<T>(q: Queue<T>): (r: Queue<T>)
    ensures r.Window() == q.Window() && r.gate == q.gate.AllClosed()
  {
    q.(gate := q.gate.AllClosed())
  }

  function Reset<T>(q: Queue<T>): (r: Queue<T>)
    ensures r.Window() == [] && r.gate == q.gate.Cleared()
  {
    ResetSound(q);
    ResetRaw(q)
  }

  function Truncate<T>(q: Queue<T>, n: nat): (r: Queue<T>)
    requires n <= q.gate.len
    ensures r.Window() == q.Window()[..n] && r.gate == q.gate.(awaiting := 0, len := n)
  {
    TruncateSound(q, n);
    TruncateRaw(q, n)
  }

  // ---------------------------------------------------------------- whole runs

  /** The public operations. A read is one that a disciplined reader makes; it hands an item over, or
      fails and is undone. */
  datatype Op<T> =
    | WriteOrBlock(x: T, woken: bool)   // one locked section, on entry or after waking
    | WriteOrReplace(x: T)
    | WriteOrFail(x: T)
    | ReadOk
    | ReadUndone
    | AckOldest
    | RewindAll
    | ResetAll
    | StopWriting
    | Shut

  function Apply<T>(q: Queue<T>, op: Op<T>): Queue<T> {
    match op
    case WriteOrBlock(x, woken) => if q.gate.BlockingWrite(woken) == Go then Put(q, x) else q
    case WriteOrReplace(x) => if q.gate.closedWriting then q else Put(q, x)
    case WriteOrFail(x) => if q.gate.closedWriting || !q.gate.SpaceLeft() then q else Put(q, x)
    case ReadOk => if q.gate.ToRead() then Take(q) else q
    case ReadUndone => q
    case AckOldest => Ack(q)
    case RewindAll => Rewind(q)
    case ResetAll => Reset(q)
    case StopWriting => CloseWriting(q)
    case Shut => Close(q)
  }

  function Run<T>(q: Queue<T>, ops: seq<Op<T>>): Queue<T> {
    if |ops| == 0 then q else Apply(Run(q, ops[..|ops| - 1]), ops[|ops| - 1])
  }

  /** One operation changes neither the capacity nor the count of truncated items; it adds at most the
      read position to what was handed over; and only a rewind moves `since`. */
  lemma ApplyStep<T>(q: Queue<T>, op: Op<T>)
    ensures Apply(q, op).tally.truncated == q.tally.truncated && Apply(q, op).gate.cap == q.gate.cap
    ensures !Rewinds(op) ==> Apply(q, op).since == q.since
    ensures !Rewinds(op) ==> Apply(q, op).handed == q.handed || Apply(q, op).handed == q.handed + [q.ReadPos()]
  {
  }

  predicate Rewinds<T>(op: Op<T>) { op.RewindAll? || op.ResetAll? }

  lemma RunStep<T>(q: Queue<T>, ops: seq<Op<T>>)
    requires |ops| > 0
    ensures Run(q, ops) == Apply(Run(q, ops[..|ops| - 1]), ops[|ops| - 1])
  {
  }

  lemma {:induction false} RunKeeps<T>(q: Queue<T>, ops: seq<Op<T>>)
    ensures Run(q, ops).tally.truncated == q.tally.truncated && Run(q, ops).gate.cap == q.gate.cap
  {
    if |ops| > 0 {
      RunKeeps(q, ops[..|ops| - 1]);
      ApplyStep(Run(q, ops[..|ops| - 1]), ops[|ops| - 1]);
      RunStep(q, ops);
    }
  }

  /** What one operation adds to the account, from the cursors it finds: acknowledging takes an item in flight; a write to a
      full channel replaces one in flight if there is one and an unread one otherwise; a reset drops both kinds; a rewind
      makes what was in flight unread again. */
  function Entered<T>(g: Gate, op: Op<T>): (t: Tally)
    requires g.InOrder()
  {
    var full := g.len == g.cap && !g.closedWriting && op.WriteOrReplace?;
    Tally(if op.AckOldest? && g.awaiting > 0 then 1 else 0,
          if full && g.awaiting == 0 then 1 else 0,
          if full && g.awaiting > 0 then 1 else 0,
          if op.ResetAll? then g.len - g.awaiting else 0,
          if op.ResetAll? then g.awaiting else 0,
          0,
          if op.RewindAll? then g.awaiting else 0)
  }

  function Sum(a: Tally, b: Tally): Tally {
    Tally(a.acked + b.acked, a.replacedUnread + b.replacedUnread, a.replacedInFlight + b.replacedInFlight,
          a.resetUnread + b.resetUnread, a.resetInFlight + b.resetInFlight, a.truncated + b.truncated, a.rewound + b.rewound)
  }

  const NOTHING := Tally(0, 0, 0, 0, 0, 0, 0)

  /** The account of a run: what each of its operations enters. */
  function Ledger<T>(q: Queue<T>, ops: seq<Op<T>>): Tally {
    if |ops| == 0 then NOTHING
    else Sum(Ledger(q, ops[..|ops| - 1]), Entered(Run(q, ops[..|ops| - 1]).gate, ops[|ops| - 1]))
  }

  lemma ApplyEnters<T>(q: Queue<T>, op: Op<T>)
    ensures Apply(q, op).tally == Sum(q.tally, Entered(q.gate, op))
  {
    if IsWrite(op) {
      WriteEnters(q, op);
    }
  }

  lemma WriteEnters<T>(q: Queue<T>, op: Op<T>)
    requires IsWrite(op)
    ensures Apply(q, op).tally == Sum(q.tally, Entered(q.gate, op))
  {
    PutEnters(q, op.x);
  }

  lemma PutEnters<T>(q: Queue<T>, x: T)
    ensures q.gate.len < q.gate.cap ==> Put(q, x).tally == q.tally
    ensures q.gate.len == q.gate.cap && q.gate.awaiting > 0 ==>
      Put(q, x).tally == q.tally.(replacedInFlight := q.tally.replacedInFlight + 1)
    ensures q.gate.len == q.gate.cap && q.gate.awaiting == 0 ==>
      Put(q, x).tally == q.tally.(replacedUnread := q.tally.replacedUnread + 1)
  {
  }

  lemma LedgerStep<T>(q: Queue<T>, ops: seq<Op<T>>)
    requires |ops| > 0
    ensures Ledger(q, ops) == Sum(Ledger(q, ops[..|ops| - 1]), Entered(Run(q, ops[..|ops| - 1]).gate, ops[|ops| - 1]))
  {
  }

  lemma SumAssociates(a: Tally, b: Tally, c: Tally)
    ensures Sum(Sum(a, b), c) == Sum(a, Sum(b, c)) && Sum(a, NOTHING) == a && Sum(NOTHING, a) == a
  {
  }

  /** The account is kept as the operations of the run say, one by one. */
  lemma {:induction false} TallyIsLedger<T>(q: Queue<T>, ops: seq<Op<T>>)
    ensures Run(q, ops).tally == Sum(q.tally, Ledger(q, ops))
  {
    if |ops| == 0 {
      SumAssociates(q.tally, NOTHING, NOTHING);
    } else {
      var r, op := Run(q, ops[..|ops| - 1]), ops[|ops| - 1];
      TallyIsLedger(q, ops[..|ops| - 1]);
      ApplyEnters(r, op);
      RunStep(q, ops);
      LedgerStep(q, ops);
      SumAssociates(q.tally, Ledger(q, ops[..|ops| - 1]), Entered(r.gate, op));
    }
  }

  /** Every accepted item is still queued or is in the account exactly once, and so is every read; the
      64-bit counters agree with that account, and the window is the newest `len` items. */
  predicate Balanced<T>(q: Queue<T>) {
    var t := q.tally;
    && |q.written| == t.acked + t.replacedUnread + t.replacedInFlight + t.resetUnread + t.resetInFlight + q.gate.len
    && q.itemsWritten == Word(|q.written|)
    && 0 <= q.gate.awaiting
    && q.itemsRead == Word(t.acked + t.replacedInFlight + t.resetInFlight + t.rewound + q.gate.awaiting)
    && q.gate.awaiting <= q.gate.len <= q.gate.cap
    && q.base == |q.written| - q.gate.len
  }

  lemma SoundBalances<T>(q: Queue<T>)
    requires q.tally.truncated == 0
    ensures Balanced(q)
  {
  }

  /** Conservation, over every run of a new channel. */
  lemma Conservation<T>(cap: nat, ops: seq<Op<T>>)
    requires 0 < cap
    ensures Balanced(Run(New<T>(cap), ops))
    ensures Run(New<T>(cap), ops).tally == Ledger(New<T>(cap), ops)
  {
    TallyIsLedger(New<T>(cap), ops);
    SumAssociates(Ledger(New<T>(cap), ops), NOTHING, NOTHING);
    RunKeeps(New<T>(cap), ops);
    SoundBalances(Run(New<T>(cap), ops));
  }

  // ---------------------------------------------------------------- closing

  predicate HasStop<T>(ops: seq<Op<T>>) { exists k :: 0 <= k < |ops| && ops[k].StopWriting? }
  predicate HasShut<T>(ops: seq<Op<T>>) { exists k :: 0 <= k < |ops| && ops[k].Shut? }

  lemma LastOp<T>(ops: seq<Op<T>>)
    requires |ops| > 0
    ensures var n := |ops| - 1;
      && (HasStop(ops) <==> HasStop(ops[..n]) || ops[n].StopWriting?)
      && (HasShut(ops) <==> HasShut(ops[..n]) || ops[n].Shut?)
  {
    var n := |ops| - 1;
    if HasStop(ops[..n]) { var k :| 0 <= k < n && ops[..n][k].StopWriting?; assert ops[k].StopWriting?; }
    if HasShut(ops[..n]) { var k :| 0 <= k < n && ops[..n][k].Shut?; assert ops[k].Shut?; }
    if HasStop(ops) { var k :| 0 <= k < |ops| && ops[k].StopWriting?; assert k < n ==> ops[..n][k].StopWriting?; }
    if HasShut(ops) { var k :| 0 <= k < |ops| && ops[k].Shut?; assert k < n ==> ops[..n][k].Shut?; }
  }

  lemma ApplyFlags<T>(q: Queue<T>, op: Op<T>)
    requires q.gate.closed ==> q.gate.closedWriting
    ensures Apply(q, op).gate.closed <==> q.gate.closed || op.Shut?
    ensures Apply(q, op).gate.closedWriting <==> q.gate.closedWriting || op.StopWriting? || op.Shut?
  {
  }

  /** Over every run of a new channel, whatever else is called: the channel is closed if and only if `Close` was called, and
      writing is closed if and only if `Close` or `CloseWriting` was. Nothing opens them again. */
  lemma {:induction false} ClosedIff<T>(cap: nat, ops: seq<Op<T>>)
    requires 0 < cap
    ensures var g := Run(New<T>(cap), ops).gate;
      (g.closed <==> HasShut(ops)) && (g.closedWriting <==> HasStop(ops) || HasShut(ops))
  {
    if |ops| > 0 {
      var n := |ops| - 1;
      ClosedIff<T>(cap, ops[..n]);
      ApplyFlags(Run(New<T>(cap), ops[..n]), ops[n]);
      LastOp(ops);
    }
  }

  predicate IsWrite<T>(op: Op<T>) { op.WriteOrBlock? || op.WriteOrReplace? || op.WriteOrFail? }

  /** After `CloseWriting` or `Close`, over every run: no call that enters is accepted, and none changes the channel; only a
      writer that was already waiting can still write, and does so if and only if it finds room. A parked call that is woken
      never parks again. */
  lemma ClosedToWriters<T>(cap: nat, ops: seq<Op<T>>, op: Op<T>)
    requires 0 < cap && (HasStop(ops) || HasShut(ops)) && IsWrite(op)
    ensures var q := Run(New<T>(cap), ops); var late := op.WriteOrBlock? && op.woken && q.gate.len < cap;
      && Apply(q, op).written == (if late then q.written + [op.x] else q.written)
      && (!late ==> Apply(q, op) == q)
      && q.gate.BlockingWrite(false) == Refused
      && q.gate.BlockingWrite(true) == if q.gate.len < cap then Go else Refused
  {
    ClosedIff<T>(cap, ops);
    RunKeeps(New<T>(cap), ops);
  }

  /** Before that, over every run: which writes are accepted, and which park. */
  lemma OpenToWriters<T>(cap: nat, ops: seq<Op<T>>, op: Op<T>)
    requires 0 < cap && !HasStop(ops) && !HasShut(ops) && IsWrite(op)
    ensures var q := Run(New<T>(cap), ops); var ok := op.WriteOrReplace? || q.gate.len < cap;
      && Apply(q, op).written == (if ok then q.written + [op.x] else q.written)
      && (!ok ==> Apply(q, op) == q)
      && (forall woken :: q.gate.BlockingWrite(woken) == if q.gate.len < cap then Go else Park)
  {
    ClosedIff<T>(cap, ops);
    RunKeeps(New<T>(cap), ops);
  }

  /** What the waiting calls do, over every run: after `Close` each of them fails, whatever is queued; before it `Wait` goes
      on exactly when something is unread, `WaitUntilRead` when something is in flight and `WaitUntilEmpty` when nothing is
      queued, and only `Wait`, after `CloseWriting`, reports the end of the file instead of parking. */
  lemma WaitersIff<T>(cap: nat, ops: seq<Op<T>>)
    requires 0 < cap
    ensures var q := Run(New<T>(cap), ops); var g := q.gate;
      if HasShut(ops) then
        g.Wait() == ClosedPipe && g.WaitUntilRead() == ClosedPipe && g.WaitUntilEmpty() == ClosedPipe
      else
        && g.Wait() == (if q.ReadPos() < |q.written| then Go else if HasStop(ops) then EndOfFile else Park)
        && g.WaitUntilRead() == (if q.base < q.ReadPos() then Go else Park)
        && g.WaitUntilEmpty() == (if q.Window() == [] then Go else Park)
  {
    ClosedIff<T>(cap, ops);
  }

  // ---------------------------------------------------------------- order

  /** The absolute read position never goes back except by a rewind: not when an item is acknowledged,
      not when one in flight is replaced. */
  lemma ReadPosMonotone<T>(q: Queue<T>, op: Op<T>)
    requires !op.RewindAll?
    ensures Apply(q, op).ReadPos() >= q.ReadPos()
    ensures op.AckOldest? || (op.WriteOrReplace? && q.gate.ToAck()) ==> Apply(q, op).ReadPos() == q.ReadPos()
  {
  }

  /** Since `from`, each position was handed over at most once and in order, and was passed over only if
      it was replaced before it was read. */
  predicate Orderly<T>(q: Queue<T>, since: nat, from: int) {
    && (forall i, j :: 0 <= i < j < |q.handed| ==> q.handed[i] < q.handed[j])
    && (forall p :: since <= p < q.ReadPos() ==> (p in q.handed <==> p !in q.skipped))
    && (forall p :: p in q.handed ==> from <= p < q.ReadPos())
  }

  lemma {:induction false} RunOrder<T>(q: Queue<T>, ops: seq<Op<T>>)
    requires q.handed == []
    requires forall i :: 0 <= i < |ops| ==> !Rewinds(ops[i])
    ensures var r := Run(q, ops);
            && r.since == q.since && r.ReadPos() >= q.ReadPos()
            && (forall p :: p in r.handed ==> q.ReadPos() <= p)
  {
    if |ops| > 0 {
      var n := |ops| - 1;
      forall i | 0 <= i < n ensures !Rewinds(ops[..n][i]) { assert ops[..n][i] == ops[i]; }
      RunOrder(q, ops[..n]);
      var r := Run(q, ops[..n]);
      assert !Rewinds(ops[n]);
      ApplyStep(r, ops[n]);
      ReadPosMonotone(r, ops[n]);
      RunStep(q, ops);
    }
  }

  /** Between two rewinds, reads come in order and without duplicates, over every run. */
  lemma InOrderReads<T>(q: Queue<T>, ops: seq<Op<T>>)
    requires q.handed == []
    requires forall i :: 0 <= i < |ops| ==> !Rewinds(ops[i])
    ensures Orderly(Run(q, ops), q.since, q.ReadPos())
  {
    RunOrder(q, ops);
    SoundIsOrderly(Run(q, ops), q.ReadPos());
  }

  lemma SoundIsOrderly<T>(q: Queue<T>, from: int)
    requires forall p :: p in q.handed ==> from <= p
    ensures Orderly(q, q.since, from)
  {
    forall i, j | 0 <= i < j < |q.handed| ensures q.handed[i] < q.handed[j] { IncreasingPairs(q.handed, i, j); }
    forall p | q.since <= p < q.ReadPos() ensures p in q.handed <==> p !in q.skipped { assert Has(q.handed, p) <==> p !in q.skipped; }
    forall p | p in q.handed ensures p < q.ReadPos() { assert Has(q.handed, p); }
  }

  /** A write that replaces position `p` before it was read. */
  predicate Skips<T>(q: Queue<T>, op: Op<T>, p: nat) {
    op.WriteOrReplace? && !q.gate.closedWriting && q.gate.len == q.gate.cap && q.gate.awaiting == 0 && q.base == p
  }

  function SkipOf<T>(q: Queue<T>, p: nat): Event<Op<T>> {
    (before: seq<Op<T>>, op: Op<T>) => Skips(Run(q, before), op, p)
  }

  predicate SkippedIn<T>(q: Queue<T>, ops: seq<Op<T>>, p: nat) {
    Happens(SkipOf(q, p), ops)
  }

  lemma ApplySkips<T>(q: Queue<T>, op: Op<T>, p: nat)
    ensures p in Apply(q, op).skipped <==> p in q.skipped || Skips(q, op, p)
  {
  }

  /** Over every run: a position counts as skipped if and only if some write replaced it before it was read. */
  lemma {:induction false} SkippedIff<T>(cap: nat, ops: seq<Op<T>>)
    requires 0 < cap
    ensures forall p :: p in Run(New<T>(cap), ops).skipped <==> SkippedIn(New<T>(cap), ops, p)
  {
    if |ops| > 0 {
      var n := |ops| - 1;
      SkippedIff<T>(cap, ops[..n]);
      forall p ensures p in Run(New<T>(cap), ops).skipped <==> SkippedIn(New<T>(cap), ops, p) {
        HappensNext(SkipOf(New<T>(cap), p), ops);
        ApplySkips(Run(New<T>(cap), ops[..n]), ops[n], p);
      }
    }
  }

  /** From a new channel on and until the first rewind, the reader has been handed exactly the positions below the read
      position, in order, but for those that some write replaced before it came to them. */
  lemma ReadExactly<T>(cap: nat, ops: seq<Op<T>>)
    requires 0 < cap && forall i :: 0 <= i < |ops| ==> !Rewinds(ops[i])
    ensures var q := Run(New<T>(cap), ops);
      && (forall i, j :: 0 <= i < j < |q.handed| ==> q.handed[i] < q.handed[j])
      && (forall p :: p in q.handed <==> 0 <= p < q.ReadPos() && !SkippedIn(New<T>(cap), ops, p))
  {
    InOrderReads(New<T>(cap), ops);
    RunOrder(New<T>(cap), ops);
    SkippedIff<T>(cap, ops);
  }

  // ---------------------------------------------------------------- many writes in a row

  function PutAll<T>(q: Queue<T>, xs: seq<T>): (r: Queue<T>)
    ensures r.gate.cap == q.gate.cap
  {
    if |xs| == 0 then q else Put(PutAll(q, xs[..|xs| - 1]), xs[|xs| - 1])
  }

  /** The newest `n` elements. */
  function Newest<T>(xs: seq<T>, n: nat): seq<T> {
    if n < |xs| then xs[|xs| - n..] else xs
  }

  lemma PutAllStep<T>(q: Queue<T>, init: seq<T>, x: T)
    ensures PutAll(q, init + [x]) == Put(PutAll(q, init), x)
  {
    assert (init + [x])[..|init|] == init;
  }

  lemma PutWindow<T>(q: Queue<T>, x: T, w: seq<T>)
    requires q.Window() == Newest(w, q.gate.cap)
    ensures Put(q, x).Window() == Newest(w + [x], q.gate.cap)
  {
    NewestStep(w, x, q.gate.cap);
  }

  /** What a channel holds after writes is the newest part of what it held followed by what was written. */
  lemma {:induction false} PutAllWindow<T>(q: Queue<T>, xs: seq<T>)
    ensures PutAll(q, xs).Window() == Newest(q.Window() + xs, q.gate.cap)
  {
    if |xs| == 0 {
      assert q.Window() + xs == q.Window();
    } else {
      var init, x := xs[..|xs| - 1], xs[|xs| - 1];
      PutAllWindow(q, init);
      PutWindow(PutAll(q, init), x, q.Window() + init);
      SplitLast(q.Window(), xs);
    }
  }

  lemma SplitLast<T>(w: seq<T>, xs: seq<T>)
    requires |xs| > 0
    ensures w + xs == w + xs[..|xs| - 1] + [xs[|xs| - 1]]
  {
  }

  lemma NewestStep<T>(w: seq<T>, x: T, cap: nat)
    requires 0 < cap
    ensures Newest(w + [x], cap) == (if |Newest(w, cap)| < cap then Newest(w, cap) else Newest(w, cap)[1..]) + [x]
  {
  }
}
