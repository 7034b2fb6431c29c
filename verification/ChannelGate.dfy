/** The cursors and flags of a channel, as plain numbers: what every locked section of
    `ByteChannel` tests and what it does to them. All operations are total, as in the source. */
module ChannelGate {

  datatype Gate = Gate(cap: int, len: int, awaiting: int, closed: bool, closedWriting: bool) {
    function Unread(): int { len - awaiting }
    predicate ToRead() { Unread() > 0 }
    predicate ToAck() { awaiting > 0 }
    predicate SpaceLeft() { len < cap }
    predicate Empty() { len <= 0 }

    /** The cursors are where a disciplined reader keeps them. */
    predicate InOrder() { 0 <= awaiting <= len <= cap && 0 < cap }

    /** A full channel lets go of its oldest item, in flight or not. */
    function Written(): Gate {
      if SpaceLeft() then this.(len := len + 1)
      else if ToAck() then this.(awaiting := awaiting - 1)
      else this
    }

    function Taken(): Gate { this.(awaiting := awaiting + 1) }
    function Untaken(): Gate { this.(awaiting := awaiting - 1) }
    function Acked(): Gate { if ToAck() then this.(awaiting := awaiting - 1, len := len - 1) else this }
    function Rewound(): Gate { this.(awaiting := 0) }
    function WritingClosed(): Gate { this.(closedWriting := true) }
    function AllClosed(): Gate { if closed then this else this.(closed := true, closedWriting := true) }
    function Cleared(): Gate { this.(awaiting := 0, len := 0) }

    /** What a caller of `WriteOrBlock` does next: on entry, and again each time it is woken. */
    function BlockingWrite(woken: bool): Next {
      if !woken && closedWriting then Refused
      else if SpaceLeft() then Go
      else if closedWriting then Refused
      else Park
    }

    function Wait(): Next {
      if closed then ClosedPipe
      else if ToRead() then Go
      else if closedWriting then EndOfFile
      else Park
    }

    function WaitUntilRead(): Next {
      if closed then ClosedPipe else if ToAck() then Go else Park
    }

    function WaitUntilEmpty(): Next {
      if closed then ClosedPipe else if Empty() then Go else Park
    }
  }

  datatype Next = Go | Park | Refused | EndOfFile | ClosedPipe
}
