# A verified model of the logger's client, wire format and server

The logger turns entries into length-prefixed binary records, keeps them in a bounded ring buffer until the
server answers each one, and sends again what was in flight when a connection is lost. This project models that
path from a chain of calls on an entry to the entry the server hands on, and proves what each part keeps.

| files | part |
|---|---|
| `Bytes.dfy` | bytes, 16- and 32-bit integers in big-endian order, flattened rows |
| `EntryWire.dfy` | the record as a value, and what `Decode` makes of bytes |
| `EntryFormat.dfy`, `EntryLayout.dfy`, `EntryAccept.dfy` | the documented format, from the fields alone; that `Encode` writes it, and that `Decode` accepts nothing else, exactly how far |
| `Buffer.dfy`, `EntryWriter.dfy`, `EntryEncoder.dfy`, `EntryPanics.dfy`, `EntryShort.dfy` | `Encode` with its cursor, loops and panics; that it writes the record; when it panics, and when it should and does not |
| `Entry.dfy`, `Logger.dfy` | the `Entry` object with `Encode`, `Decode`, the chainable calls and `String`; the logger |
| `EntryRoundTrip.dfy`, `EntryTheorems.dfy`, `EntrySize.dfy`, `EntryLaws.dfy`, `EntryArrival.dfy` | how decoding undoes encoding, the size cap, and the exact conditions for the round trip and for arriving whole |
| `EntryBuilder.dfy`, `EntryContents.dfy`, `EntryJourney.dfy`, `Template.dfy` | filling in an entry, what it holds in terms of the calls, what becomes of it at the receiver, rendering its message |
| `ChannelGate.dfy`, `RunEvents.dfy`, `ChannelHistory.dfy`, `Ring.dfy`, `ByteChannel.dfy` | the ring buffer: its cursors, the history it is a window on, the byte array |
| `Wakeups.dfy` | threads on one channel, parked on its two condition variables |
| `Delivery.dfy`, `DeliveryLoss.dfy` | sender, responder, connections and server as one step system; which of its steps are safe, exactly |
| `Buckets.dfy`, `ServerSession.dfy`, `ServerConn.dfy` | the bucket check, one connection at the server as a function of its bytes, and the connection object |
| `PartialWrites.dfy`, `ClientSender.dfy`, `Framing.dfy` | short and torn writes, and how the server cuts the stream up again and answers it |

How the parts are tied together. `ChannelGate.Gate` holds the channel's cursors and flags with one total operation per
locked section; the array class, the thread system and the delivery protocol all use it. `ChannelHistory.Queue` is
everything ever written plus an account of what became of it; the ring is proved to hold its window. `EntryWire.Record`
and `EntryWire.Decoded` are the record and its decoding as functions; the methods with loops are proved to compute
them, on every input and every buffer. Decoding is written in two arithmetics, the source's wrapping `uint16` and a checked one in which
a sum that wraps is a crash, so a theorem for both says that no sum wraps. A run-time panic is an outcome, not a
precondition. What the models record on the side (which entries were answered or replaced, what left the queue and why, which
positions were skipped) is tied to the steps of the run that made it so: `Delivery.AnsweredIff`, `Delivery.ReplacedIff`,
`ChannelHistory.TallyIsLedger`, `ChannelHistory.SkippedIff`.

What is false of the code, shown with the exact condition under which it holds:

- Metrics are written with the length of the trace path at the same index (entry.go:216), so they come back only where
  these lengths agree in their last byte; `Decode` refuses a level 7 record whose last meta value is empty (entry.go:443).
  These two are all that can go wrong with the round trip of a well-formed entry: `EntryLaws.RoundTripIff`.
- A record does not carry all that its entry shows. `log` copies the logger's TTLs, 30 days by default, without raising the
  level to the sections that send them (logger.go:83-86), so they arrive only if a TTL call is made; `Send` merges the logger's
  lists without raising the level either; and meta and trace are cut at the size cap. The exact condition for arriving
  whole is `EntryArrival.ArrivesIff`, and for built and merged entries `EntryJourney.BuiltArrivesIff` and
  `EntryJourney.MergedArrivesIff`; `EntryJourney.LoggerTtlLost` is the TTL case.
- `Encode` panics: at a seventeenth metric it indexes past the trace paths, and after the meta section nothing reserves
  room for levels 8 to 10. `EntryPanics.EncodePanicsIff` is exact; `EntryJourney.SeventeenMetricsPanic` is an instance, and
  `EntrySize.RoomAfterMeta` gives the room that is needed. On a full channel such a panic destroys the oldest queued item:
  `ByteChannel.ByteChannel.WritePanics`.
- `Encode` does not always panic when the buffer is too short, as its comment says it will (entry.go:170-171): a record whose last
  bytes are a copied string is cut off silently. `EntryShort.ShortBufferIff` is exact.
- `Decode` accepts some records that end too early: right after the length of the message, or in a list with fewer items than its
  count says. What is missing then shows from whatever the entry object held before. `EntryAccept.AcceptedIsReading` says
  that these are all, and `EntryAccept.StaleTagsShow` that it happens.
- At-least-once delivery depends on how sessions start. A session that finds an unanswered entry in flight is harmless if the
  responder's read has failed or can only fail, because then it rewinds; otherwise it can lose that entry, and a session
  that starts between the responder's disconnect and its rewind (peer/tls_client.go:220-221) is never safe. The send-failure
  path drops the connection without rewinding (peer/tls_client.go:167-169) and so leads to such sessions:
  `DeliveryLoss.ConnectSafeIff`, `DeliveryLoss.SendFailureSafeIff`, `DeliveryLoss.LossIsReachable`. Replacing an entry in
  flight, which the default write mode does, loses another: `DeliveryLoss.ReplaceSafeIff`,
  `DeliveryLoss.ReplaceLossIsReachable`. The response path has a gap of its own, between its disconnect and its rewind:
  `DeliveryLoss.ReadFailureSafety`, `DeliveryLoss.GapLossIsReachable`. Exactly-once it never is: `DeliveryLoss.AnsweredTwice`.
- `CloseWriting` does not wake readers, `CopyTo` does not wake writers or threads that wait for an empty channel, and a parked
  writer, and only one, can write after `CloseWriting`: `Wakeups.CloseWritingStrands`, `Wakeups.CopyStrandsIff`,
  `Wakeups.LateWriteIff`. An end of file from `Wait` does not mean drained: `Wakeups.EndOfFileIsNotDrained`.
- `ReadToCallback` tests for emptiness only, so a second reader overruns: `Wakeups.CursorsInOrderIff`.
- `CopyTo` into a smaller channel from one that is not full misses the oldest items: `ByteChannel.CopyMissesOldest`.

Where code and comments differ the code is modelled: the header comment of entry.go gives metrics two bytes and traces a
count up to 8, the code writes four bytes and up to 16 (entry.go:35, entry.go:45, entry.go:211-231, entry.go:68).

Assumptions of the delivery model: an answer that the server could not write is followed by no later answer on that
connection (a failed TLS write is final); the negative answer after a failed read of the server's own is not delivered; any byte
the client reads counts as an acknowledgement, as in the source; a send counts from the moment the connection is loaded; a send
while the connection is nil, which panics in the source, is not a step; time-outs and lost connections are failures that may
happen at any step.

## Model

| member | source | states |
|---|---|---|
| `EntryLaws.RoundTripIff` | entry.go:172-522 | for every well-formed entry of level 1 to 10, whatever the receiving entry held, in wrapping and in checked arithmetic: decoding its record is accepted with the same level and the carried fields (lists cut to what was written, sections above the level empty) if and only if each metric key that is sent is as long as the trace path at its index, as far as a length byte can tell, and a level 7 record does not end with an empty meta value |
| `EntryLaws.RoundTrip` | entry.go:293-522 | the direction from the two conditions: the receiver shows exactly what was sent, no sum of the decoder wraps, no index leaves the slice |
| `EntryLaws.MismatchBreaks` | entry.go:215-231 | one metric key that is sent with another length than its own is enough to spoil the round trip |
| `EntryLaws.MismatchLoses` | entry.go:215-231 | the first such key is not among what any accepted decoding shows |
| `EntryArrival.ArrivesIff` | entry.go:172-522 | for every well-formed entry from level 4 on, whatever the receiver held: the record is accepted and the receiver shows all that the sender's entry shows if and only if the codec conditions hold, the level covers every list and every TTL that is set, and no metric, meta or trace item is cut |
| `EntryArrival.CarriedIsShownIff` | entry.go:176-289 | what a record carries is all that its entry shows if and only if lists and TTLs are covered by the level and nothing is cut |
| `EntryArrival.MetaSentIff` | entry.go:237-254 | all meta pairs are sent if and only if they fit behind what comes before them |
| `EntryLaws.EmptyTailRejected` | entry.go:442-460 | a level 7 record that ends with an empty meta value is not accepted as what was sent |
| `EntryTheorems.RecordDecodes` | entry.go:307-521 | the level loop stops exactly at the encoder's level and at the end of the record, with the image of the entry, in both arithmetics |
| `EntryTheorems.RecordHolds` | entry.go:176-286 | the size annotation of a record that fits equals its length, and the sections follow it |
| `EntryLayout.RecordIsFormatIff` | entry.go:15-56 | for every entry within its caps: what `Encode` writes is its own length and then, level by level, the documented form of what is sent of the entry, big-endian, each length before its string, if and only if every metric key that is sent is as long as the trace path at its index |
| `Bytes.BigEndianSorts` | entry.go:182-185 | 32-bit integers are written most significant byte first: their encodings sort as they do |
| `EntryAccept.AcceptedIsReading` | entry.go:293-522 | whatever bytes of at most 65535 are accepted, whoever wrote them: they are as long as they say and hold the accepted entry in the documented form up to its level and to the last byte, or end inside the section of its level, right after the length of the message or in a list with fewer items than its count says, and what is missing is what the entry object held before |
| `EntryAccept.RefusedIfNotAsLong` | entry.go:302-318 | fewer than 18 bytes are too short, and bytes that are not as long as they say, modulo 65536, are corrupt |
| `EntryAccept.StaleTagsShow` | entry.go:358-390 | a record that promises tags and ends there is accepted, and shows the tags of the entry object's previous use |
| `EntryLaws.AcceptedBucket` | entry.go:324-327 | the bucket of an accepted entry is the one in bytes 2 to 6, which the server checks |
| `EntrySize.SizeCap` | entry.go:176-289 | up to level 7 a record never exceeds 65535 bytes; beyond, the trace section ends inside the cap exactly when meta left a byte for its count |
| `EntrySize.RoomAfterMeta` | entry.go:256-286 | the exact length from level 8 on, from where the meta section ends: a byte for the count, the trace items sent, two bytes for each TTL; and all of the trace is sent exactly when it fits |
| `EntrySize.MetaCut` | entry.go:233-254 | the meta section holds a prefix of the pairs, its count byte is their number, and the first pair left out would have crossed the cap |
| `EntrySize.MetricsEnd` | entry.go:202-231 | tags of capped strings are never cut and metrics end below byte 6519; with short trace paths all metrics are sent |
| `EntryWriter.EncodeItem` | entry.go:223-231 | one item on any buffer: length byte, key as far as it fits, then value or line, or a panic where the source has one |
| `EntryWriter.EncodeList` | entry.go:233-254 | a list section on any buffer, with the index past the arrays, the cut, the corrected count and every panic |
| `EntryWriter.EncodeInto` | entry.go:172-289 | `Encode` on every entry and every buffer: it panics or leaves the buffer and cursor exactly as specified |
| `EntryEncoder.ItemsAppend` | entry.go:237-254 | with room, the item loop writes the items that fit, one after the other, and the count ends up as their number |
| `EntryEncoder.ListAppends` | entry.go:233-254 | with room, a list section is the count of items kept and those items, whatever stood there |
| `EntryEncoder.EncodedIsRecord` | entry.go:172-289 | in a buffer with room `Encode` leaves the record of the entry, returns its length, and every byte behind it is as before |
| `EntryPanics.EncodePanicsIff` | entry.go:172-289 | every entry within its caps, whatever its trace paths, in a slot of 65535 bytes: `Encode` panics if and only if the metric loop comes to a seventeenth metric or the record is longer than the slot; otherwise the slot holds the record, of the first sixteen metrics if there are more, and what stood behind it |
| `EntryPanics.RunsPastIff` | entry.go:215-221 | with trace paths of at most 255 bytes the loop comes to a seventeenth metric exactly when there is one |
| `EntryPanics.MetricsPanic` | entry.go:215-216 | where none of the first sixteen metrics is cut off, the loop comes to an index without a trace path, and panics |
| `EntryPanics.TrimmedEncoded` | entry.go:215-231 | where one is, the entry is encoded as if it had only the first sixteen |
| `EntryPanics.OverflowPanics` | entry.go:256-286 | a record longer than the slot panics at the level at which the slot is full |
| `EntryShort.ShortBufferIff` | entry.go:170-289 | for every entry and every buffer shorter than its record: `Encode` returns without a panic if and only if the last thing to write is a copied string (id, message, last tag, last meta value) and the buffer reaches as far as that string; then the buffer is full, the record is cut off and its size annotation claims that this is all |
| `Entries.Entry.Encode` | entry.go:172-289 | the same for the entry object, which is not changed; with room the buffer gets the record |
| `Entries.DecodeItem` | entry.go:432-460 | one round of an item loop, with every early exit and every panic, is what the specification says |
| `Entries.DecodeList` | entry.go:422-460 | so is a whole list section, over-limit counts included |
| `Entries.Entry.Decode` | entry.go:293-522 | for every byte slice and every prior entry: error, acceptance or panic, and the entry left behind, are those of the specification |
| `Entries.Entry.Reset` | entry.go:158-168 | clears id, counts and TTLs and sets level 3; bucket, severity, message, category and all array slots keep their values |
| `EntryBuilder.BuildKeeps` | entry.go:598-744 | after any sequence of calls on an entry from `log`, whatever the pooled entry was used for: counts and strings are within their caps and the level covers every list that holds something |
| `EntryBuilder.BuildTtls` | logger.go:83-86 | after any calls: which TTLs the entry holds, from the logger or from the last call, and that only the TTL calls raise the level to the sections that carry them |
| `EntryBuilder.BuildCountsMetrics` | entry.go:688-704 | the entry has as many metrics as calls with a key, up to 32 |
| `EntryContents.BuildHeader` | logger.go:76-93 | after any calls: bucket, id and severity are those of the log call, the message is its first 255 bytes, and the category is that of the last `Cat` call or else the logger's |
| `EntryContents.BuildShows` | entry.go:598-744 | after any calls on any pooled entry: the entry shows exactly what header and calls mean, tags, metrics and meta pairs item by item and in order, TTLs, and nothing of its earlier use |
| `EntryContents.BuildLevel` | entry.go:598-744 | the level reaches a section if and only if some call reaches it |
| `EntryContents.MergedShows` | entry.go:754-783 | after `Send` each list of the logger stands behind the entry's list of the same kind, up to the limits; all else, the level included, is as before |
| `EntryBuilder.TagAppends` | entry.go:605-622 | `Tag` appends the non-blank arguments, cut to 255 bytes, up to 8 tags |
| `EntryBuilder.PrependTagShows` | entry.go:625-646 | what `PrependTag` leaves on its two paths, blank arguments included |
| `EntryBuilder.PrependTagPrepends` | entry.go:624-646 | without blank arguments: the new tags before the old ones, cut to 8 |
| `EntryBuilder.MergeMetaAppends` | entry.go:765-773 | `Send` appends the logger's meta pairs up to 32, keys and values in step |
| `EntryBuilder.MergeMetricsAppends` | entry.go:775-783 | the same for metrics |
| `EntryJourney.BuiltPanicsIff` | entry.go:172-289 | encoding a built entry into a slot, whatever the pooled entry held, panics if and only if the metric loop comes to a seventeenth metric or the record is too long; with short paths the former is having more than 16 metrics |
| `EntryJourney.BuiltSize` | entry.go:256-286 | how long the record of a built entry is: up to level 7 it fits, beyond it is the end of the meta section, one byte, and two for each TTL level |
| `EntryJourney.ManyMetricsPanic` | entry.go:688-704 | from 17 metric calls on, whatever else is called, encoding panics if the pooled entry's paths are short |
| `EntryJourney.SeventeenMetricsPanic` | entry.go:215-216 | in particular for 17 equal metrics on a fresh entry |
| `EntryJourney.BuiltArrivesIff` | entry.go:598-744 | for every sequence of calls on any pooled entry whose record fits: the round trip holds if and only if the codec conditions do, and the entry arrives whole if and only if in addition no metric and no meta is cut and every TTL that is set was set by, or covered by, a TTL call |
| `EntryJourney.BuiltArrivesAs` | logger.go:76-93 | from the calls to the receiver: an entry arrives whole if and only if the receiver shows what header and calls mean, field by field |
| `EntryJourney.MergedArrivesAs` | entry.go:747-789 | the same for what `Send` hands to the client, with the logger's lists behind the entry's own |
| `EntryJourney.FreshArrivesIff` | entry.go:688-704 | on an entry that never had a trace, the metric condition is that no call adds a metric |
| `EntryJourney.LoggerTtlLost` | logger.go:83-84 | a TTL that the logger gives to its entries never arrives unless a TTL call is made |
| `EntryJourney.SingleMetricFails` | entry.go:215-226 | a single metric on a fresh entry is a counterexample to the round trip, for any key and value |
| `EntryJourney.EmptyValueFails` | entry.go:442-445 | so is a single meta value that is not a string and renders as nothing |
| `EntryJourney.MergedCoveredIff` | entry.go:754-783 | what the logger adds is in sections that `Encode` reaches if and only if the level was already high enough |
| `EntryJourney.MergedArrivesIff` | entry.go:747-789 | what `Send` hands to the client, after any calls and with any logger: it arrives whole if and only if the codec conditions hold, no metric and no meta is cut, TTLs are covered and the entry's own calls raised the level to what the logger adds |
| `EntryJourney.MergedPanicsIff` | entry.go:775-783 | it panics if and only if the metric loop comes to a seventeenth metric or the record is too long; with short paths the former is that entry and logger have more than 16 metrics together at a level that writes them |
| `Entries.Entry.Tag` | entry.go:605-622 | the loop with its early exit and its skipping computes the specified tags; level at least 5, nothing else changes |
| `Entries.Entry.PrependTag` | entry.go:625-646 | the moving copy and the overwriting loop compute the specified array, stale slots included |
| `Entries.Entry.Meta` | entry.go:652-668 | the entry after the call is the specified one, full and blank cases included |
| `Entries.Entry.Metric` | entry.go:688-704 | the same for metrics |
| `Entries.Entry.Merge` | entry.go:754-783 | the three merge loops compute the specified lists and leave the level alone |
| `Loggers.Logger.Tag` | logger.go:108-122 | the logger's tags get the non-blank arguments appended, up to 8 |
| `Loggers.Logger.Log` | logger.go:76-93 | the entry gets its header, the message cut to 255 bytes, level at least 4, and the tags; which field lands where is `EntryContents.BuildHeader` |
| `Template.Expand` | entry.go:121-150 | the loop ends and writes what the specification says, longer messages cut to their length modulo 256; its `uint8` indices never wrap; for messages of at most 255 bytes the result is the rendering |
| `Template.RenderedIsRender` | entry.go:130-147 | a loop over the whole message gives the recursive rendering |
| `Template.RenderFills` | entry.go:121-150 | rendering a template written from literals and placeholders gives the text it means: the n-th placeholder is the n-th tag, or itself when tags run out |
| `Template.EveryMessage` | entry.go:130-147 | every message is written from such pieces, but for a percent sign at its end |
| `Template.RenderedCut` | entry.go:121-150 | a message longer than the loop looks at: the pieces before the cut are rendered as they mean, and a percent sign at the cut looks at the byte behind it |
| `Template.DoublingIsUndone` | entry.go:131-133 | doubling the percent signs of any text is undone by rendering, for any tags |
| `ByteChannel.ByteChannel.constructor` | internal/channel/byte_channel.go:24-35 | a new channel is a window on the empty history |
| `ByteChannel.ByteChannel.Write` | internal/channel/byte_channel.go:107-123 | the item that the callback makes of the slot's old bytes is the newest of the history; a full ring lets go of its oldest; the ring still holds exactly the window |
| `ByteChannel.ByteChannel.WritePanics` | internal/channel/byte_channel.go:107-110 | a callback that panics leaves the cursors alone; the ring still holds the window if and only if the channel was not full or the callback had left the oldest item as it was |
| `ByteChannel.ByteChannel.WriteOrBlock` | internal/channel/byte_channel.go:62-81 | one locked section, on entry or after waking: parks, refuses or writes as the flags and the room say |
| `ByteChannel.ByteChannel.WriteOrFail` | internal/channel/byte_channel.go:83-93 | writes if and only if writing is open and there is room |
| `ByteChannel.ByteChannel.WriteOrReplace` | internal/channel/byte_channel.go:95-105 | writes if and only if writing is open |
| `ByteChannel.ByteChannel.Wait` | internal/channel/byte_channel.go:126-146 | the decision of the waiting loop and the number of unread items |
| `ByteChannel.ByteChannel.WaitUntilRead` | internal/channel/byte_channel.go:149-162 | goes on only with something in flight |
| `ByteChannel.ByteChannel.WaitUntilEmpty` | internal/channel/byte_channel.go:165-178 | goes on only with an empty window |
| `ByteChannel.ByteChannel.ReadToCallback` | internal/channel/byte_channel.go:180-199 | hands over the oldest unread item; an undone read leaves the history as it was, a kept one takes it; with nothing unread a kept read pushes the cursor past the end |
| `ByteChannel.ByteChannel.Ack` | internal/channel/byte_channel.go:213-229 | drops the oldest item if it is in flight |
| `ByteChannel.ByteChannel.Rewind` | internal/channel/byte_channel.go:253-265 | all items are unread again; broadcasts if any was in flight |
| `ByteChannel.ByteChannel.Close` | internal/channel/byte_channel.go:241-251 | sets both flags and broadcasts on both conditions, once; what follows from it is `ChannelHistory.ClosedIff`, `ClosedToWriters` and `WaitersIff` |
| `ByteChannel.ByteChannel.CloseWriting` | internal/channel/byte_channel.go:231-239 | closes writing and broadcasts on the writers' condition only |
| `ByteChannel.ByteChannel.Reset` | internal/channel/byte_channel.go:333-341 | empties the window |
| `ByteChannel.ByteChannel.CopyTo` | internal/channel/byte_channel.go:36-60 | the destination becomes what writing all slots and cutting back makes of it; nothing is broadcast to its writers |
| `ByteChannel.CopyKeepsQueue` | internal/channel/byte_channel.go:36-60 | into an empty channel at least as large: the whole queue in order, all unread, although stale slots are copied too; from a full one into a smaller: the newest items |
| `ByteChannel.CopyMissesOldest` | internal/channel/byte_channel.go:43-59 | otherwise the copy starts past the oldest item and ends with stale slots |
| `ByteChannel.WriteRefines` | internal/channel/byte_channel.go:107-123 | writing a slot at the wrapped end of the ring is writing to the history, full or not |
| `Ring.WindowReplaces` | internal/channel/byte_channel.go:357-368 | overwriting the oldest slot of a full ring drops the oldest item and appends the new one |
| `ChannelHistory.Conservation` | internal/channel/byte_channel.go:62-265 | over every run, blocked writers that write after closing included: items written = acknowledged + replaced + reset + queued, reads = acknowledged + replaced in flight + reset in flight + rewound + in flight, modulo the 64-bit counters, cursors in order, and the window is the newest items; the parts are those of the run's operations |
| `ChannelHistory.ReadPosMonotone` | internal/channel/byte_channel.go:107-123 | the absolute read position goes back only by a rewind, and is not moved by an acknowledgement or by replacing an item in flight |
| `ChannelHistory.InOrderReads` | internal/channel/byte_channel.go:201-265 | between two rewinds each item is handed over at most once, in order, and passed over if and only if it was replaced unread |
| `ChannelHistory.TallyIsLedger` | internal/channel/byte_channel.go:107-265 | the account is the sum of what each operation of the run enters, by what it finds: acknowledged, replaced unread or in flight, reset, rewound |
| `ChannelHistory.SkippedIff` | internal/channel/byte_channel.go:107-123 | a position counts as skipped if and only if some write of the run replaced it before it was read |
| `ChannelHistory.ReadExactly` | internal/channel/byte_channel.go:180-206 | until the first rewind the reader was handed exactly the positions below the read position, in order, but for those that some write replaced before |
| `ChannelHistory.ClosedIff` | internal/channel/byte_channel.go:231-251 | over every run: closed if and only if `Close` was called, closed to writers if and only if `Close` or `CloseWriting` was; nothing opens them again |
| `ChannelHistory.ClosedToWriters` | internal/channel/byte_channel.go:62-105 | after either, over every run: no write that enters is accepted or changes anything; a woken writer writes if and only if it finds room, and is refused, not parked, otherwise |
| `ChannelHistory.OpenToWriters` | internal/channel/byte_channel.go:62-105 | before, over every run: which writes are accepted and which park |
| `ChannelHistory.WaitersIff` | internal/channel/byte_channel.go:126-178 | over every run: after `Close` all three waits fail, whatever is queued; before, when each goes on, parks or reports the end of the file |
| `Wakeups.NoLostWakeups` | internal/channel/byte_channel.go:36-341 | in every reachable state of any threads, whichever of them read, copies that strand nobody included: no thread is parked un-notified while its test would let it go on, except a `Wait` that could only report the end of the file |
| `Wakeups.CursorsStayInOrder` | internal/channel/byte_channel.go:126-206 | with one reader that waits before it reads, over every run, in-flight items never exceed the length, although only emptiness is tested |
| `Wakeups.CursorsInOrderIff` | internal/channel/byte_channel.go:126-206 | every run keeps the cursors in order if and only if at most one thread reads |
| `Wakeups.UnreadStable` | internal/channel/byte_channel.go:107-265 | nothing but a successful read, `Reset` and `CopyTo` lowers the number of unread items |
| `Wakeups.TwoReadersOverrun` | internal/channel/byte_channel.go:180-206 | with two readers and one unread item the cursor passes the end |
| `Wakeups.CloseWritingStrands` | internal/channel/byte_channel.go:231-239 | the excepted case does happen |
| `Wakeups.CopyStrandsIff` | internal/channel/byte_channel.go:36-60 | what a copy into the channel does to each thread: one that was not lost is lost if and only if it is parked un-notified in `WriteOrBlock` and the copy leaves room, or in `WaitUntilEmpty` and the copy is of nothing |
| `Wakeups.StepKeepsWakeupsIff` | internal/channel/byte_channel.go:36-341 | where no wakeup was lost, any step keeps it so if and only if it is not such a copy |
| `Wakeups.ShutdownSafe` | peer/tls_client.go:111-125 | once writing is closed with no writer parked, no run accepts another item; once empty, the channel stays empty and every accepted item has left |
| `Wakeups.ParkedWriterStillWrites` | internal/channel/byte_channel.go:70-79 | a writer parked when writing closes writes after the next acknowledgement |
| `Wakeups.LateWriteIff` | internal/channel/byte_channel.go:62-81 | once writing is closed, from any state: some run accepts another item if and only if a writer is parked in `WriteOrBlock` |
| `Wakeups.EndOfFileIsNotDrained` | internal/channel/byte_channel.go:130-138 | after an end of file a rewind makes the reader go on again exactly when something is queued |
| `Wakeups.NobodyWaitsAfterClose` | internal/channel/byte_channel.go:241-251 | over every run of any threads, copies included: once `Close` was called every parked thread was notified and leaves its call when it runs; a writer among them writes only if it finds room |
| `Wakeups.UndoneReadWakes` | internal/channel/byte_channel.go:191-194 | an undone read changes nothing and wakes all readers, stranded ones too |
| `Delivery.AtLeastOnce` | peer/tls_client.go:153-229 | over every run with any number of lost connections and torn sends in which sessions start cleanly: each accepted entry is in the queue, or the server wrote an answer to it on one of the connections, or some write replaced it; with blocking or failing writers an entry leaves the queue only after such an answer |
| `Delivery.StepKeepsAligned` | peer/tls_client.go:153-229 | every clean step of client, server or network keeps what is in flight equal to the answered entries from before the session followed by the unacknowledged entries of the newest connection, in order, unless a rewind comes first |
| `Delivery.AckIsForOldest` | peer/tls_client.go:225-227 | when an answer is acknowledged, the server has answered the oldest entry |
| `Delivery.AnsweredIff` | peer/tls_server_conn.go:51-55 | over every run, clean or not: an entry counts as answered if and only if the server wrote an answer to it on one of the connections |
| `Delivery.ReplacedIff` | internal/channel/byte_channel.go:111-119 | over every run: an entry counts as replaced if and only if some write to a full channel replaced it |
| `Delivery.FailedAnswerIsLast` | peer/tls_server_conn.go:51-55 | an answer that could not be written answers nothing, and no later one follows on its connection, over every run |
| `Delivery.ClosedIff` | peer/tls_client.go:111-139 | over every run: the channel is closed if and only if the client was closed forcefully, and closed to writers if and only if it was closed in either way |
| `Delivery.ClosedIsFinal` | peer/tls_client.go:134-139 | after a forceful close, over every run: neither thread starts another round, and once both are between rounds nothing is sent, read or acknowledged any more |
| `Delivery.HangUpDisconnects` | peer/tls_client.go:134-139 | the disconnect at its end leaves no connection open |
| `DeliveryLoss.ConnectSafeIff` | peer/tls_client.go:251-308 | in every phase of the responder, opening a connection leaves every clean continuation delivering if and only if its read has failed or can only fail, so that it rewinds, or it is not about to rewind and every entry in flight was answered |
| `DeliveryLoss.RewindingNeverSafe` | peer/tls_client.go:219-222 | between the responder's disconnect and its rewind, opening a connection is never safe |
| `DeliveryLoss.ReplaceSafeIff` | internal/channel/byte_channel.go:107-123 | on a full channel with a working session, replacing the oldest entry is safe if and only if nothing is in flight |
| `DeliveryLoss.LaggingLoses` | peer/tls_client.go:225-227 | a session opened with an unanswered entry in flight can lose it, however far back it is |
| `DeliveryLoss.SendFailureSafeIff` | peer/tls_client.go:167-169 | from every aligned state in the middle of a session: after a failed send, opening the next connection is safe if and only if the responder is reading or has failed, or everything in flight was answered |
| `DeliveryLoss.SendFailureLoses` | peer/tls_client.go:167-169 | where it is not, a failed send can lose any unanswered entry in flight |
| `DeliveryLoss.LossIsReachable` | peer/tls_client.go:153-229 | a run from the initial state loses entry 0: it is not queued, was answered on no connection and replaced by no write |
| `DeliveryLoss.ReplaceLossIsReachable` | internal/channel/byte_channel.go:111-119 | a run from the initial state that replaces entry 0, in flight, loses a later entry |
| `DeliveryLoss.ReadFailureSafety` | peer/tls_client.go:217-223 | from every aligned state in the middle of a session: after a failed read, opening the next connection before the rewind is never safe, and after it always is |
| `DeliveryLoss.GapLossIsReachable` | peer/tls_client.go:217-223 | a run from the initial state in which a session opens in that gap loses an entry |
| `DeliveryLoss.PollsWithoutLink` | peer/tls_client.go:210-214 | without a connection the responder only polls: over every run of its steps nothing is acknowledged or rewound |
| `DeliveryLoss.LateAckIsIgnored` | internal/channel/byte_channel.go:213-219 | an answer that was read before its entry, the only one in flight, was replaced acknowledges nothing |
| `DeliveryLoss.AnsweredTwice` | peer/tls_client.go:167-169 | from every state in which the sender is about to send on a connection that is answered so far: an entry can be answered on two connections |
| `ClientSender.ProcessEntry` | peer/tls_client.go:173-197 | whatever the connection does with each write: it succeeds if and only if some first writes, none of which fails, take the whole record, short writes included; what goes out is as much of the record as the writes take up to and including the first that fails; and it uses no more writes than it needs |
| `ClientSender.SlotSends` | peer/tls_client.go:174-181 | stale bytes behind a record in a reused slot are never sent |
| `ClientSender.EncodingFillsIff` | peer/tls_client.go:145-151 | encoding an entry into a slot succeeds if and only if the metric loop stays within the trace paths and the record fits; then the slot keeps its size and holds the record, whatever it held |
| `ClientSender.WriteHolds` | peer/tls_client.go:145-151 | a channel that is written through `Encode` holds the record of each entry ever written, whatever its slots held |
| `ClientSender.WindowHolds` | peer/tls_client.go:153-171 | so what the sender finds queued are slots that hold the records of the entries still to be sent, in order |
| `ClientSender.SendEntries` | peer/tls_client.go:153-171 | as many entries are reported as sent as the writes can be divided among, one after the other; the stream is their records and, of the entry at which sending stops, as much as the writes left over take: whole records and a torn part of the next |
| `ClientSender.SentIsHanded` | peer/tls_client.go:173-197 | for any entries and any server environment: what was put on the wire is what the server judges, record by record, up to the first it refuses, with no ping and nothing of a torn record |
| `Framing.FramesAreRecords` | peer/tls_server_conn.go:60-85 | the stream of any entries with a torn one at the end is cut into exactly those entries' records |
| `Framing.ServedFrames` | peer/tls_server_conn.go:38-106 | for every byte stream and every environment: `listen` handles exactly the frames that the stream is cut into, up to the first it refuses, and its hand-overs, answers, counters and pings are those of that story |
| `Framing.StoryIsPrefix` | peer/tls_server_conn.go:60-106 | what is handed on is a prefix of the frames, each as its own accepted decoding; the story stops at the first frame refused, handed on or not |
| `Framing.RepliesAre` | peer/tls_server_conn.go:38-58 | for every byte stream and every environment, from the bytes alone: an OK for each frame that passes, a pong if a ping follows them, and then a NOK unless no answers are wanted, the deadline ended an unfinished frame after frames that all passed, or the server died |
| `Framing.TimeoutIsSilent` | peer/tls_server_conn.go:42-46 | a client that stops between or inside frames gets no NOK if the deadline ends the read, and one if anything else does |
| `Framing.ReceivedIs` | peer/tls_server_conn.go:69-83 | for every byte stream: an entry counts as received once its size was read, and so does a ping whose pong could not be written; a pong counts as sent if and only if the write succeeded |
| `Framing.OnlyAllowedBuckets` | peer/tls_server_conn.go:91-97 | for every byte stream that a client may send: every entry that the processor ever sees is in a bucket of the client's list |
| `Framing.SucceededIff` | peer/tls_server_conn.go:99-103 | an entry counts as succeeded if and only if it was handed to the processor and the processor took it |
| `Framing.SessionTells` | peer/tls_server_conn.go:38-106 | for every sequence of encoded entries with a torn one at the end, whatever is forbidden, undecodable or fails: both of the above for those records, and no ping |
| `Framing.SessionDelivers` | peer/tls_server_conn.go:38-106 | where nothing is refused, all entries are handed on, in order, each showing what was sent, each answered with an OK |
| `Buckets.BucketCheck` | peer/tls_server_conn.go:114-126 | for every packed list and every record: the check passes if and only if the entry's bucket is in the list |
| `Buckets.ValidBucketId` | peer/tls_server_conn.go:114-126 | the stride-4 loop passes if and only if the list is nil or one of its groups of four bytes is the frame's bucket |
| `Buckets.PackBucketIds` | auth/certificate.go:50-55 | the packing loop fills the key with the ids in order, four bytes each |
| `Buckets.PackedAt` | auth/certificate.go:53-55 | the k-th group of a packed list is the k-th id |
| `ServerSession.Accounting` | peer/tls_server_conn.go:38-106 | over every run, whatever arrives and fails: OK answers equal entries that succeeded, at most one NOK and it is last, at most one entry received did not succeed, pongs <= pings <= 1 |
| `ServerConns.ServerConn.HandleEntry` | peer/tls_server_conn.go:60-106 | counters, answers, hand-overs and fault are those of the specification for every input, the failed pong that counts as a short entry included |
| `ServerConns.ServerConn.Listen` | peer/tls_server_conn.go:38-58 | the loop ends and leaves the specified session, the accounting holds of it, and its answers are those that the bytes call for |

## Left out

- TLS, dialing, listeners, certificates other than the packing of bucket ids, PEM and key files: a connection is a stream of bytes that can fail.
- Clocks, deadlines and backoff: a time-out is one of the failures that can happen at any step.
- The no-copy decoding mode, which aliases the buffer: only the copying decode is modelled.
- `sync.Pool` itself: a pooled entry is any earlier entry after `Reset`.
- Id generation, stack capture, number formatting and the error-string regex: ids are 12 bytes and arguments arrive as strings; `Trace`, `ManualTrace`, `Msg` and `pool.Send` are not among the modelled calls.
- Accessors of entry_reader.go, `MetaBlob`, `MetaFromMap`, the dummy writer, debug and the examples: plumbing.
- Liveness of reconnecting and of a graceful close.
- EntryAccept.AcceptedIsReading: for at most 65535 bytes, which is what a connection reads; that every record which breaks off in the named places is accepted is shown for tags only.
- Server counters are unbounded, the source's are `int32`; the channel's 64-bit counters are modelled as such.
- Entries.Entry.PrependTag: counts beyond the arrays, which only a failed decode leaves behind, are outside, as for the other calls.
- Entries.Entry.Decode: what the entry holds after a panic is not stated.
- ByteChannel.ByteChannel.Write: the channel methods start from cursors in order, and capacity is positive; what follows an overrun by a second reader is only modelled in `Wakeups`. Blocking is one locked section per call; the waiting itself is in `Wakeups`.
- ByteChannel.ByteChannel.CopyTo: distinct channels with equal item size.
- Entries.Entry.Encode: level 255, at which the counter of the source's loop wraps and the loop does not end, is outside; no call sets it.
- EntryWriter.EncodeInto: the same; what a buffer holds after a panic is not stated.
- EntryPanics.EncodePanicsIff: for slots of 65535 bytes, which is what the client encodes into.
- EntryShort.ShortBufferIff: for entries with at most 16 metrics at the levels that write them; with more, and a slot of 65535 bytes, see `EntryPanics.EncodePanicsIff`.
- ByteChannel.ByteChannel.WritePanics: for any bytes that the callback may leave; which ones `Encode` leaves when it panics is not stated.
- EntryArrival.ArrivesIff: from level 4 on, which is where `log` starts; below, fields of the receiver's previous entry show through.
- Template.Expand: messages longer than 255 bytes, which only `Msg` can set, whose length is 255 modulo 256 and that have a percent sign at index 254 are outside: there the source's index can wrap to zero.
- DeliveryLoss.ReplaceSafeIff: for a session that works, started with nothing in flight and whose server can still answer, and a responder that is not retiring; otherwise only that replacing with nothing in flight is safe.
- DeliveryLoss.ConnectSafeIff: for a channel that is not closed; on a closed one the threads end.
- Framing.SessionDelivers: the case in which nothing is refused; `Framing.SessionTells` is for all.
