# Proxy client multiplexer of californium-proxy-node, in Dafny

`lib/Proxy.js` multiplexes CoAP requests (RFC 7252) over one byte stream to
a Californium proxy. Each request goes out as a record:
- a 4-byte big-endian length `2 + N`;
- a 2-byte big-endian packet id;
- the N bytes of the serialized message.

Answers come back in the same framing. The `Proxy` object does four things:
- it allocates packet ids cyclically in 1..65535;
- it reassembles incoming records from a byte queue and a pending frame
  length;
- it correlates each record with the pending request of the same id;
- it tracks observe subscriptions per URI, each with a cancel routine
  guarded by two flags per handle.

The model has two layers:

- **Values.** Three modules describe every operation as a pure transition.
  - `Wire`: the byte layout of a record.
  - `Reassembly`: one step of the reader, and the records a chain of
    steps hands on.
  - `Session`: the whole connection state `Conn`, with one function per
    method of `Proxy`.

  `Guarantees` proves what holds across several operations:
  - the id cycle;
  - in-order, exactly-once delivery;
  - unknown ids are dropped;
  - subscriptions are tracked and replaced;
  - cancellation is idempotent and runs from start to end.
- **In place.** `ProxyClient.Proxy` is a class with the fields of the JS
  object: `packetId`, the reader's queue `buf`, `currentFrameLength`, the
  `requests` and `observers` maps, and the event log. Its methods update
  these fields step by step, as the JS methods do. Each method is proved
  to leave `Abs()` exactly where the matching `Session` function says.

  `Receive` is the `process.nextTick` chain, written as a `while` loop
  over `HandleReaderData`.

Some JS entities are represented differently:

- **Request handles.** The JS `Message` objects, with their listeners and
  the two flags `cancellingObserver` and `cancelledObserver`, live in a
  sequence `handles`. A handle is its index in that sequence.
  - `requests` maps a packet id to a handle number.
  - Events are recorded as `Response(h, msg)`, `Error(h)` or
    `Cancelled(h)` in emission order.
  - The cancel closure that `addObserver` attaches is recorded on the
    handle as the id and URI it captured, and `Cancel` runs it.
  - The 'response' listener of a cancel request is the handle's
    `cancelOf` link, and `CancelAnswered` runs it.
- **Codec.** The message codec (`toBuffer`, `fromBuffer`) is a value of
  type `Codec`, given to the constructor. Parsing may fail (`None`), which
  the source sees as a thrown exception.
- **Writes.** `socket.write` either throws at once (the `writeFails`
  argument, and always after `destroy` has nulled the socket) or queues
  its completion callback. `OnWriteComplete` runs the oldest queued
  callback.
- **Registry constants.** `codeRegistry.get` is 0.01 (1) and
  `codeRegistry.badRequest` is 4.00 (0x80), the values of section 12.1 of
  RFC 7252.

Some behaviours are modelled as the code is written:

- If fewer than 4 bytes are queued and no length is pending, the step
  discards them. So does the deferred step that follows a record with 1 to
  3 trailing bytes (`ShortPrefixDiscarded`, `TrailingBytesDiscarded`).
- A record whose payload has fewer than 4 bytes can be encoded, but the
  reader rejects it and empties its queue (`Reassembly.ReadEncoded`).
- `onSocketClose` leaves `currentFrameLength` as it was.
- Nothing clears `cancellingObserver` except the 'response' listener of
  the cancel request (lib/Proxy.js:185-187). An answer that does not parse
  emits 'error' on the cancel request instead, and a cancel request that
  is never answered runs no listener. Either way the observe handle stays
  "cancelling", so later `cancel()` calls on it do nothing
  (`UnparsableCancelAnswerBlocksRetry`). The cancel request has no 'error'
  listener, so in Node that `emit('error')` (lib/Proxy.js:321) also throws
  out of `handleReaderData`; the model records the 'error' event and goes
  on (see "## Left out").
- Packet ids are unique only among 65535 consecutive allocations
  (`IdsDistinctWithinCycle`), not among pending requests. An observe
  request, or a request never answered, stays pending while the counter
  wraps (`IdsRepeatAfterCycle`). When a later request with the same id
  completes its write, it overwrites the older entry
  (`ReusedIdOverwritesPending`). If that later request is a GET without
  observe whose URI is tracked under that id, it cancels itself
  (`PlainGetUnsubscribes`).

## Model

| member | source | states |
|---|---|---|
| Wire.U16 | lib/Proxy.js:277 | a 2-byte big-endian id read from the queue is at most 65535 |
| Wire.U16Bytes | lib/Proxy.js:93 | the 2 bytes written for an id read back as that id |
| Wire.U32 | lib/Proxy.js:266 | a 4-byte big-endian length read from the queue fits 32 bits |
| Wire.U32Bytes | lib/Proxy.js:92 | the 4 bytes written for a length read back as that length |
| Wire.Encode | lib/Proxy.js:90-94 | the packet has 6 + N bytes: bytes 0-3 read as 2 + N, bytes 4-5 as the id, the rest is the payload |
| Reassembly.WithLength | lib/Proxy.js:264-267 | the optional prefix read never grows the queue |
| Reassembly.ReadStep | lib/Proxy.js:264-296 | a step never grows the queue, and a complete record consumes at least 6 bytes |
| Reassembly.ReadStepConsumes | lib/Proxy.js:264-290 | after the prefix read: the queue is discarded and the length reset iff the length is below 6; the step waits iff the length is valid and bytes are missing; otherwise exactly the declared bytes (2-byte id, then length - 2 payload) are consumed and no length stays pending |
| Reassembly.ReadEncoded | lib/Proxy.js:264-283 | an encoded record on a reader with no pending length is handed on, id and payload intact, with the following bytes left queued, iff its payload has at least 4 bytes; otherwise the whole queue is dropped |
| Reassembly.DrainAfterRecord | lib/Proxy.js:275-295 | after a complete record, a further step is scheduled exactly when bytes remain, and it reads them with no pending length |
| Reassembly.DrainEncoded | lib/Proxy.js:257-297 | records written back to back come out of the reader in the order written, each once, and the reader ends idle |
| Reassembly.ShortPrefixDiscarded | lib/Proxy.js:264-274 | fewer than 4 queued bytes with no pending length are dropped, and no record is handed on |
| Reassembly.TrailingBytesDiscarded | lib/Proxy.js:290-295 | 1 to 3 bytes following a complete record are dropped by the deferred step |
| Reassembly.InvalidLengthResets | lib/Proxy.js:269-274 | a declared length below 6 empties the queue, and a well-formed record that arrives later is read from a clean state |
| Reassembly.SplitAfterPrefix | lib/Proxy.js:264-296 | a record whose body arrives after its length prefix is held back, then handed on once the rest of its bytes arrives |
| Session.Init | lib/Proxy.js:10-66 | a new proxy has `packetId` 0, an empty reader with no pending length, no pending request or write, no subscription, no handle and no event |
| Session.NextPacketId | lib/Proxy.js:123-133 | the next id is in 1..65535 and is the previous id + 1, wrapping from 65535 to 1 |
| Session.Transmit | lib/Proxy.js:85-117 | a request takes the next id and a new handle and never touches the maps; a throwing write emits exactly one 'error' on the new handle and writes nothing; otherwise the encoded packet of that id and the serialized message is written and its completion is queued |
| Session.AddObserver | lib/Proxy.js:162-207 | the URI maps to the new id, overwriting any earlier id, without touching `requests` or the event log; handle h gets a cancel routine capturing the id and URI, and nothing else about it or any other handle changes; the counter, reader, writes and destroyed flag stay as they were |
| Session.RemoveObserver | lib/Proxy.js:213-230 | an untracked URI changes nothing; for a tracked URI the mapping goes, the id stops being pending, and exactly one 'cancelled' is emitted iff it was pending; handles, counter, reader, writes and destroyed flag never change |
| Session.ManageObserver | lib/Proxy.js:140-155 | non-GET requests change nothing; a GET with observe subscribes its URI to the id, attaches the cancel routine to its handle, and touches neither `requests` nor the events; a GET without observe on an untracked URI changes nothing, and on a tracked URI drops the mapping, ends the tracked request and emits exactly one 'cancelled' iff it was pending; the counter, reader, writes and destroyed flag never change |
| Session.WriteComplete | lib/Proxy.js:101-109 | the oldest write is dequeued and its id registered under its handle (overwriting any older entry for that id); an internal request or a non-GET changes nothing else; a GET with observe then maps its URI to the id and gets its cancel routine; a GET without observe then drops its URI's mapping and, if tracked, removes the tracked id from the registered map with one 'cancelled' iff it is pending there, which can be the new request itself; the counter, reader and sent packets stay as they were |
| Session.CancelMessage | lib/Proxy.js:181-184 | the cancel request is a non-confirmable GET request (not a response) without observe, for the same URI and proxy target |
| Session.Cancel | lib/Proxy.js:170-206 | with either flag set (or no routine attached), cancelling changes nothing; otherwise the handle's "cancelling" flag is set and every other existing handle, the maps, the reader and the destroyed flag stay as they were, while a cancel request linked to it takes the next id; a throwing write emits one 'error' on the cancel request; otherwise its packet is written and its completion is queued as internal |
| Session.CancelAnswered | lib/Proxy.js:185-203 | every answer clears `cancellingObserver` and touches no other handle, nor the counter, reader, writes or destroyed flag; an answer with code below 4.00 also sets `cancelledObserver`, ends the observed request, drops the URI mapping only if it still names that id, and emits 'cancelled' once; any other answer changes nothing else |
| Session.HandleResponseFrame | lib/Proxy.js:304-323 | the first new event on the handle is 'response' with the parsed message or 'error' on a parse failure; a non-observe request stops being pending and an observe request stays; for any other request nothing else changes, and for a cancel request whose answer parses the result is exactly `CancelAnswered` run after that 'response' |
| Session.HandleResponseFrameIgnoresReader | lib/Proxy.js:304-323 | handling a frame does not depend on, and does not change, the reader |
| Session.Deliver | lib/Proxy.js:279-288 | handing a record on leaves the reader and the destroyed flag alone |
| Session.DeliverIgnoresReader | lib/Proxy.js:279-288 | handing a record on does not depend on the reader |
| Session.Step | lib/Proxy.js:257-297 | once destroyed, a step does nothing; otherwise the reader moves as one reader step says, a further step is scheduled iff a record was complete and bytes remain, and a record with an unknown id changes nothing but the reader |
| Session.Pump | lib/Proxy.js:292-295 | the chain of deferred steps keeps every stored handle number valid |
| Session.Append | lib/Proxy.js:249 | a 'data' event appends its bytes to the queue, keeps the pending frame length and changes nothing else |
| Session.Receive | lib/Proxy.js:247-252 | a 'data' event and its chain of steps keep every stored handle number valid |
| Session.SocketClose | lib/Proxy.js:235-241 | socket close empties the queue and both maps, keeps the pending length, emits nothing, and leaves handles, counter and writes alone |
| Session.Destroy | lib/Proxy.js:68-79 | destroy empties the queue, keeps the pending length, drops both maps, emits nothing, leaves handles, counter and writes alone, and marks the reader gone |
| Guarantees.IdAfter | lib/Proxy.js:123-133 | the id after any number of allocations is at most 65535 |
| Guarantees.IdAfterCycles | lib/Proxy.js:123-133 | the first id after construction is 1, and the n-th is (n - 1) mod 65535 + 1 |
| Guarantees.IdsDistinctWithinCycle | lib/Proxy.js:123-133 | any 65535 consecutive allocations hand out pairwise distinct ids |
| Guarantees.IdsRepeatAfterCycle | lib/Proxy.js:123-133 | the allocation 65535 later hands out the same id again |
| Guarantees.FirstRequestTakesOne | lib/Proxy.js:34 | a new proxy is at the start of the cycle, and its first request takes id 1 |
| Guarantees.TransmitAdvancesId | lib/Proxy.js:89 | every request, the cancel request included, moves the counter one step along the cycle |
| Guarantees.ReusedIdOverwritesPending | lib/Proxy.js:103 | when the next id is still pending, the completion of a new request under it replaces the older handle |
| Guarantees.DeliverAll | lib/Proxy.js:279-288 | delivering records one after the other leaves the reader alone |
| Guarantees.PumpDeliversInOrder | lib/Proxy.js:292-295 | the chain of steps set off by one 'data' event hands exactly the reassembled records to the correlator, in arrival order |
| Guarantees.UnknownIdsIgnored | lib/Proxy.js:279-288 | records whose ids are not pending change nothing |
| Guarantees.UnknownFramesDropped | lib/Proxy.js:279-288 | a 'data' event carrying only records for ids that are not pending leaves the whole state as it was |
| Guarantees.ReceiveEncoded | lib/Proxy.js:247-297 | records received back to back on an idle reader are delivered one after the other |
| Guarantees.ReceiveTwo | lib/Proxy.js:292-295 | two records received in one chunk are delivered first, then second |
| Guarantees.ExactlyOnceResponse | lib/Proxy.js:304-322 | a plain request answered twice gets exactly one outcome, from the first answer; it stops being pending and the second answer is dropped |
| Guarantees.ObserveEveryFrame | lib/Proxy.js:308-311 | an observe request stays pending, and every answer adds one outcome on its handle |
| Guarantees.RegisteredOnCompletion | lib/Proxy.js:97-116 | `request` leaves both maps alone; the completion callback registers the id; an internal request or a non-GET leaves `observers` alone |
| Guarantees.ResubscribeTracksLatest | lib/Proxy.js:162-166 | subscribing twice to one URI maps it to the second id, and both requests stay pending with no event |
| Guarantees.PlainGetUnsubscribes | lib/Proxy.js:213-230 | a GET without observe on a subscribed URI removes the mapping and the tracked request, emitting one 'cancelled' on the old handle iff it was pending; when the tracked id is the one just handed out again, the new GET itself stops being pending and gets the 'cancelled' |
| Guarantees.CancelIdempotent | lib/Proxy.js:174-179 | cancelling twice before an answer arrives is the same as cancelling once |
| Guarantees.SubscriptionCancelsOnce | lib/Proxy.js:170-206 | an observe GET whose write completed carries its cancel routine; the first `cancel()` sends exactly one cancel request and a second sends nothing more |
| Guarantees.CancelRegistered | lib/Proxy.js:179-205 | after `cancel()` and its write's completion, the cancel request is pending under the next id, linked to the observe handle, and the observe handle is "cancelling" |
| Guarantees.CancelAnswerReceived | lib/Proxy.js:304-323 | receiving the one record that answers a pending cancel request runs that request's listener |
| Guarantees.CancelRoundTrip | lib/Proxy.js:170-206 | cancel, write completion, and an answer below 4.00 give: the cancel request its 'response', the observe handle exactly one 'cancelled' and the "cancelled" flag, the observed id no longer pending, and the URI mapping dropped only if it still names that id |
| Guarantees.FailedCancelAllowsRetry | lib/Proxy.js:187-190 | an answer of 4.00 or above only clears "cancelling", so a later `cancel()` sends a new cancel request |
| Guarantees.UnparsableCancelAnswerBlocksRetry | lib/Proxy.js:313-322 | an unparsable answer to a cancel request emits 'error' on it and leaves the observe handle "cancelling", so `cancel()` stays a no-op |
| ProxyClient.Proxy.constructor | lib/Proxy.js:10-66 | the new object is in the initial state |
| ProxyClient.Proxy.GetNextPacketId | lib/Proxy.js:123-133 | increments and wraps `packetId` in place, as `NextPacketId` says, and changes nothing else |
| ProxyClient.Proxy.Transmit | lib/Proxy.js:85-117 | frames the serialized message with the next id and writes it, or emits 'error', as `Session.Transmit` says |
| ProxyClient.Proxy.Request | lib/Proxy.js:85-117 | `request` on a fresh message, as `Session.Transmit` says |
| ProxyClient.Proxy.OnWriteComplete | lib/Proxy.js:101-109 | the completion callback updates the fields as `Session.WriteComplete` says |
| ProxyClient.Proxy.ManageObserver | lib/Proxy.js:140-155 | updates the fields as `Session.ManageObserver` says |
| ProxyClient.Proxy.AddObserver | lib/Proxy.js:162-207 | updates the fields as `Session.AddObserver` says |
| ProxyClient.Proxy.RemoveObserver | lib/Proxy.js:213-230 | updates the fields as `Session.RemoveObserver` says |
| ProxyClient.Proxy.Cancel | lib/Proxy.js:170-206 | the cancel closure updates the fields as `Session.Cancel` says |
| ProxyClient.Proxy.OnCancelResponse | lib/Proxy.js:185-203 | the cancel request's 'response' listener updates the fields as `Session.CancelAnswered` says |
| ProxyClient.Proxy.HandleResponseFrame | lib/Proxy.js:304-323 | updates the fields as `Session.HandleResponseFrame` says, and leaves the queue and pending length alone |
| ProxyClient.Proxy.HandleReaderData | lib/Proxy.js:257-297 | one step on the fields, and whether it schedules another, exactly as `Session.Step` says |
| ProxyClient.Proxy.TakeFrame | lib/Proxy.js:275-296 | a complete frame: exactly the declared bytes are shifted off the queue, the record goes to the correlator iff its id is pending, the length resets, and a further step is scheduled iff bytes remain |
| ProxyClient.Proxy.OnSocketData | lib/Proxy.js:247-252 | queues the bytes and takes one step, as `Session.Step` on `Session.Append` says |
| ProxyClient.Proxy.Receive | lib/Proxy.js:292-295 | running deferred steps until none is scheduled gives `Session.Receive` |
| ProxyClient.Proxy.OnSocketClose | lib/Proxy.js:235-241 | updates the fields as `Session.SocketClose` says |
| ProxyClient.Proxy.Destroy | lib/Proxy.js:68-79 | updates the fields as `Session.Destroy` says |

## Left out

- Socket I/O is not modelled: `socket.write`, `on` and `removeListener`.
  A write's outcome is an argument (`writeFails`), and its completion is
  the `OnWriteComplete` entry point.
- The `'close'` wiring is not modelled. lib/Proxy.js:41 attaches only
  'data', so `OnSocketClose` is a method that may or may not be called.
- `process.nextTick` is not modelled as a scheduler. A deferred step is
  the `scheduled` result of `HandleReaderData`, and `Receive` runs the
  deferred steps in order before the next 'data' event. Interleaving
  another 'data' event between deferred steps is not modelled.
- `BufferQueueReader` internals are not modelled: the queue is a
  `seq<byte>` with shift and skip.
- The internals of `Message` (`fromObject`, `toBuffer`, `fromBuffer`,
  `getUri`, `hasOption`, `getCode`, `setOption`) are not part of this
  model. A message is the fields the proxy reads, and the codec is a pair
  of functions.
- `Message.fromObject` on a plain object is not modelled: `request` takes
  a message.
- `codeRegistry` and `optionRegistry` are not part of this model. Their
  values are taken from RFC 7252.
- EventEmitter mechanics are not modelled. Events are appended to a log.
  Node throws when 'error' is emitted with no listener; that throw is not
  modelled. The model records the 'error' event and finishes the operation.
  This matters for a cancel request, which never has an 'error' listener
  (lib/Proxy.js:185): when its answer does not parse, the throw at
  lib/Proxy.js:321 leaves `handleReaderData` before lines 290-295, so
  `currentFrameLength` keeps the consumed frame's length and no deferred
  step is scheduled. The model resets the length and schedules the step as
  for any other frame.
- `Message.cancel` on a handle with no cancel routine attached is treated
  as a no-op. Its own behaviour is not part of this model.
- Session.Transmit: serialization (`toBuffer`, lib/Proxy.js:88) is a total
  function here. In the source it runs outside the `try`, so a failing
  serialization throws out of `request` before an id is taken; that case
  is not modelled. A throwing write emits 'error' on the message; one that
  `Message.fromObject` built from a plain object has no listener yet
  (`request` has not returned it), so in Node that
  `emit('error')` (lib/Proxy.js:113) throws out of `request` as well; the
  model records the 'error' event and returns the handle. Serialized messages longer than 0xFFFF_FFFF - 2 bytes
  are excluded by the `Payload` type, where `writeUInt32BE` would throw
  instead.
- Guarantees.IdsDistinctWithinCycle: ids are not unique among pending
  requests. A reused id overwrites the older entry in `requests`, which
  then gets no further outcome through that id
  (`ReusedIdOverwritesPending`).
- ProxyClient.Proxy.OnWriteComplete: requires the proxy not destroyed.
  After `destroy` the JS callback would throw a TypeError on the nulled
  `requests`, and that throw is not modelled.
- ProxyClient.Proxy.OnSocketData: requires the proxy not destroyed,
  because its listener is removed by `destroy`. The same requirement
  applies to `OnSocketClose`, whose JS code would throw on the nulled
  reader (lib/Proxy.js:237), and to `Destroy`, whose second call would
  throw on the nulled socket (lib/Proxy.js:70) before it reaches the
  reader.
- ProxyClient.Proxy.TakeFrame: clears `currentFrameLength` just before
  calling `HandleResponseFrame` instead of just after. That call never
  reads or writes the reader (`HandleResponseFrameIgnoresReader`), so the
  resulting state is the same whenever `handleResponseFrame` returns
  normally. When it throws (an unparsable answer on a handle without an
  'error' listener, as above), the source keeps the length and schedules
  no further step; the model does not capture that.
- Handles are entries of one growing sequence, not heap objects. Handles
  are never freed, and aliasing between JS `Message` objects is not
  modelled.
- The driver script observeTimeResource.js is not part of this
  model.
