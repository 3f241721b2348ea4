/** The connection state of one `Proxy` instance (lib/Proxy.js:10-66) and
    every operation on it, as pure transitions from the old state to the new
    one. The class `ProxyClient.Proxy` performs the same steps in place and
    is proved against these functions. */
module Session {
  import opened Wrappers
  import opened Wire
  import opened Reassembly

  /** `codeRegistry.get`: CoAP method code 0.01 (section 12.1.1 of RFC 7252). */
  const Get: nat := 1
  /** `codeRegistry.badRequest`: CoAP response code 4.00 (section 12.1.2 of RFC 7252). */
  const BadRequest: nat := 0x80

  /** The parts of a CoAP message the proxy client reads. */
  datatype Message = Message(
    nonConfirmable: bool,
    code: nat,
    observe: bool,           // `hasOption(optionRegistry.observe)`
    uri: string,             // `getUri()`
    proxyUri: seq<string>,   // `getOptions(optionRegistry.proxyUri)`
    isResponse: bool)

  /** The message codec: `toBuffer` and `fromBuffer`, which fails (None) on
      malformed bytes. */
  datatype Codec = Codec(serialize: Message -> Payload, parse: seq<byte> -> Option<Message>)

  /** The cancel closure `addObserver` attaches to an observe request, with
      the id and URI it captured (lib/Proxy.js:164-206). */
  datatype CancelRoutine = CancelRoutine(requestId: nat, uri: string)

  /** The 'response' listener on a synthetic cancel request: the observe
      handle it cancels and the id and URI captured by the closure. */
  datatype CancelLink = CancelLink(observer: nat, requestId: nat, uri: string)

  /** A request handle (the `Message` object `request` returns): its message,
      the two cancellation flags, the cancel routine if one was attached and,
      for a synthetic cancel request, what it cancels. */
  datatype Handle = Handle(
    msg: Message,
    cancellingObserver: bool,
    cancelledObserver: bool,
    routine: Option<CancelRoutine>,
    cancelOf: Option<CancelLink>)

  /** An event emitted on a handle, identified by its handle number. */
  datatype Event = Response(handle: nat, msg: Message) | Error(handle: nat) | Cancelled(handle: nat)

  /** A write whose completion callback has not run yet. */
  datatype Write = Write(id: nat, handle: nat, internal: bool)

  /** Everything one `Proxy` owns. `handles` holds every handle ever created
      (a handle is its index); `writes` the pending completion callbacks in
      the order the socket will run them; `sent` the packets written;
      `destroyed` is true once `destroy` has nulled the reader. */
  datatype Conn = Conn(
    packetId: nat,
    reader: Reader,
    requests: map<nat, nat>,
    observers: map<string, nat>,
    handles: seq<Handle>,
    events: seq<Event>,
    writes: seq<Write>,
    sent: seq<seq<byte>>,
    destroyed: bool)

  /** Every handle number stored in the state names a handle. */
  ghost predicate Valid(c: Conn) {
    && c.packetId <= MaxId
    && (forall id | id in c.requests :: c.requests[id] < |c.handles|)
    && (forall i | 0 <= i < |c.writes| :: c.writes[i].handle < |c.handles|)
    && (forall i | 0 <= i < |c.handles| :: LinkOk(c.handles[i], |c.handles|))
  }

  ghost predicate LinkOk(h: Handle, n: nat) {
    h.cancelOf.Some? ==> h.cancelOf.value.observer < n
  }

  /** The state right after construction (lib/Proxy.js:34, 47-65). */
  function Init(): (c: Conn)
    ensures Valid(c) && c.requests == map[] && c.observers == map[] && c.events == []
    ensures c.packetId == 0 && c.reader == Idle && !c.destroyed
    ensures c.handles == [] && c.writes == [] && c.sent == []
  {
    Conn(0, Idle, map[], map[], [], [], [], [], false)
  }

  /** `getNextPacketId` (lib/Proxy.js:123-133): the ids cycle through
      1..65535 and never take the value 0. */
  function NextPacketId(last: nat): (id: nat)
    requires last <= MaxId
    ensures 1 <= id <= MaxId
    ensures id == last % MaxId + 1
  {
    if last + 1 > MaxId then 1 else last + 1
  }

  /** A handle for a message just built by `Message.fromObject`. */
  function NewHandle(m: Message, cancelOf: Option<CancelLink>): Handle {
    Handle(m, false, false, None, cancelOf)
  }

  /** `request(message, internal)` (lib/Proxy.js:85-117) for the handle `hd`:
      allocates a packet id and writes the framed message. A write that
      throws (also the case once `destroy` has nulled the socket) emits
      'error' on the new handle; otherwise the packet goes out and the
      registration waits for the write's completion callback. Returns the new
      state and the new handle. */
  function Transmit(c: Conn, codec: Codec, hd: Handle, internal: bool, writeFails: bool): (r: (Conn, nat))
    requires Valid(c) && LinkOk(hd, |c.handles|)
    ensures Valid(r.0)
    ensures r.1 == |c.handles| && r.0.handles == c.handles + [hd]
    ensures r.0.packetId == NextPacketId(c.packetId)
    ensures r.0.requests == c.requests && r.0.observers == c.observers
    ensures r.0.reader == c.reader && r.0.destroyed == c.destroyed
    ensures writeFails || c.destroyed ==>
      && r.0.events == c.events + [Error(r.1)]
      && r.0.writes == c.writes && r.0.sent == c.sent
    ensures !(writeFails || c.destroyed) ==>
      && r.0.events == c.events
      && r.0.writes == c.writes + [Write(r.0.packetId, r.1, internal)]
      && r.0.sent == c.sent + [Encode(Record(r.0.packetId, codec.serialize(hd.msg)))]
  {
    var h := |c.handles|;
    var id := NextPacketId(c.packetId);
    var packet := Encode(Record(id, codec.serialize(hd.msg)));
    var c1 := c.(packetId := id, handles := c.handles + [hd]);
    if writeFails || c.destroyed then
      (c1.(events := c1.events + [Error(h)]), h)
    else
      (c1.(writes := c1.writes + [Write(id, h, internal)], sent := c1.sent + [packet]), h)
  }

  /** `request` as the application calls it, with a fresh message. */
  function Request(c: Conn, codec: Codec, m: Message, internal: bool, writeFails: bool): (r: (Conn, nat))
    requires Valid(c)
  {
    Transmit(c, codec, NewHandle(m, None), internal, writeFails)
  }

  /** `addObserver` (lib/Proxy.js:162-207): the URI now maps to this id,
      whatever it mapped to before, and the handle gets its cancel routine. */
  function AddObserver(c: Conn, id: nat, h: nat): (r: Conn)
    requires Valid(c) && h < |c.handles|
    ensures Valid(r)
    ensures r.observers == c.observers[c.handles[h].msg.uri := id]
    ensures r.requests == c.requests && r.events == c.events
    ensures |r.handles| == |c.handles| && r.handles[h].routine == Some(CancelRoutine(id, c.handles[h].msg.uri))
    ensures r.handles[h] == c.handles[h].(routine := r.handles[h].routine)
    ensures forall i | 0 <= i < |c.handles| && i != h :: r.handles[i] == c.handles[i]
    ensures r.packetId == c.packetId && r.reader == c.reader && r.writes == c.writes && r.sent == c.sent && r.destroyed == c.destroyed
  {
    var uri := c.handles[h].msg.uri;
    c.(observers := c.observers[uri := id],
       handles := c.handles[h := c.handles[h].(routine := Some(CancelRoutine(id, uri)))])
  }

  /** `removeObserver` (lib/Proxy.js:213-230). */
  function RemoveObserver(c: Conn, uri: string): (r: Conn)
    requires Valid(c)
    ensures Valid(r)
    ensures uri !in r.observers && r.observers == c.observers - {uri}
    ensures r.handles == c.handles
    ensures r.packetId == c.packetId && r.reader == c.reader && r.writes == c.writes && r.sent == c.sent && r.destroyed == c.destroyed
    ensures uri !in c.observers ==> r == c
    ensures uri in c.observers ==>
      var oid := c.observers[uri];
      && oid !in r.requests
      && r.requests == c.requests - {oid}
      && r.events == c.events + (if oid in c.requests then [Cancelled(c.requests[oid])] else [])
  {
    if uri !in c.observers then c
    else
      var oid := c.observers[uri];
      var c1 := c.(observers := c.observers - {uri});
      if oid !in c1.requests then c1
      else c1.(requests := c1.requests - {oid}, events := c1.events + [Cancelled(c1.requests[oid])])
  }

  /** `manageObserver` (lib/Proxy.js:140-155): only GET requests take part;
      a GET with the observe option subscribes, a GET without it
      unsubscribes its URI. */
  function ManageObserver(c: Conn, id: nat, h: nat): (r: Conn)
    requires Valid(c) && h < |c.handles|
    ensures Valid(r)
    ensures var m := c.handles[h].msg;
      && (m.code != Get ==> r == c)
      && (m.code == Get && m.observe ==>
            && r.observers == c.observers[m.uri := id] && r.requests == c.requests && r.events == c.events
            && r.handles == c.handles[h := c.handles[h].(routine := Some(CancelRoutine(id, m.uri)))])
      && (m.code == Get && !m.observe ==>
            m.uri !in r.observers && r.observers == c.observers - {m.uri} && r.handles == c.handles)
      && (m.code == Get && !m.observe && m.uri !in c.observers ==> r == c)
      && (m.code == Get && !m.observe && m.uri in c.observers ==>
            var oid := c.observers[m.uri];
            && oid !in r.requests
            && r.requests == c.requests - {oid}
            && r.events == c.events + (if oid in c.requests then [Cancelled(c.requests[oid])] else []))
    ensures r.packetId == c.packetId && r.reader == c.reader && r.writes == c.writes && r.sent == c.sent && r.destroyed == c.destroyed
  {
    var m := c.handles[h].msg;
    if m.code != Get then c
    else if m.observe then AddObserver(c, id, h)
    else RemoveObserver(c, m.uri)
  }

  /** The write-completion callback of lib/Proxy.js:101-109 for the oldest
      pending write: the request becomes pending under its id and, unless it
      is internal, is handed to `manageObserver`. */
  function WriteComplete(c: Conn): (r: Conn)
    requires Valid(c) && |c.writes| > 0 && !c.destroyed
    ensures Valid(r)
    ensures r.writes == c.writes[1..] && r.sent == c.sent && r.reader == c.reader
    ensures r.packetId == c.packetId && !r.destroyed
    ensures var w := c.writes[0];
      && (w.internal || c.handles[w.handle].msg.code != Get ==>
            && r.requests == c.requests[w.id := w.handle]
            && r.observers == c.observers && r.events == c.events && r.handles == c.handles)
      && (w.internal || c.handles[w.handle].msg.code != Get || c.handles[w.handle].msg.observe ==>
            w.id in r.requests && r.requests[w.id] == w.handle)
    ensures var w := c.writes[0];
      var m := c.handles[w.handle].msg;
      !w.internal && m.code == Get && m.observe ==>
        && r.requests == c.requests[w.id := w.handle]
        && r.observers == c.observers[m.uri := w.id] && r.events == c.events
        && r.handles == c.handles[w.handle := c.handles[w.handle].(routine := Some(CancelRoutine(w.id, m.uri)))]
    ensures var w := c.writes[0];
      var m := c.handles[w.handle].msg;
      var registered := c.requests[w.id := w.handle];
      !w.internal && m.code == Get && !m.observe ==>
        && r.observers == c.observers - {m.uri} && r.handles == c.handles
        && (m.uri !in c.observers ==> r.requests == registered && r.events == c.events)
        && (m.uri in c.observers ==>
              var oid := c.observers[m.uri];
              && r.requests == registered - {oid}
              && r.events == c.events + (if oid in registered then [Cancelled(registered[oid])] else []))
  {
    var w := c.writes[0];
    var c1 := c.(writes := c.writes[1..], requests := c.requests[w.id := w.handle]);
    if w.internal then c1 else ManageObserver(c1, w.id, w.handle)
  }

  /** The message the cancel routine synthesizes (lib/Proxy.js:181-184): a
      non-confirmable GET without the observe option, for the same URI and
      proxy target. */
  function CancelMessage(uri: string, original: Message): (m: Message)
    ensures m.nonConfirmable && !m.isResponse
    ensures m.code == Get && !m.observe && m.uri == uri && m.proxyUri == original.proxyUri
  {
    Message(true, Get, false, uri, original.proxyUri, false)
  }

  /** Calling `cancel()` on handle `h` (lib/Proxy.js:170-206). With both flags
      clear it sets `cancellingObserver` and submits the cancel request as an
      internal request; otherwise it does nothing. A handle with no attached
      routine is left alone: `Message.cancel` itself is not part of this
      model. */
  function Cancel(c: Conn, codec: Codec, h: nat, writeFails: bool): (r: Conn)
    requires Valid(c) && h < |c.handles|
    ensures Valid(r)
    ensures var hd := c.handles[h];
      && (hd.routine.None? || hd.cancelledObserver || hd.cancellingObserver ==> r == c)
      && (hd.routine.Some? && !hd.cancelledObserver && !hd.cancellingObserver ==>
            && |r.handles| == |c.handles| + 1
            && r.handles[h] == hd.(cancellingObserver := true)
            && (forall i | 0 <= i < |c.handles| && i != h :: r.handles[i] == c.handles[i])
            && r.requests == c.requests && r.observers == c.observers
            && r.reader == c.reader && r.destroyed == c.destroyed
            && r.packetId == NextPacketId(c.packetId)
            && r.handles[|c.handles|] == NewHandle(CancelMessage(hd.routine.value.uri, hd.msg),
                 Some(CancelLink(h, hd.routine.value.requestId, hd.routine.value.uri))))
    ensures var hd := c.handles[h];
      hd.routine.Some? && !hd.cancelledObserver && !hd.cancellingObserver ==>
        && (writeFails || c.destroyed ==>
              r.events == c.events + [Error(|c.handles|)] && r.writes == c.writes && r.sent == c.sent)
        && (!(writeFails || c.destroyed) ==>
              && r.events == c.events
              && r.writes == c.writes + [Write(r.packetId, |c.handles|, true)]
              && r.sent == c.sent + [Encode(Record(r.packetId, codec.serialize(r.handles[|c.handles|].msg)))])
  {
    var hd := c.handles[h];
    match hd.routine
    case None => c
    case Some(rt) =>
      if hd.cancelledObserver || hd.cancellingObserver then c
      else
        var c1 := c.(handles := c.handles[h := hd.(cancellingObserver := true)]);
        var link := CancelLink(h, rt.requestId, rt.uri);
        Transmit(c1, codec, NewHandle(CancelMessage(rt.uri, hd.msg), Some(link)), true, writeFails).0
  }

  /** The 'response' listener of a cancel request (lib/Proxy.js:185-203).
      Every answer clears `cancellingObserver`; only a response whose code is
      below 4.00 completes the cancellation. */
  function CancelAnswered(c: Conn, link: CancelLink, resp: Message): (r: Conn)
    requires Valid(c) && link.observer < |c.handles|
    ensures Valid(r)
    ensures |r.handles| == |c.handles| && !r.handles[link.observer].cancellingObserver
    ensures r.handles[link.observer] == c.handles[link.observer].(
      cancellingObserver := false, cancelledObserver := r.handles[link.observer].cancelledObserver)
    ensures forall i | 0 <= i < |c.handles| && i != link.observer :: r.handles[i] == c.handles[i]
    ensures r.packetId == c.packetId && r.reader == c.reader && r.writes == c.writes && r.sent == c.sent && r.destroyed == c.destroyed
    ensures !(resp.isResponse && resp.code < BadRequest) ==>
      && r.requests == c.requests && r.observers == c.observers && r.events == c.events
      && r.handles[link.observer].cancelledObserver == c.handles[link.observer].cancelledObserver
    ensures resp.isResponse && resp.code < BadRequest ==>
      && r.handles[link.observer].cancelledObserver
      && r.requests == c.requests - {link.requestId}
      && r.events == c.events + [Cancelled(link.observer)]
      && (link.uri in c.observers && c.observers[link.uri] == link.requestId ==>
            r.observers == c.observers - {link.uri})
      && (!(link.uri in c.observers && c.observers[link.uri] == link.requestId) ==>
            r.observers == c.observers)
  {
    var o := c.handles[link.observer];
    var c1 := c.(handles := c.handles[link.observer := o.(cancellingObserver := false)]);
    if resp.isResponse && resp.code < BadRequest then
      var observers :=
        if link.uri in c1.observers && c1.observers[link.uri] == link.requestId
        then c1.observers - {link.uri} else c1.observers;
      c1.(handles := c1.handles[link.observer := c1.handles[link.observer].(cancelledObserver := true)],
          observers := observers,
          requests := c1.requests - {link.requestId},
          events := c1.events + [Cancelled(link.observer)])
    else c1
  }

  /** The event a payload for handle h produces: 'response' with the parsed
      message, or 'error' when it does not parse (lib/Proxy.js:313-322). */
  function ResponseEvent(codec: Codec, h: nat, payload: seq<byte>): Event {
    match codec.parse(payload)
    case None => Error(h)
    case Some(m) => Response(h, m)
  }

  /** `handleResponseFrame` (lib/Proxy.js:304-323): a request without the
      observe option stops being pending before the payload is parsed; the
      parsed message is emitted as 'response' (running the cancel listener
      for a cancel request), a parse failure as 'error'. */
  function HandleResponseFrame(c: Conn, codec: Codec, id: nat, payload: seq<byte>): (r: Conn)
    requires Valid(c) && id in c.requests
    ensures Valid(r)
    ensures r.reader == c.reader && r.destroyed == c.destroyed
    ensures r.packetId == c.packetId && r.writes == c.writes && r.sent == c.sent
    ensures var h := c.requests[id];
      var hd := c.handles[h];
      var first := ResponseEvent(codec, h, payload);
      && |r.events| > |c.events| && r.events[|c.events|] == first
      && (hd.cancelOf.None? || codec.parse(payload).None? ==> r.events == c.events + [first])
      && (hd.cancelOf.None? || codec.parse(payload).None? ==>
            r.handles == c.handles && r.observers == c.observers)
      && (hd.cancelOf.None? || codec.parse(payload).None? ==>
            r.requests == if hd.msg.observe then c.requests else c.requests - {id})
      && (!hd.msg.observe ==> id !in r.requests)
      && (hd.cancelOf.Some? && codec.parse(payload).Some? ==>
            var c1 := if hd.msg.observe then c else c.(requests := c.requests - {id});
            r == CancelAnswered(c1.(events := c1.events + [first]), hd.cancelOf.value, codec.parse(payload).value))
  {
    var h := c.requests[id];
    var hd := c.handles[h];
    var c1 := if hd.msg.observe then c else c.(requests := c.requests - {id});
    match codec.parse(payload)
    case None => c1.(events := c1.events + [Error(h)])
    case Some(resp) =>
      var c2 := c1.(events := c1.events + [Response(h, resp)]);
      match hd.cancelOf
      case None => c2
      case Some(link) => CancelAnswered(c2, link, resp)
  }

  /** `handleResponseFrame` neither reads nor writes the reader. */
  lemma HandleResponseFrameIgnoresReader(c: Conn, codec: Codec, id: nat, payload: seq<byte>, x: Reader)
    requires Valid(c) && id in c.requests
    ensures HandleResponseFrame(c.(reader := x), codec, id, payload)
         == HandleResponseFrame(c, codec, id, payload).(reader := x)
  {
    match c.handles[c.requests[id]].cancelOf
    case None =>
    case Some(link) =>
  }

  /** Handing one record to the correlator: `handleResponseFrame` when its id
      is pending, nothing otherwise (lib/Proxy.js:279-288). */
  function Deliver(c: Conn, codec: Codec, rec: Record): (r: Conn)
    requires Valid(c)
    ensures Valid(r) && r.reader == c.reader && r.destroyed == c.destroyed
  {
    if rec.id in c.requests then HandleResponseFrame(c, codec, rec.id, rec.payload) else c
  }

  /** Delivery neither reads nor writes the reader. */
  lemma DeliverIgnoresReader(c: Conn, codec: Codec, rec: Record, x: Reader)
    requires Valid(c)
    ensures Deliver(c.(reader := x), codec, rec) == Deliver(c, codec, rec).(reader := x)
  {
    if rec.id in c.requests {
      HandleResponseFrameIgnoresReader(c, codec, rec.id, rec.payload, x);
    }
  }

  /** One call of `handleReaderData` (lib/Proxy.js:257-297): a no-op once the
      reader is gone; otherwise one reader step, the record handed to
      `handleResponseFrame` when its id is pending and dropped otherwise.
      The flag says whether a further step was scheduled. */
  function Step(c: Conn, codec: Codec): (r: (Conn, bool))
    requires Valid(c)
    ensures Valid(r.0)
    ensures c.destroyed ==> r == (c, false)
    ensures !c.destroyed ==> r.0.reader == ReadStep(c.reader).next && r.1 == Scheduled(ReadStep(c.reader))
    ensures |r.0.reader.buf| <= |c.reader.buf|
    ensures r.1 ==> |r.0.reader.buf| + 6 <= |c.reader.buf|
    ensures !(ReadStep(c.reader).outcome.Complete? && ReadStep(c.reader).outcome.rec.id in c.requests) ==>
      r.0 == c.(reader := r.0.reader)
  {
    if c.destroyed then (c, false)
    else
      var s := ReadStep(c.reader);
      var c1 := c.(reader := s.next);
      match s.outcome
      case Complete(rec) => (Deliver(c1, codec, rec), Scheduled(s))
      case _ => (c1, false)
  }

  /** The three ways a step on a live reader can go. */
  lemma StepCases(c: Conn, codec: Codec)
    requires Valid(c) && !c.destroyed
    ensures var s := ReadStep(c.reader);
      && (!s.outcome.Complete? ==> Step(c, codec) == (c.(reader := s.next), false))
      && (s.outcome.Complete? ==> Step(c, codec) == (Deliver(c.(reader := s.next), codec, s.outcome.rec), Scheduled(s)))
  {
  }

  /** A step followed by every deferred step it schedules, in order: what
      the `process.nextTick` chain of lib/Proxy.js:292-295 does. */
  function Pump(c: Conn, codec: Codec): (r: Conn)
    requires Valid(c)
    ensures Valid(r)
    decreases |c.reader.buf|
  {
    var s := Step(c, codec);
    if s.1 then Pump(s.0, codec) else s.0
  }

  /** The bytes of one 'data' event appended to the reader's queue
      (`onSocketData`, lib/Proxy.js:247-252). */
  function Append(c: Conn, data: seq<byte>): (r: Conn)
    ensures r.reader == Reader(c.reader.buf + data, c.reader.frameLength)
    ensures r == c.(reader := r.reader)
  {
    c.(reader := c.reader.(buf := c.reader.buf + data))
  }

  /** A 'data' event and the whole chain of steps it sets off. */
  function Receive(c: Conn, codec: Codec, data: seq<byte>): (r: Conn)
    requires Valid(c) && !c.destroyed
    ensures Valid(r)
  {
    Pump(Append(c, data), codec)
  }

  /** `onSocketClose` (lib/Proxy.js:235-241): the queue is emptied and both
      maps are cleared; the pending frame length is left as it was. */
  function SocketClose(c: Conn): (r: Conn)
    requires Valid(c) && !c.destroyed
    ensures Valid(r)
    ensures r.reader == Reader([], c.reader.frameLength)
    ensures r.requests == map[] && r.observers == map[]
    ensures r.events == c.events && r.handles == c.handles
    ensures r.packetId == c.packetId && r.writes == c.writes && r.sent == c.sent && !r.destroyed
  {
    c.(reader := c.reader.(buf := []), requests := map[], observers := map[])
  }

  /** `destroy` (lib/Proxy.js:68-79): the queue is emptied, the maps are
      dropped and the reader is gone, so later steps do nothing. */
  function Destroy(c: Conn): (r: Conn)
    requires Valid(c) && !c.destroyed
    ensures Valid(r) && r.destroyed
    ensures r.reader == Reader([], c.reader.frameLength) && r.requests == map[] && r.observers == map[]
    ensures r.events == c.events && r.handles == c.handles
    ensures r.packetId == c.packetId && r.writes == c.writes && r.sent == c.sent
  {
    c.(reader := c.reader.(buf := []), requests := map[], observers := map[], destroyed := true)
  }
}
