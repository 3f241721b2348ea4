/** The `Proxy` object of lib/Proxy.js, updating its fields in place. Each
    method is proved to take the state exactly where the matching function
    of module Session says. */
module ProxyClient {
  import opened Wrappers
  import opened Wire
  import opened Reassembly
  import opened Session

  class Proxy {
    /** The message codec the requests and answers go through. */
    const codec: Codec

    var packetId: nat
    /** The bytes queued in the `BufferQueueReader`. */
    var buf: seq<byte>
    var currentFrameLength: nat
    /** Packet id to handle number of the pending requests. */
    var requests: map<nat, nat>
    /** URI to packet id of the active observe requests. */
    var observers: map<string, nat>
    /** Every request handle created so far; a handle is its index. */
    var handles: seq<Handle>
    /** Every event emitted on a handle, in order. */
    var events: seq<Event>
    /** Writes whose completion callback has not run yet, oldest first. */
    var writes: seq<Write>
    /** Packets handed to `socket.write`, in order. */
    var sent: seq<seq<byte>>
    /** True once `destroy` has set `reader` to null. */
    var destroyed: bool

    ghost function Abs(): Conn
      reads this
    {
      Conn(packetId, Reader(buf, currentFrameLength), requests, observers,
           handles, events, writes, sent, destroyed)
    }

    ghost predicate Valid()
      reads this
    {
      Session.Valid(Abs())
    }

    /** `new Proxy(socket)` (lib/Proxy.js:10-66). */
    constructor (codec: Codec)
      ensures Valid() && Abs() == Init() && this.codec == codec
    {
      this.codec := codec;
      packetId := 0;
      buf := [];
      currentFrameLength := 0;
      requests := map[];
      observers := map[];
      handles := [];
      events := [];
      writes := [];
      sent := [];
      destroyed := false;
    }

    /** `getNextPacketId` (lib/Proxy.js:123-133). */
    method GetNextPacketId() returns (id: nat)
      requires Valid()
      modifies this
      ensures Valid() && id == NextPacketId(old(packetId))
      ensures Abs() == old(Abs()).(packetId := id)
    {
      packetId := packetId + 1;
      if packetId > MaxId {
        packetId := 1;
      }
      id := packetId;
    }

    /** `request(message, internal)` (lib/Proxy.js:85-117) for an already
        built handle: frame, write, and either queue the completion callback
        or emit 'error' when the write throws. */
    method Transmit(hd: Handle, internal: bool, writeFails: bool) returns (h: nat)
      requires Valid() && LinkOk(hd, |handles|)
      modifies this
      ensures Valid() && (Abs(), h) == Session.Transmit(old(Abs()), codec, hd, internal, writeFails)
    {
      var frame := codec.serialize(hd.msg);
      var requestId := GetNextPacketId();
      var packet := U32Bytes(2 + |frame|) + U16Bytes(requestId) + frame;
      h := |handles|;
      handles := handles + [hd];
      if writeFails || destroyed {
        events := events + [Error(h)];
      } else {
        sent := sent + [packet];
        writes := writes + [Write(requestId, h, internal)];
      }
    }

    /** `request(message)` as the application calls it. */
    method Request(m: Message, internal: bool, writeFails: bool) returns (h: nat)
      requires Valid()
      modifies this
      ensures Valid() && (Abs(), h) == Session.Request(old(Abs()), codec, m, internal, writeFails)
    {
      h := Transmit(NewHandle(m, None), internal, writeFails);
    }

    /** The completion callback of the oldest pending write
        (lib/Proxy.js:101-109). */
    method OnWriteComplete()
      requires Valid() && |writes| > 0 && !destroyed
      modifies this
      ensures Valid() && Abs() == WriteComplete(old(Abs()))
    {
      var w := writes[0];
      writes := writes[1..];
      requests := requests[w.id := w.handle];
      if !w.internal {
        ManageObserver(w.id, w.handle);
      }
    }

    /** `manageObserver` (lib/Proxy.js:140-155). */
    method ManageObserver(requestId: nat, h: nat)
      requires Valid() && h < |handles|
      modifies this
      ensures Valid() && Abs() == Session.ManageObserver(old(Abs()), requestId, h)
    {
      var request := handles[h].msg;
      if request.code != Get {
        return;
      }
      if request.observe {
        AddObserver(requestId, h);
      } else {
        RemoveObserver(request.uri);
      }
    }

    /** `addObserver` (lib/Proxy.js:162-207); the cancel closure is recorded
        on the handle and run by `Cancel`. */
    method AddObserver(requestId: nat, h: nat)
      requires Valid() && h < |handles|
      modifies this
      ensures Valid() && Abs() == Session.AddObserver(old(Abs()), requestId, h)
    {
      var uri := handles[h].msg.uri;
      observers := observers[uri := requestId];
      handles := handles[h := handles[h].(routine := Some(CancelRoutine(requestId, uri)))];
    }

    /** `removeObserver` (lib/Proxy.js:213-230). */
    method RemoveObserver(uri: string)
      requires Valid()
      modifies this
      ensures Valid() && Abs() == Session.RemoveObserver(old(Abs()), uri)
    {
      if uri in observers {
        var observerId := observers[uri];
        observers := observers - {uri};
        if observerId in requests {
          var observer := requests[observerId];
          requests := requests - {observerId};
          events := events + [Cancelled(observer)];
        }
      }
    }

    /** `cancel()` on handle h: the closure of lib/Proxy.js:170-206. */
    method Cancel(h: nat, writeFails: bool)
      requires Valid() && h < |handles|
      modifies this
      ensures Valid() && Abs() == Session.Cancel(old(Abs()), codec, h, writeFails)
    {
      var request := handles[h];
      if request.routine.None? {
        return;
      }
      var rt := request.routine.value;
      if request.cancelledObserver || request.cancellingObserver {
        return;
      }
      handles := handles[h := request.(cancellingObserver := true)];
      var cancelRequest := CancelMessage(rt.uri, request.msg);
      var _ := Transmit(NewHandle(cancelRequest, Some(CancelLink(h, rt.requestId, rt.uri))), true, writeFails);
    }

    /** The 'response' listener of a cancel request (lib/Proxy.js:185-203). */
    method OnCancelResponse(link: CancelLink, response: Message)
      requires Valid() && link.observer < |handles|
      modifies this
      ensures Valid() && Abs() == CancelAnswered(old(Abs()), link, response)
    {
      var request := link.observer;
      handles := handles[request := handles[request].(cancellingObserver := false)];
      if response.isResponse && response.code < BadRequest {
        handles := handles[request := handles[request].(cancelledObserver := true)];
        if link.uri in observers && observers[link.uri] == link.requestId {
          observers := observers - {link.uri};
        }
        requests := requests - {link.requestId};
        events := events + [Cancelled(request)];
      }
    }

    /** `handleResponseFrame` (lib/Proxy.js:304-323). */
    method HandleResponseFrame(requestId: nat, responseFrame: seq<byte>)
      requires Valid() && requestId in requests
      modifies this
      ensures Valid() && Abs() == Session.HandleResponseFrame(old(Abs()), codec, requestId, responseFrame)
      ensures buf == old(buf) && currentFrameLength == old(currentFrameLength)
    {
      var request := requests[requestId];
      var hd := handles[request];
      if !hd.msg.observe {
        requests := requests - {requestId};
      }
      match codec.parse(responseFrame)
      case None =>
        events := events + [Error(request)];
      case Some(response) =>
        events := events + [Response(request, response)];
        if hd.cancelOf.Some? {
          OnCancelResponse(hd.cancelOf.value, response);
        }
    }

    /** `handleReaderData` (lib/Proxy.js:257-297): one step of the reader.
        Returns whether it scheduled a further step with `process.nextTick`. */
    method HandleReaderData() returns (scheduled: bool)
      requires Valid()
      modifies this
      ensures Valid() && (Abs(), scheduled) == Step(old(Abs()), codec)
    {
      if destroyed {
        return false;
      }
      StepCases(Abs(), codec);
      if currentFrameLength == 0 && |buf| >= 4 {
        currentFrameLength := U32(buf[..4]);
        buf := buf[4..];
      }
      if currentFrameLength < 6 {
        buf := [];
        currentFrameLength := 0;
        scheduled := false;
      } else if |buf| >= currentFrameLength {
        ReadStepComplete(old(Abs()).reader);
        scheduled := TakeFrame();
      } else {
        scheduled := false;
      }
    }

    /** The branch of `handleReaderData` for a complete frame
        (lib/Proxy.js:275-296): shift the id, hand the payload on if the id
        is pending or skip it, clear the pending length. */
    method TakeFrame() returns (scheduled: bool)
      requires Valid() && 6 <= currentFrameLength <= |buf|
      modifies this
      ensures Valid()
      ensures Abs() == Deliver(old(Abs()).(reader := Reader(old(buf)[old(currentFrameLength)..], 0)), codec,
                               Record(U16(old(buf)[..2]), old(buf)[2..old(currentFrameLength)]))
      ensures scheduled == (|old(buf)| > old(currentFrameLength))
    {
      ghost var frameLength := currentFrameLength;
      ghost var rest := buf[frameLength..];
      Shifted(buf, 2, frameLength - 2);
      var requestId := U16(buf[..2]);
      buf := buf[2..];
      if requestId in requests {
        var responseFrame := buf[..currentFrameLength - 2];
        buf := buf[currentFrameLength - 2..];
        // The source clears the pending length after this call; the call
        // never touches the reader, so clearing it first is the same.
        currentFrameLength := 0;
        ghost var idle := Abs();
        assert idle == old(Abs()).(reader := Reader(rest, 0));
        HandleResponseFrame(requestId, responseFrame);
        assert Abs() == Session.HandleResponseFrame(idle, codec, requestId, responseFrame);
      } else {
        buf := buf[currentFrameLength - 2..];
        currentFrameLength := 0;
        assert Abs() == old(Abs()).(reader := Reader(rest, 0));
      }
      scheduled := |buf| > 0;
    }

    /** `onSocketData` (lib/Proxy.js:247-252): queue the bytes and take one
        step. */
    method OnSocketData(data: seq<byte>) returns (scheduled: bool)
      requires Valid() && !destroyed
      modifies this
      ensures Valid() && (Abs(), scheduled) == Step(Append(old(Abs()), data), codec)
    {
      buf := buf + data;
      scheduled := HandleReaderData();
    }

    /** A 'data' event followed by the deferred steps it schedules, run one
        after the other until a step schedules no further one. */
    method Receive(data: seq<byte>)
      requires Valid() && !destroyed
      modifies this
      ensures Valid() && Abs() == Session.Receive(old(Abs()), codec, data)
    {
      var more := OnSocketData(data);
      while more
        invariant Valid()
        invariant (if more then Pump(Abs(), codec) else Abs()) == Session.Receive(old(Abs()), codec, data)
        decreases |buf| + (if more then 1 else 0)
      {
        more := HandleReaderData();
      }
    }

    /** `onSocketClose` (lib/Proxy.js:235-241). */
    method OnSocketClose()
      requires Valid() && !destroyed
      modifies this
      ensures Valid() && Abs() == SocketClose(old(Abs()))
    {
      buf := [];
      requests := map[];
      observers := map[];
    }

    /** `destroy` (lib/Proxy.js:68-79). */
    method Destroy()
      requires Valid() && !destroyed
      modifies this
      ensures Valid() && Abs() == Session.Destroy(old(Abs()))
    {
      buf := [];
      destroyed := true;
      requests := map[];
      observers := map[];
    }
  }
}
