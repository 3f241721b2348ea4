/** What the connection state machine of lib/Proxy.js guarantees across
    several operations: the id cycle, exactly-once delivery, arrival order,
    subscription tracking and idempotent cancellation. */
module Guarantees {
  import opened Wrappers
  import opened Wire
  import opened Reassembly
  import opened Session

  /** `packetId` after n calls of `getNextPacketId` on a new `Proxy`. */
  function IdAfter(n: nat): (id: nat)
    ensures id <= MaxId
  {
    if n == 0 then 0 else NextPacketId(IdAfter(n - 1))
  }

  /** The first id handed out is 1 and the n-th is (n - 1) mod 65535 + 1. */
  lemma {:induction false} IdAfterCycles(n: nat)
    requires n >= 1
    ensures IdAfter(n) == (n - 1) % MaxId + 1
  {
    if n > 1 {
      IdAfterCycles(n - 1);
      var k := (n - 2) % MaxId;
      assert IdAfter(n) == (k + 1) % MaxId + 1;
      if k + 1 < MaxId {
        assert (n - 1) % MaxId == k + 1;
      } else {
        assert (n - 1) % MaxId == 0;
      }
    }
  }

  /** 65535 allocations later the same id is handed out again. */
  lemma {:induction false} IdsRepeatAfterCycle(n: nat)
    requires n >= 1
    ensures IdAfter(n + MaxId) == IdAfter(n)
  {
    var k: nat := n - 1;
    IdAfterCycles(n);
    IdAfterCycles(n + MaxId);
    assert IdAfter(n + MaxId) == (k + MaxId) % MaxId + 1;
    ModPeriod(k);
  }

  /** Adding MaxId leaves the remainder alone. */
  lemma ModPeriod(x: nat)
    ensures (x + MaxId) % MaxId == x % MaxId
  {
    var q, r := x / MaxId, x % MaxId;
    assert x + MaxId == (q + 1) * MaxId + r;
  }

  /** A new proxy starts the cycle at 0, so its first request takes id 1. */
  lemma FirstRequestTakesOne(codec: Codec, hd: Handle, internal: bool, writeFails: bool)
    requires LinkOk(hd, 0)
    ensures Init().packetId == IdAfter(0)
    ensures Transmit(Init(), codec, hd, internal, writeFails).0.packetId == 1
  {
  }

  /** Every request, including the synthetic cancel request, takes the next
      id of the cycle: after n of them a new proxy is at IdAfter(n). */
  lemma TransmitAdvancesId(c: Conn, codec: Codec, hd: Handle, internal: bool, writeFails: bool, n: nat)
    requires Valid(c) && LinkOk(hd, |c.handles|) && c.packetId == IdAfter(n)
    ensures Transmit(c, codec, hd, internal, writeFails).0.packetId == IdAfter(n + 1)
  {
  }

  /** Two numbers less than MaxId apart leave different remainders. */
  lemma ModDistinct(x: nat, y: nat)
    requires x < y < x + MaxId
    ensures x % MaxId != y % MaxId
  {
    var k := y / MaxId - x / MaxId;
    assert y - x == k * MaxId + (y % MaxId - x % MaxId);
    if k <= 0 {
      assert k * MaxId <= 0;
    } else {
      assert k * MaxId >= MaxId;
    }
  }

  /** Any 65535 consecutive allocations hand out pairwise distinct ids. */
  lemma IdsDistinctWithinCycle(i: nat, j: nat)
    requires 1 <= i < j < i + MaxId
    ensures IdAfter(i) != IdAfter(j)
  {
    IdAfterCycles(i);
    IdAfterCycles(j);
    ModDistinct(i - 1, j - 1);
  }

  /** Records handed to the correlator one after the other. */
  function DeliverAll(c: Conn, codec: Codec, recs: seq<Record>): (r: Conn)
    requires Valid(c)
    ensures Valid(r) && r.reader == c.reader && r.destroyed == c.destroyed
    decreases recs
  {
    if recs == [] then c else DeliverAll(Deliver(c, codec, recs[0]), codec, recs[1..])
  }

  /** The chain of steps set off by one 'data' event hands exactly the
      records the reader reassembles to the correlator, in arrival order,
      and leaves the reader where reassembly leaves it. */
  lemma {:induction false} PumpDeliversInOrder(c: Conn, codec: Codec)
    requires Valid(c) && !c.destroyed
    ensures var d := Drain(c.reader);
      Pump(c, codec) == DeliverAll(c.(reader := d.1), codec, d.0)
    decreases |c.reader.buf|
  {
    var s := ReadStep(c.reader);
    var d := Drain(c.reader);
    if s.outcome.Complete? {
      var rec := s.outcome.rec;
      var c1 := Deliver(c.(reader := s.next), codec, rec);
      assert Step(c, codec) == (c1, Scheduled(s));
      if Scheduled(s) {
        var rest := Drain(s.next);
        assert d == ([rec] + rest.0, rest.1);
        PumpDeliversInOrder(c1, codec);
        DeliverIgnoresReader(c.(reader := s.next), codec, rec, rest.1);
        assert c.(reader := s.next).(reader := rest.1) == c.(reader := rest.1);
        assert ([rec] + rest.0)[1..] == rest.0;
      } else {
        assert d == ([rec], s.next);
        assert [rec][1..] == [];
      }
    }
  }

  /** Records for ids that are not pending change nothing but the reader:
      no event, no map entry. */
  lemma {:induction false} UnknownIdsIgnored(c: Conn, codec: Codec, recs: seq<Record>)
    requires Valid(c)
    requires forall i :: 0 <= i < |recs| ==> recs[i].id !in c.requests
    ensures DeliverAll(c, codec, recs) == c
  {
    if recs != [] {
      UnknownIdsIgnored(c, codec, recs[1..]);
    }
  }

  /** A 'data' event carrying only records for ids that are not pending,
      on an idle reader, leaves the whole state as it was. */
  lemma UnknownFramesDropped(c: Conn, codec: Codec, recs: seq<Record>)
    requires Valid(c) && !c.destroyed && c.reader == Idle
    requires forall i :: 0 <= i < |recs| ==>
      Encodable(recs[i]) && |recs[i].payload| >= 4 && recs[i].id !in c.requests
    ensures Receive(c, codec, EncodeAll(recs)) == c
  {
    var a := Append(c, EncodeAll(recs));
    assert a.reader == Reader(EncodeAll(recs), 0);
    DrainEncoded(recs);
    PumpDeliversInOrder(a, codec);
    UnknownIdsIgnored(a.(reader := Idle), codec, recs);
  }

  /** Records written back to back and received on an idle reader are
      delivered one after the other and leave the reader idle. */
  lemma ReceiveEncoded(c: Conn, codec: Codec, recs: seq<Record>)
    requires Valid(c) && !c.destroyed && c.reader == Idle
    requires forall i :: 0 <= i < |recs| ==> Encodable(recs[i]) && |recs[i].payload| >= 4
    ensures Receive(c, codec, EncodeAll(recs)) == DeliverAll(c, codec, recs)
  {
    var a := Append(c, EncodeAll(recs));
    assert a.reader == Reader(EncodeAll(recs), 0);
    assert a.(reader := Idle) == c;
    DrainEncoded(recs);
    PumpDeliversInOrder(a, codec);
  }

  /** The case of two records. */
  lemma ReceiveTwo(c: Conn, codec: Codec, r1: Record, r2: Record)
    requires Valid(c) && !c.destroyed && c.reader == Idle
    requires Encodable(r1) && |r1.payload| >= 4
    requires Encodable(r2) && |r2.payload| >= 4
    ensures Receive(c, codec, Encode(r1) + Encode(r2)) == Deliver(Deliver(c, codec, r1), codec, r2)
  {
    var recs := [r1, r2];
    assert EncodeAll(recs) == Encode(r1) + Encode(r2) by {
      assert EncodeAll(recs[1..]) == Encode(r2) + EncodeAll([]);
    }
    ReceiveEncoded(c, codec, recs);
    var c1 := Deliver(c, codec, r1);
    assert DeliverAll(c, codec, recs) == DeliverAll(c1, codec, [r2]) by {
      assert recs[1..] == [r2];
    }
    assert DeliverAll(c1, codec, [r2]) == DeliverAll(Deliver(c1, codec, r2), codec, []) by {
      assert [r2][1..] == [];
    }
  }

  /** A plain (non-observe) request answered twice: the first record yields
      exactly one outcome on its handle and ends the request; the second,
      with the same id, is dropped (lib/Proxy.js:279-288, 304-322). */
  lemma ExactlyOnceResponse(c: Conn, codec: Codec, id: nat, p: seq<byte>, q: seq<byte>)
    requires Valid(c) && !c.destroyed && c.reader == Idle
    requires id in c.requests
    requires !c.handles[c.requests[id]].msg.observe && c.handles[c.requests[id]].cancelOf.None?
    requires Encodable(Record(id, p)) && |p| >= 4
    requires Encodable(Record(id, q)) && |q| >= 4
    ensures var r := Receive(c, codec, Encode(Record(id, p)) + Encode(Record(id, q)));
      && r.events == c.events + [ResponseEvent(codec, c.requests[id], p)]
      && r.requests == c.requests - {id}
      && r.observers == c.observers
      && r.reader == Idle
  {
    ReceiveTwo(c, codec, Record(id, p), Record(id, q));
    var c1 := Deliver(c, codec, Record(id, p));
    assert id !in c1.requests;
  }

  /** An observe request stays pending: every record for its id yields one
      more outcome on the same handle (lib/Proxy.js:308-311). */
  lemma ObserveEveryFrame(c: Conn, codec: Codec, id: nat, p: seq<byte>, q: seq<byte>)
    requires Valid(c) && !c.destroyed && c.reader == Idle
    requires id in c.requests
    requires c.handles[c.requests[id]].msg.observe && c.handles[c.requests[id]].cancelOf.None?
    requires Encodable(Record(id, p)) && |p| >= 4
    requires Encodable(Record(id, q)) && |q| >= 4
    ensures var r := Receive(c, codec, Encode(Record(id, p)) + Encode(Record(id, q)));
      && r.events == c.events + [ResponseEvent(codec, c.requests[id], p), ResponseEvent(codec, c.requests[id], q)]
      && r.requests == c.requests
      && r.observers == c.observers
  {
    ReceiveTwo(c, codec, Record(id, p), Record(id, q));
    var c1 := Deliver(c, codec, Record(id, p));
    assert c1.requests == c.requests && c1.handles == c.handles;
  }

  /** A request becomes pending only when its write completes: `request`
      leaves both maps alone, and the completion callback registers the id;
      an internal request never reaches `manageObserver`
      (lib/Proxy.js:97-116). */
  lemma RegisteredOnCompletion(c: Conn, codec: Codec, m: Message, internal: bool)
    requires Valid(c) && !c.destroyed && c.writes == []
    ensures var (c1, h) := Request(c, codec, m, internal, false);
      var r := WriteComplete(c1);
      var id := NextPacketId(c.packetId);
      && c1.requests == c.requests && c1.observers == c.observers
      && (internal || m.code != Get || m.observe ==> id in r.requests && r.requests[id] == h)
      && (internal || m.code != Get ==> r.observers == c.observers)
      && r.writes == []
  {
    var (c1, h) := Request(c, codec, m, internal, false);
    assert c1.writes == [Write(NextPacketId(c.packetId), h, internal)];
    assert c1.handles[h] == NewHandle(m, None);
  }

  /** Subscribing twice to one URI tracks only the second id; the first
      request stays pending and nothing cancels it (lib/Proxy.js:166). */
  lemma ResubscribeTracksLatest(c: Conn, codec: Codec, m1: Message, m2: Message)
    requires Valid(c) && !c.destroyed && c.writes == []
    requires m1.code == Get && m1.observe && m2.code == Get && m2.observe && m1.uri == m2.uri
    ensures var (a, h1) := Request(c, codec, m1, false, false);
      var b := WriteComplete(a);
      var (d, h2) := Request(b, codec, m2, false, false);
      var e := WriteComplete(d);
      && a.packetId != d.packetId
      && e.observers == c.observers[m1.uri := d.packetId]
      && a.packetId in e.requests && e.requests[a.packetId] == h1
      && d.packetId in e.requests && e.requests[d.packetId] == h2
      && e.events == c.events
  {
    var (a, h1) := Request(c, codec, m1, false, false);
    assert a.writes == [Write(a.packetId, h1, false)];
    assert a.handles[h1] == NewHandle(m1, None);
    var b := WriteComplete(a);
    assert b.writes == [];
    var (d, h2) := Request(b, codec, m2, false, false);
    assert d.writes == [Write(d.packetId, h2, false)];
    assert d.handles[h2] == NewHandle(m2, None);
    assert d.packetId == a.packetId % MaxId + 1;
  }

  /** A GET without the observe option for a subscribed URI ends that
      subscription: the mapping and the tracked request are removed, and
      the handle registered under the tracked id gets exactly one
      'cancelled' (lib/Proxy.js:153, 213-230). Registration comes first, so
      when the tracked id is the one just handed out again, it is the new
      GET itself that stops being pending and is cancelled. */
  lemma PlainGetUnsubscribes(c: Conn, codec: Codec, m: Message)
    requires Valid(c) && !c.destroyed && c.writes == []
    requires m.code == Get && !m.observe && m.uri in c.observers
    ensures var (c1, h) := Request(c, codec, m, false, false);
      var r := WriteComplete(c1);
      var oid := c.observers[m.uri];
      var nid := NextPacketId(c.packetId);
      && r.observers == c.observers - {m.uri}
      && oid !in r.requests
      && r.requests == c.requests[nid := h] - {oid}
      && (oid != nid ==>
            r.events == c.events + (if oid in c.requests then [Cancelled(c.requests[oid])] else []))
      && (oid == nid ==> r.events == c.events + [Cancelled(h)] && nid !in r.requests)
  {
    var (c1, h) := Request(c, codec, m, false, false);
    assert c1.writes == [Write(c1.packetId, h, false)];
    assert c1.handles[h] == NewHandle(m, None);
  }

  /** Packet ids are not unique among pending requests: an observe request,
      or a request never answered, stays pending while the counter wraps,
      and the completion of a later request that takes the same id
      overwrites its entry (lib/Proxy.js:103), so the older handle gets no
      further outcome through that id. */
  lemma ReusedIdOverwritesPending(c: Conn, codec: Codec, m: Message, internal: bool)
    requires Valid(c) && !c.destroyed && c.writes == []
    requires NextPacketId(c.packetId) in c.requests
    requires internal || m.code != Get || m.observe
    ensures var (c1, h) := Request(c, codec, m, internal, false);
      var r := WriteComplete(c1);
      var id := NextPacketId(c.packetId);
      && id in r.requests && r.requests[id] == h && h != c.requests[id]
  {
    var (c1, h) := Request(c, codec, m, internal, false);
    assert c1.writes == [Write(c1.packetId, h, internal)];
    assert c1.handles[h] == NewHandle(m, None);
  }

  /** Cancelling twice before an answer arrives is the same as cancelling
      once: the second call finds `cancellingObserver` set and sends nothing
      (lib/Proxy.js:174-179). */
  lemma CancelIdempotent(c: Conn, codec: Codec, h: nat, fails1: bool, fails2: bool)
    requires Valid(c) && h < |c.handles|
    ensures var once := Cancel(c, codec, h, fails1);
      Cancel(once, codec, h, fails2) == once
  {
    var hd := c.handles[h];
    if hd.routine.Some? && !hd.cancelledObserver && !hd.cancellingObserver {
      var once := Cancel(c, codec, h, fails1);
      var c1 := c.(handles := c.handles[h := hd.(cancellingObserver := true)]);
      var link := CancelLink(h, hd.routine.value.requestId, hd.routine.value.uri);
      assert once == Transmit(c1, codec, NewHandle(CancelMessage(hd.routine.value.uri, hd.msg), Some(link)), true, fails1).0;
      assert once.handles[h] == c1.handles[h];
    }
  }

  /** Every observe GET can be cancelled: once its write completes it
      carries the cancel routine of lib/Proxy.js:170, the first `cancel()`
      sends exactly one synthetic cancel request, and a second sends
      nothing more (lib/Proxy.js:170-206). */
  lemma SubscriptionCancelsOnce(c: Conn, codec: Codec, m: Message, fails: bool)
    requires Valid(c) && !c.destroyed && c.writes == []
    requires m.code == Get && m.observe
    ensures var (c1, h) := Request(c, codec, m, false, false);
      var w := WriteComplete(c1);
      var once := Cancel(w, codec, h, false);
      && h < |w.handles| && w.handles[h].routine == Some(CancelRoutine(c1.packetId, m.uri))
      && |once.sent| == |w.sent| + 1
      && once.handles[h].cancellingObserver
      && Cancel(once, codec, h, fails) == once
  {
    var (c1, h) := Request(c, codec, m, false, false);
    assert c1.writes == [Write(c1.packetId, h, false)];
    assert c1.handles[h] == NewHandle(m, None);
    var w := WriteComplete(c1);
    CancelIdempotent(w, codec, h, false, fails);
  }

  /** What `cancel()` followed by the completion of its write leaves
      behind: the cancel request is pending under the next id, linked to the
      observe handle, and the observe handle is marked as cancelling. */
  lemma CancelRegistered(c: Conn, codec: Codec, h: nat)
    requires Valid(c) && !c.destroyed && c.writes == []
    requires h < |c.handles| && c.handles[h].routine.Some?
    requires !c.handles[h].cancelledObserver && !c.handles[h].cancellingObserver
    ensures var rt := c.handles[h].routine.value;
      var sent := Cancel(c, codec, h, false);
      var w := WriteComplete(sent);
      var cid := NextPacketId(c.packetId);
      var ch := |c.handles|;
      && sent.packetId == cid && |sent.sent| == |c.sent| + 1
      && w.requests == c.requests[cid := ch]
      && |w.handles| == ch + 1
      && w.handles[ch] == NewHandle(CancelMessage(rt.uri, c.handles[h].msg), Some(CancelLink(h, rt.requestId, rt.uri)))
      && w.handles[h] == c.handles[h].(cancellingObserver := true)
      && w.observers == c.observers && w.events == c.events
      && w.reader == c.reader && !w.destroyed
  {
    var sent := Cancel(c, codec, h, false);
    assert sent.writes == [Write(sent.packetId, |c.handles|, true)];
  }

  /** A record answering a pending cancel request with a parsable message
      ends the cancel request and runs its 'response' listener. */
  lemma CancelAnswerDelivered(w: Conn, codec: Codec, rec: Record, resp: Message)
    requires Valid(w) && rec.id in w.requests
    requires var hd := w.handles[w.requests[rec.id]]; !hd.msg.observe && hd.cancelOf.Some?
    requires codec.parse(rec.payload) == Some(resp)
    ensures var ch := w.requests[rec.id];
      var w1 := w.(requests := w.requests - {rec.id}, events := w.events + [Response(ch, resp)]);
      Deliver(w, codec, rec) == CancelAnswered(w1, w.handles[ch].cancelOf.value, resp)
  {
  }

  /** A cancellation from start to end: `cancel()` sends the synthetic
      request, its write completes, and a record answering it with a code
      below 4.00 ends the subscription. The cancel request gets its
      'response', the observe handle exactly one 'cancelled', the observed
      request stops being pending, and the URI mapping goes away if it still
      names this request (lib/Proxy.js:170-206). */
  lemma CancelRoundTrip(c: Conn, codec: Codec, h: nat, payload: seq<byte>, resp: Message)
    requires Valid(c) && !c.destroyed && c.writes == [] && c.reader == Idle
    requires h < |c.handles| && c.handles[h].routine.Some?
    requires !c.handles[h].cancelledObserver && !c.handles[h].cancellingObserver
    requires |payload| >= 4 && Encodable(Record(NextPacketId(c.packetId), payload))
    requires codec.parse(payload) == Some(resp) && resp.isResponse && resp.code < BadRequest
    ensures var rt := c.handles[h].routine.value;
      var sent := Cancel(c, codec, h, false);
      var r := Receive(WriteComplete(sent), codec, Encode(Record(sent.packetId, payload)));
      && |sent.sent| == |c.sent| + 1
      && r.events == c.events + [Response(|c.handles|, resp), Cancelled(h)]
      && |r.handles| == |c.handles| + 1
      && r.handles[h].cancelledObserver && !r.handles[h].cancellingObserver
      && rt.requestId !in r.requests
      && (rt.uri in c.observers && c.observers[rt.uri] == rt.requestId ==> rt.uri !in r.observers)
      && (!(rt.uri in c.observers && c.observers[rt.uri] == rt.requestId) ==> r.observers == c.observers)
  {
    var sent := Cancel(c, codec, h, false);
    CancelRegistered(c, codec, h);
    var w := WriteComplete(sent);
    var rec := Record(sent.packetId, payload);
    CancelAnswerReceived(w, codec, rec, resp);
  }

  /** Receiving the single frame that answers the pending cancel request of
      `w` runs the answer through `CancelAnswered`. */
  lemma CancelAnswerReceived(w: Conn, codec: Codec, rec: Record, resp: Message)
    requires Valid(w) && !w.destroyed && w.reader == Idle
    requires rec.id in w.requests
    requires var hd := w.handles[w.requests[rec.id]]; !hd.msg.observe && hd.cancelOf.Some?
    requires |rec.payload| >= 4 && Encodable(rec)
    requires codec.parse(rec.payload) == Some(resp)
    ensures var link := w.handles[w.requests[rec.id]].cancelOf.value;
      Receive(w, codec, Encode(rec)) == CancelAnswered(w.(requests := w.requests - {rec.id},
        events := w.events + [Response(w.requests[rec.id], resp)]), link, resp)
  {
    assert EncodeAll([rec]) == Encode(rec) + [] == Encode(rec);
    ReceiveEncoded(w, codec, [rec]);
    assert DeliverAll(w, codec, [rec]) == Deliver(w, codec, rec) by {
      assert [rec][1..] == [];
    }
    CancelAnswerDelivered(w, codec, rec, resp);
  }

  /** An answer with an error code only clears `cancellingObserver`, so the
      subscription stays active and `cancel()` sends a new synthetic request
      (lib/Proxy.js:187-190). */
  lemma FailedCancelAllowsRetry(c: Conn, codec: Codec, link: CancelLink, resp: Message)
    requires Valid(c) && !c.destroyed && link.observer < |c.handles|
    requires c.handles[link.observer].routine.Some? && !c.handles[link.observer].cancelledObserver
    requires !(resp.isResponse && resp.code < BadRequest)
    ensures var a := CancelAnswered(c, link, resp);
      var r := Cancel(a, codec, link.observer, false);
      && a.requests == c.requests && a.observers == c.observers && a.events == c.events
      && |r.sent| == |c.sent| + 1 && r.handles[link.observer].cancellingObserver
  {
  }

  /** An answer to a cancel request that does not parse emits 'error' on the
      cancel request and leaves `cancellingObserver` set, so every later
      `cancel()` on the observe handle does nothing (lib/Proxy.js:185-203,
      313-322). */
  lemma UnparsableCancelAnswerBlocksRetry(c: Conn, codec: Codec, id: nat, payload: seq<byte>, fails: bool)
    requires Valid(c) && id in c.requests
    requires c.handles[c.requests[id]].cancelOf.Some?
    requires c.handles[c.handles[c.requests[id]].cancelOf.value.observer].cancellingObserver
    requires codec.parse(payload).None?
    ensures var o := c.handles[c.requests[id]].cancelOf.value.observer;
      var r := HandleResponseFrame(c, codec, id, payload);
      && r.events == c.events + [Error(c.requests[id])]
      && r.handles[o].cancellingObserver
      && Cancel(r, codec, o, fails) == r
  {
  }
}
