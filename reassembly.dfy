/** The incremental frame reader of `handleReaderData` (lib/Proxy.js:257-297),
    on values: the byte queue of the `BufferQueueReader` and the pending
    `currentFrameLength`. */
module Reassembly {
  import opened Wire

  /** The reader's state: queued bytes and the declared length of the frame
      being waited for (0 when no length prefix has been read). */
  datatype Reader = Reader(buf: seq<byte>, frameLength: nat)

  /** What one step of the reader does with the queue. */
  datatype Outcome =
    | Discarded          // declared length below 6: the whole queue is dropped
    | Waiting            // a valid length is pending but its bytes have not all arrived
    | Complete(rec: Record)

  datatype Stepped = Stepped(outcome: Outcome, next: Reader)

  const Idle := Reader([], 0)

  /** The optional prefix read of lib/Proxy.js:264-267: a length is taken from
      the queue only when none is pending and at least 4 bytes are there. */
  function WithLength(r: Reader): (p: Reader)
    ensures |p.buf| <= |r.buf|
  {
    if r.frameLength == 0 && |r.buf| >= 4 then Reader(r.buf[4..], U32(r.buf[..4])) else r
  }

  /** One call of `handleReaderData` on a live reader. */
  function ReadStep(r: Reader): (s: Stepped)
    ensures |s.next.buf| <= |r.buf|
    ensures s.outcome.Complete? ==> |s.next.buf| + 6 <= |r.buf|
  {
    var p := WithLength(r);
    if p.frameLength < 6 then
      Stepped(Discarded, Idle)
    else if |p.buf| >= p.frameLength then
      Stepped(Complete(Record(U16(p.buf[..2]), p.buf[2..p.frameLength])), Reader(p.buf[p.frameLength..], 0))
    else
      Stepped(Waiting, p)
  }

  /** What one step does with the queue, after the optional prefix read: a
      declared length below 6 empties it; a valid length with too few bytes
      waits; otherwise exactly the declared number of bytes is consumed, the
      2-byte id and then the payload, and no length stays pending. */
  lemma ReadStepConsumes(r: Reader)
    ensures var s, p := ReadStep(r), WithLength(r);
      && (s.outcome.Discarded? <==> p.frameLength < 6)
      && (s.outcome.Discarded? ==> s.next == Idle)
      && (s.outcome.Waiting? <==> 6 <= p.frameLength && |p.buf| < p.frameLength)
      && (s.outcome.Waiting? ==> s.next == p)
      && (s.outcome.Complete? ==>
            && s.outcome.rec.id <= MaxId
            && p.buf == U16Bytes(s.outcome.rec.id) + s.outcome.rec.payload + s.next.buf
            && 2 + |s.outcome.rec.payload| == p.frameLength
            && s.next.frameLength == 0)
  {
    var p := WithLength(r);
    if p.frameLength >= 6 && |p.buf| >= p.frameLength {
      U16BytesOfU16(p.buf[..2]);
      assert p.buf == p.buf[..2] + p.buf[2..p.frameLength] + p.buf[p.frameLength..];
    }
  }

  /** The case of a complete record, as lib/Proxy.js:275-290 consumes it:
      the id, then declared length - 2 payload bytes. */
  lemma ReadStepComplete(r: Reader)
    requires var p := WithLength(r); p.frameLength >= 6 && |p.buf| >= p.frameLength
    ensures var p := WithLength(r);
      ReadStep(r) == Stepped(Complete(Record(U16(p.buf[..2]), p.buf[2..p.frameLength])),
                             Reader(p.buf[p.frameLength..], 0))
  {
  }

  /** Whether the step schedules a further step (lib/Proxy.js:292-295). */
  predicate Scheduled(s: Stepped) {
    s.outcome.Complete? && |s.next.buf| > 0
  }

  /** The records handed on by one call of `handleReaderData` and the deferred
      steps it schedules, in order, together with the reader left behind. */
  function Drain(r: Reader): (d: (seq<Record>, Reader))
    decreases |r.buf|
  {
    var s := ReadStep(r);
    if !s.outcome.Complete? then ([], s.next)
    else if !Scheduled(s) then ([s.outcome.rec], s.next)
    else
      var rest := Drain(s.next);
      ([s.outcome.rec] + rest.0, rest.1)
  }

  /** Reading an encoded record from a reader with no pending length hands on
      exactly that record if and only if its payload has at least 4 bytes;
      otherwise the whole queue, including what follows, is discarded. */
  lemma ReadEncoded(rec: Record, rest: seq<byte>)
    requires Encodable(rec)
    ensures ReadStep(Reader(Encode(rec) + rest, 0)) ==
      if |rec.payload| >= 4 then Stepped(Complete(rec), Reader(rest, 0))
      else Stepped(Discarded, Idle)
  {
    var packet := Encode(rec);
    var buf := packet + rest;
    assert buf[..4] == packet[..4];
    var p := WithLength(Reader(buf, 0));
    assert p == Reader(packet[4..] + rest, 2 + |rec.payload|);
    if |rec.payload| >= 4 {
      assert p.buf[..2] == packet[4..6];
      assert p.buf[2..p.frameLength] == rec.payload;
      assert p.buf[p.frameLength..] == rest;
    }
  }

  /** Draining a queue that starts with a complete encoded record hands on
      that record first, then drains the rest with no pending length. */
  lemma DrainAfterRecord(rec: Record, tail: seq<byte>)
    requires Encodable(rec) && |rec.payload| >= 4
    ensures Drain(Reader(Encode(rec) + tail, 0)) ==
      if tail == [] then ([rec], Idle)
      else ([rec] + Drain(Reader(tail, 0)).0, Drain(Reader(tail, 0)).1)
  {
    ReadEncoded(rec, tail);
  }

  lemma DrainIdle()
    ensures Drain(Idle) == ([], Idle)
  {
    assert ReadStep(Idle) == Stepped(Discarded, Idle);
  }

  /** Records written back to back and fed to an idle reader come out in the
      order they were written, each exactly once, and leave the reader idle. */
  lemma {:induction false} DrainEncoded(recs: seq<Record>)
    requires forall i :: 0 <= i < |recs| ==> Encodable(recs[i]) && |recs[i].payload| >= 4
    ensures Drain(Reader(EncodeAll(recs), 0)) == (recs, Idle)
  {
    if recs == [] {
      DrainIdle();
    } else {
      var tail := EncodeAll(recs[1..]);
      assert EncodeAll(recs) == Encode(recs[0]) + tail;
      DrainAfterRecord(recs[0], tail);
      DrainEncoded(recs[1..]);
      assert [recs[0]] + recs[1..] == recs;
      if tail == [] {
        DrainIdle();
        assert recs[1..] == [];
        assert recs == [recs[0]];
      }
    }
  }

  /** Fewer than 4 queued bytes with no pending length are dropped, even
      though they may be the start of a valid length prefix
      (lib/Proxy.js:264-274). */
  lemma ShortPrefixDiscarded(buf: seq<byte>)
    requires |buf| < 4
    ensures Drain(Reader(buf, 0)) == ([], Idle)
  {
  }

  /** The deferred step after a complete record drops 1 to 3 trailing bytes,
      so a record whose first bytes arrive with the previous one is lost
      (lib/Proxy.js:290-295 together with lib/Proxy.js:264-274). */
  lemma TrailingBytesDiscarded(rec: Record, tail: seq<byte>)
    requires Encodable(rec) && |rec.payload| >= 4
    requires 1 <= |tail| < 4
    ensures Drain(Reader(Encode(rec) + tail, 0)) == ([rec], Idle)
  {
    DrainAfterRecord(rec, tail);
    ShortPrefixDiscarded(tail);
    assert [rec] + [] == [rec];
  }

  /** A declared length below 6 discards everything queued; a well-formed
      record that arrives afterwards is read from a clean state. */
  lemma InvalidLengthResets(n: nat, junk: seq<byte>, rec: Record)
    requires n < 6
    requires Encodable(rec) && |rec.payload| >= 4
    ensures Drain(Reader(U32Bytes(n) + junk, 0)) == ([], Idle)
    ensures Drain(Reader(Drain(Reader(U32Bytes(n) + junk, 0)).1.buf + Encode(rec), 0)) == ([rec], Idle)
  {
    assert (U32Bytes(n) + junk)[..4] == U32Bytes(n);
    assert Drain(Reader(U32Bytes(n) + junk, 0)).1.buf == [];
    ReadEncoded(rec, []);
    assert [] + Encode(rec) == Encode(rec) + [];
  }

  /** A record whose length prefix arrives whole but whose body arrives
      later is held back by the first step and handed on by the step that
      follows the rest of its bytes. */
  lemma SplitAfterPrefix(rec: Record, k: nat)
    requires Encodable(rec) && |rec.payload| >= 4
    requires 4 <= k < |Encode(rec)|
    ensures var first := Drain(Reader(Encode(rec)[..k], 0));
      && first.0 == []
      && Drain(Reader(first.1.buf + Encode(rec)[k..], first.1.frameLength)) == ([rec], Idle)
  {
    var packet := Encode(rec);
    var chunk := packet[..k];
    assert chunk[..4] == packet[..4];
    var p := WithLength(Reader(chunk, 0));
    assert p == Reader(packet[4..k], 2 + |rec.payload|);
    var second := Reader(packet[4..k] + packet[k..], 2 + |rec.payload|);
    assert second.buf == packet[4..];
    assert second.buf[..2] == packet[4..6];
    assert second.buf[2..second.frameLength] == rec.payload;
    assert second.buf[second.frameLength..] == [];
  }
}
