/** Byte layout of one record on the proxy stream (lib/Proxy.js:90-94):
    a 4-byte big-endian length equal to 2 + |payload|, a 2-byte big-endian
    packet id, then the payload. */
module Wire {
  /** Largest packet id; ids cycle through 1..MaxId. */
  const MaxId: nat := 0xFFFF
  /** Largest payload whose length field 2 + N still fits in 32 bits. */
  const MaxPayload: nat := 0xFFFF_FFFF - 2

  /** One octet of the stream. */
  newtype byte = x: int | 0 <= x < 0x100

  /** A payload the length field can describe. */
  type Payload = s: seq<byte> | |s| <= MaxPayload

  /** One record: a packet id and the serialized message it carries. */
  datatype Record = Record(id: nat, payload: seq<byte>)

  ghost predicate Encodable(rec: Record) {
    rec.id <= MaxId && |rec.payload| <= MaxPayload
  }

  /** `readUInt16BE` */
  function U16(b: seq<byte>): (n: nat)
    requires |b| == 2
    ensures n <= MaxId
  {
    b[0] as nat * 0x100 + b[1] as nat
  }

  /** `writeUInt16BE`, the inverse of U16. */
  function U16Bytes(n: nat): (b: seq<byte>)
    requires n <= MaxId
    ensures |b| == 2 && U16(b) == n
  {
    [(n / 0x100) as byte, (n % 0x100) as byte]
  }

  /** `readUInt32BE` */
  function U32(b: seq<byte>): (n: nat)
    requires |b| == 4
    ensures n <= 0xFFFF_FFFF
  {
    ((b[0] as nat * 0x100 + b[1] as nat) * 0x100 + b[2] as nat) * 0x100 + b[3] as nat
  }

  /** `writeUInt32BE`, the inverse of U32. */
  function U32Bytes(n: nat): (b: seq<byte>)
    requires n <= 0xFFFF_FFFF
    ensures |b| == 4 && U32(b) == n
  {
    var hi := n / 0x1_0000;
    var lo := n % 0x1_0000;
    [(hi / 0x100) as byte, (hi % 0x100) as byte, (lo / 0x100) as byte, (lo % 0x100) as byte]
  }

  lemma U16BytesOfU16(b: seq<byte>)
    requires |b| == 2
    ensures U16Bytes(U16(b)) == b
  {
    var n := U16(b);
    assert n / 0x100 == b[0] as nat;
    assert n % 0x100 == b[1] as nat;
  }

  /** Shifting n bytes and then m more is shifting n + m. */
  lemma Shifted(s: seq<byte>, n: nat, m: nat)
    requires n + m <= |s|
    ensures s[n..][..m] == s[n..n + m] && s[n..][m..] == s[n + m..]
  {
  }

  /** The packet that `request` writes (lib/Proxy.js:90-94). */
  function Encode(rec: Record): (packet: seq<byte>)
    requires Encodable(rec)
    ensures |packet| == 6 + |rec.payload|
    ensures U32(packet[..4]) == 2 + |rec.payload|
    ensures U16(packet[4..6]) == rec.id
    ensures packet[6..] == rec.payload
  {
    var packet := U32Bytes(2 + |rec.payload|) + U16Bytes(rec.id) + rec.payload;
    assert packet[..4] == U32Bytes(2 + |rec.payload|);
    assert packet[4..6] == U16Bytes(rec.id);
    packet
  }

  /** Several packets written back to back on the stream. */
  function EncodeAll(recs: seq<Record>): (stream: seq<byte>)
    requires forall i :: 0 <= i < |recs| ==> Encodable(recs[i])
  {
    if recs == [] then [] else Encode(recs[0]) + EncodeAll(recs[1..])
  }
}
