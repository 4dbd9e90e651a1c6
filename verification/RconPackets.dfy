/** internal/rcon/client.go: framing of Valve's Source RCON Protocol ("Basic Packet Structure"). */
module RconPackets {
  import opened Basics

  type byte = b: int | 0 <= b < 256
  type int32 = x: int | -0x8000_0000 <= x < 0x8000_0000

  const MIN_SIZE := 10
  const MAX_SIZE := 1024 * 1024

  datatype Packet = Packet(id: int32, kind: int32, body: seq<byte>)

  datatype ReadError = ShortRead | InvalidSize

  /** Go's int32 conversion: keep the low 32 bits, two's complement. */
  function Wrap32(x: int): (r: int32)
    ensures -0x8000_0000 <= x < 0x8000_0000 ==> r == x
  {
    (x + 0x8000_0000) % 0x1_0000_0000 - 0x8000_0000
  }

  /** binary.LittleEndian for a signed 32-bit integer. */
  function Encode32(x: int32): (r: seq<byte>)
    ensures |r| == 4
  {
    var u: int := if x < 0 then x + 0x1_0000_0000 else x;
    [u % 256, u / 0x100 % 256, u / 0x1_0000 % 256, u / 0x100_0000]
  }

  function Decode32(b: seq<byte>): int32
    requires |b| == 4
  {
    Wrap32(b[0] as int + 0x100 * (b[1] as int) + 0x1_0000 * (b[2] as int) + 0x100_0000 * (b[3] as int))
  }

  lemma Decode32Encode32(x: int32)
    ensures Decode32(Encode32(x)) == x
  {
    var u: int := if x < 0 then x + 0x1_0000_0000 else x;
    var q1 := u / 0x100;
    var q2 := q1 / 0x100;
    assert u / 0x1_0000 == q2;
    assert u / 0x100_0000 == q2 / 0x100;
    assert u == 0x100 * q1 + u % 256 && q1 == 0x100 * q2 + q1 % 256 && q2 == 0x100 * (q2 / 0x100) + q2 % 256;
  }

  /** The bytes a packet becomes. The length field is truncated to 32 bits, as in the source. */
  function Encode(p: Packet): seq<byte> {
    Encode32(Wrap32(|p.body| + 10)) + Payload(p)
  }

  function Payload(p: Packet): (r: seq<byte>)
    ensures |r| == |p.body| + 10
  {
    Encode32(p.id) + Encode32(p.kind) + p.body + [0, 0]
  }

  /** bytes.TrimRight(b, "\x00") */
  function TrimNuls(b: seq<byte>): (r: seq<byte>)
    ensures r <= b
    ensures r == [] || r[|r| - 1] != 0
    ensures forall i :: |r| <= i < |b| ==> b[i] == 0
  {
    if b != [] && b[|b| - 1] == 0 then TrimNuls(b[..|b| - 1]) else b
  }

  /** What the reader makes of a stream: a packet and the rest, or an error. */
  function Decode(stream: seq<byte>): Result<(Packet, seq<byte>), ReadError> {
    if |stream| < 4 then Err(ShortRead)
    else
      var size := Decode32(stream[..4]);
      if size < MIN_SIZE || size > MAX_SIZE then Err(InvalidSize)
      else if |stream| < 4 + size then Err(ShortRead)
      else
        var payload := stream[4..4 + size];
        Ok((Packet(Decode32(payload[0..4]), Decode32(payload[4..8]), TrimNuls(payload[8..])), stream[4 + size..]))
  }

  /** writePacket fills a buffer field by field and then sends length and buffer. */
  method WritePacket(id: int32, packetType: int32, body: seq<byte>) returns (wire: seq<byte>)
    ensures wire == Encode(Packet(id, packetType, body))
  {
    var payload: seq<byte> := [];
    payload := payload + Encode32(id);
    payload := payload + Encode32(packetType);
    payload := payload + body;
    payload := payload + [0];
    payload := payload + [0];
    var size := Wrap32(|payload|);
    assert payload == Payload(Packet(id, packetType, body));
    wire := Encode32(size);
    wire := wire + payload;
  }

  /** readPacket pulls bytes off the connection into arrays of the announced size. */
  class Connection {
    var incoming: seq<byte>

    constructor (bytes: seq<byte>) ensures incoming == bytes { incoming := bytes; }

    /** io.ReadFull: fills the whole array or fails, having consumed what there was. */
    method ReadFull(buffer: array<byte>) returns (ok: bool)
      modifies this, buffer
      ensures ok == (|old(incoming)| >= buffer.Length)
      ensures ok ==> buffer[..] == old(incoming)[..buffer.Length] && incoming == old(incoming)[buffer.Length..]
      ensures !ok ==> incoming == []
    {
      var have := incoming;
      if |have| < buffer.Length {
        incoming := [];
        return false;
      }
      forall i | 0 <= i < buffer.Length { buffer[i] := have[i]; }
      incoming := have[buffer.Length..];
      return true;
    }

    method ReadPacket() returns (r: Result<Packet, ReadError>)
      modifies this
      ensures var d := Decode(old(incoming));
              match d
              case Ok((p, rest)) => r == Ok(p) && incoming == rest
              case Err(e) => r == Err(e)
    {
      var header := new byte[4];
      var ok := ReadFull(header);
      if !ok {
        return Err(ShortRead);
      }
      var size := Decode32(header[..]);
      if size < MIN_SIZE || size > MAX_SIZE {
        return Err(InvalidSize);
      }
      var payload := new byte[size];
      ghost var rest := incoming;
      ok := ReadFull(payload);
      if !ok {
        return Err(ShortRead);
      }
      assert payload[..] == old(incoming)[4..4 + size];
      r := Ok(Packet(Decode32(payload[0..4]), Decode32(payload[4..8]), TrimNuls(payload[8..])));
    }
  }

  /** A packet with the trailing NULs of its body removed. */
  function Trimmed(p: Packet): Packet { p.(body := TrimNuls(p.body)) }

  lemma {:induction false} TrimNulsAppend(b: seq<byte>, n: nat)
    ensures TrimNuls(b + seq(n, i => 0)) == TrimNuls(b)
  {
    var padded := b + seq(n, i => 0);
    if n == 0 {
      assert padded == b;
    } else {
      assert padded[..|padded| - 1] == b + seq(n - 1, i => 0);
      TrimNulsAppend(b, n - 1);
    }
  }

  /** Whatever follows it, one written packet is read back, and the reader stops exactly at its end. */
  lemma DecodeEncode(p: Packet, rest: seq<byte>)
    requires |p.body| <= MAX_SIZE - 10
    ensures Decode(Encode(p) + rest) == Ok((Trimmed(p), rest))
  {
    var stream := Encode(p) + rest;
    var size := |p.body| + 10;
    Decode32Encode32(size);
    Decode32Encode32(p.id);
    Decode32Encode32(p.kind);
    Sections(Encode32(size), Payload(p), rest);
    PayloadSections(p);
    TrimNulsAppend(p.body, 2);
  }

  lemma Sections<T>(a: seq<T>, b: seq<T>, c: seq<T>)
    ensures var s := a + b + c;
            s[..|a|] == a && s[|a|..|a| + |b|] == b && s[|a| + |b|..] == c
  {
  }

  lemma PayloadSections(p: Packet)
    ensures var payload := Payload(p);
            payload[0..4] == Encode32(p.id) && payload[4..8] == Encode32(p.kind) && payload[8..] == p.body + seq(2, i => 0)
  {
  }

  /** The body survives unchanged exactly when it does not end in NUL. */
  lemma BodyUnchangedIff(p: Packet)
    ensures Trimmed(p) == p <==> (p.body == [] || p.body[|p.body| - 1] != 0)
  {
  }

  /** One packet written for another reader is recovered, with framing kept, exactly when its body
      fits; a longer one is refused or, once the length field wraps, cut in the wrong place. */
  lemma FramingKeptIff(p: Packet, rest: seq<byte>)
    ensures Decode(Encode(p) + rest) == Ok((Trimmed(p), rest)) <==> |p.body| <= MAX_SIZE - 10
  {
    if |p.body| <= MAX_SIZE - 10 {
      DecodeEncode(p, rest);
    } else {
      var stream := Encode(p) + rest;
      var size := Wrap32(|p.body| + 10);
      Decode32Encode32(size);
      assert stream[..4] == Encode32(size);
      if MIN_SIZE <= size <= MAX_SIZE {
        assert |stream[4 + size..]| > |rest|;
      }
    }
  }

  /** A body one byte over the limit is refused. */
  lemma OversizeRefused(p: Packet, rest: seq<byte>)
    requires MAX_SIZE - 10 < |p.body| < 0x8000_0000 - 10
    ensures Decode(Encode(p) + rest) == Err(InvalidSize)
  {
    var stream := Encode(p) + rest;
    Decode32Encode32(|p.body| + 10);
    assert stream[..4] == Encode32(|p.body| + 10);
  }

  /** A body that is one NUL comes back empty, and one that is a byte too long does not come back. */
  lemma BodyWitnesses(id: int32, kind: int32, rest: seq<byte>)
    ensures Decode(Encode(Packet(id, kind, [0])) + rest) == Ok((Packet(id, kind, []), rest))
    ensures Decode(Encode(Packet(id, kind, seq(MAX_SIZE - 9, i => 1))) + rest) == Err(InvalidSize)
  {
    var nul := Packet(id, kind, [0]);
    DecodeEncode(nul, rest);
    assert nul.body[..0] == [];
    OversizeRefused(Packet(id, kind, seq(MAX_SIZE - 9, i => 1)), rest);
  }

  /** The unsigned little-endian number in four bytes of a stream. */
  function Number(b: seq<byte>, i: nat): int
    requires i + 4 <= |b|
  {
    b[i] as int + 256 * (b[i + 1] as int) + 65536 * (b[i + 2] as int) + 16777216 * (b[i + 3] as int)
  }

  lemma NumberIs(x: int32)
    ensures Number(Encode32(x), 0) == if x < 0 then x + 4294967296 else x
  {
    var u: int := if x < 0 then x + 4294967296 else x;
    var q1 := u / 256;
    var q2 := q1 / 256;
    assert u / 65536 == q2 && u / 16777216 == q2 / 256;
    assert u == 256 * q1 + u % 256 && q1 == 256 * q2 + q1 % 256 && q2 == 256 * (q2 / 256) + q2 % 256;
  }

  /** The bytes of a packet, one after the other: the length of what follows it, id, type, body, two NULs. */
  lemma BytesOf(p: Packet)
    requires |p.body| + 10 < 2147483648
    ensures var w := Encode(p);
            && |w| == 4 + 4 + 4 + |p.body| + 2
            && Number(w, 0) == |p.body| + 10
            && Number(w, 4) == (if p.id < 0 then p.id + 4294967296 else p.id)
            && Number(w, 8) == (if p.kind < 0 then p.kind + 4294967296 else p.kind)
            && w[12..12 + |p.body|] == p.body
            && w[12 + |p.body|] == 0 && w[13 + |p.body|] == 0
  {
    NumberIs(|p.body| + 10);
    NumberIs(p.id);
    NumberIs(p.kind);
    var w, size := Encode(p), Encode32(|p.body| + 10);
    assert w == size + Payload(p);
    assert forall i :: 0 <= i < 4 ==> w[i] == size[i];
    assert forall i :: 0 <= i < 4 ==> w[4 + i] == Encode32(p.id)[i] && w[8 + i] == Encode32(p.kind)[i];
    assert forall i :: 0 <= i < |p.body| ==> w[12 + i] == p.body[i];
  }

  function Signed(u: int): int { if u >= 2147483648 then u - 4294967296 else u }

  lemma DecodeNumber(b: seq<byte>, i: nat)
    requires i + 4 <= |b|
    ensures Decode32(b[i..i + 4]) == Signed(Number(b, i))
  {
    var c := b[i..i + 4];
    assert c[0] == b[i] && c[1] == b[i + 1] && c[2] == b[i + 2] && c[3] == b[i + 3];
  }

  /** What the reader makes of any bytes: which error when, and which packet else. */
  lemma DecodeIs(stream: seq<byte>)
    ensures var r := Decode(stream);
            if |stream| < 4 then r == Err(ShortRead)
            else
              var size := Signed(Number(stream, 0));
              if size < 10 || size > 1048576 then r == Err(InvalidSize)
              else if |stream| < 4 + size then r == Err(ShortRead)
              else
                && r.Ok? && r.value.1 == stream[4 + size..]
                && r.value.0.id == Signed(Number(stream, 4)) && r.value.0.kind == Signed(Number(stream, 8))
                && r.value.0.body <= stream[12..4 + size]
                && (r.value.0.body == [] || r.value.0.body[|r.value.0.body| - 1] != 0)
                && (forall i :: 12 + |r.value.0.body| <= i < 4 + size ==> stream[i] == 0)
  {
    if |stream| >= 4 {
      DecodeNumber(stream, 0);
      assert stream[..4] == stream[0..4];
      var size := Signed(Number(stream, 0));
      if 10 <= size <= 1048576 && |stream| >= 4 + size {
        DecodePayload(stream, size);
      }
    }
  }

  lemma PayloadSlices(stream: seq<byte>, size: nat)
    requires 10 <= size && |stream| >= 4 + size
    ensures var payload := stream[4..4 + size];
            payload[0..4] == stream[4..8] && payload[4..8] == stream[8..12] && payload[8..] == stream[12..4 + size]
  {
    var payload := stream[4..4 + size];
    assert |payload| == size && forall i :: 0 <= i < size ==> payload[i] == stream[4 + i];
    SameSlice(payload, 0, 4, stream, 4);
    SameSlice(payload, 4, 8, stream, 8);
    SameSlice(payload, 8, size, stream, 12);
    assert payload[8..] == payload[8..size];
  }

  lemma SameSlice<T>(a: seq<T>, i: nat, j: nat, b: seq<T>, k: nat)
    requires i <= j <= |a| && k + (j - i) <= |b|
    requires forall n :: i <= n < j ==> a[n] == b[k + n - i]
    ensures a[i..j] == b[k..k + j - i]
  {
  }

  lemma DecodePayload(stream: seq<byte>, size: nat)
    requires 10 <= size && |stream| >= 4 + size
    ensures var payload := stream[4..4 + size];
            && payload[8..] == stream[12..4 + size]
            && Decode32(payload[0..4]) == Signed(Number(stream, 4)) && Decode32(payload[4..8]) == Signed(Number(stream, 8))
  {
    PayloadSlices(stream, size);
    DecodeNumber(stream, 4);
    DecodeNumber(stream, 8);
  }

  function EncodeAll(ps: seq<Packet>): seq<byte> {
    if ps == [] then [] else Encode(ps[0]) + EncodeAll(ps[1..])
  }

  function TrimmedAll(ps: seq<Packet>): (r: seq<Packet>)
    ensures |r| == |ps| && forall i :: 0 <= i < |ps| ==> r[i] == Trimmed(ps[i])
  {
    if ps == [] then [] else [Trimmed(ps[0])] + TrimmedAll(ps[1..])
  }

  /** Reading n packets in a row. */
  function DecodeMany(stream: seq<byte>, n: nat): Result<(seq<Packet>, seq<byte>), ReadError> {
    if n == 0 then Ok(([], stream))
    else
      match Decode(stream)
      case Err(e) => Err(e)
      case Ok((p, rest)) =>
        match DecodeMany(rest, n - 1)
        case Err(e) => Err(e)
        case Ok((ps, end)) => Ok(([p] + ps, end))
  }

  /** Every list of packets written back to back is read back packet by packet. */
  lemma {:induction false} StreamRoundTrip(ps: seq<Packet>, rest: seq<byte>)
    requires forall i :: 0 <= i < |ps| ==> |ps[i].body| <= MAX_SIZE - 10
    ensures DecodeMany(EncodeAll(ps) + rest, |ps|) == Ok((TrimmedAll(ps), rest))
  {
    if ps == [] {
      assert [] + rest == rest;
    } else {
      var tail := EncodeAll(ps[1..]) + rest;
      assert EncodeAll(ps) + rest == Encode(ps[0]) + tail;
      DecodeEncode(ps[0], tail);
      StreamRoundTrip(ps[1..], rest);
    }
  }

  /** A connection that breaks inside a packet never yields a packet. */
  lemma BrokenPacketFails(p: Packet, cut: nat)
    requires |p.body| <= MAX_SIZE - 10 && cut < |Encode(p)|
    ensures Decode(Encode(p)[..cut]) == Err(ShortRead)
  {
    Decode32Encode32(|p.body| + 10);
    if cut >= 4 {
      assert Encode(p)[..cut][..4] == Encode32(|p.body| + 10);
    }
  }
}
