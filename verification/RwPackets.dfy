/** Packets in their buffers, and the length-prefixed stream they travel in. */
module RwPackets {
  import opened Types
  import opened Packing

  /** A packet as the application means it. */
  datatype Packet = Packet(packetType: Byte, payload: seq<Byte>)

  // ---------------------------------------------------------------------
  // The contents of a buffer

  /** The two-byte big-endian size field. */
  function SizeField(size: nat): seq<Byte>
    requires size < TWO_TO_THE_16
  {
    [size / 256, size % 256]
  }

  function SizeIn(buffer: seq<Byte>): nat
    requires |buffer| >= PACKET_SIZE_LENGTH
  {
    (buffer[0] as int) * 256 + buffer[1] as int
  }

  /** The size field counts the type byte, in 16 bits. */
  function PacketSizeFor(payloadSize: nat): (r: nat)
    ensures r < TWO_TO_THE_16
  {
    (PACKET_TYPE_LENGTH + payloadSize) % TWO_TO_THE_16
  }

  function Built(packetType: Byte, payload: seq<Byte>): seq<Byte> {
    SizeField(PacketSizeFor(|payload|)) + [packetType] + payload
  }

  function Resized(buffer: seq<Byte>, payloadSize: nat): seq<Byte>
    requires |buffer| >= PACKET_SIZE_LENGTH
  {
    SizeField(PacketSizeFor(payloadSize)) + buffer[PACKET_SIZE_LENGTH..]
  }

  /** The bytes handed to the transport: as many as the size field says. */
  function OnWire(buffer: seq<Byte>): seq<Byte>
    requires |buffer| >= PACKET_HEADER_LENGTH
    requires PACKET_SIZE_LENGTH + SizeIn(buffer) <= |buffer|
  {
    buffer[..PACKET_SIZE_LENGTH + SizeIn(buffer)]
  }

  lemma BuiltFits(packetType: Byte, payload: seq<Byte>)
    ensures var b := Built(packetType, payload);
            && |b| == PACKET_HEADER_LENGTH + |payload|
            && SizeIn(b) == PacketSizeFor(|payload|)
            && PACKET_SIZE_LENGTH + SizeIn(b) <= |b|
  {
    var size := PacketSizeFor(|payload|);
    assert size / 256 * 256 + size % 256 == size;
  }

  function WireOf(p: Packet): seq<Byte> {
    BuiltFits(p.packetType, p.payload);
    OnWire(Built(p.packetType, p.payload))
  }

  /**
   * The packet made of `data`, whose length is narrowed to 16 bits first. With 65535 bytes left the size field, which
   * counts the type as well, wraps to 0, and none of them is sent.
   */
  function Narrowed(packetType: Byte, data: seq<Byte>): Packet {
    var n := |data| % TWO_TO_THE_16;
    Packet(packetType, if PacketSizeFor(n) == 0 then [] else data[..n])
  }

  /** The bytes of a packet that fits: its size, the type included, high byte first; its type; its payload. */
  lemma WireBytes(p: Packet)
    requires |p.payload| < 65535
    ensures |WireOf(p)| == 3 + |p.payload|
    ensures (WireOf(p)[0] as int) * 256 + WireOf(p)[1] as int == 1 + |p.payload|
    ensures WireOf(p)[2] == p.packetType && WireOf(p)[3..] == p.payload
  {
    BuiltFits(p.packetType, p.payload);
    assert WireOf(p) == Built(p.packetType, p.payload);
  }

  /** What fits is carried whole; of what does not, the length modulo 2 to the 16. */
  lemma NarrowedFits(packetType: Byte, data: seq<Byte>, kept: nat)
    requires kept < 65535 && kept <= |data| && |data| % 65536 == kept
    ensures Narrowed(packetType, data) == Packet(packetType, data[..kept])
    ensures |data| < 65535 ==> Narrowed(packetType, data) == Packet(packetType, data)
  {
  }

  /** A buffer shrunk to n payload bytes sends exactly what a packet made with those n bytes would. */
  lemma ShrunkOnWire(packetType: Byte, payload: seq<Byte>, n: nat)
    requires n <= |payload|
    ensures var b := Resized(Built(packetType, payload), n);
            && PACKET_SIZE_LENGTH + SizeIn(b) <= |b|
            && OnWire(b) == WireOf(Packet(packetType, payload[..n]))
  {
    BuiltFits(packetType, payload);
    BuiltFits(packetType, payload[..n]);
    var b, c := Resized(Built(packetType, payload), n), Built(packetType, payload[..n]);
    var size := SizeField(PacketSizeFor(n));
    assert Built(packetType, payload)[PACKET_SIZE_LENGTH..] == [packetType] + payload;
    assert b == size + ([packetType] + payload);
    assert c == size + ([packetType] + payload[..n]);
    assert SizeIn(b) == SizeIn(c);
    assert b[..|c|] == c;
  }

  class WritePacket {
    var buffer: array<Byte>

    ghost predicate Valid()
      reads this, buffer
    {
      && buffer.Length >= PACKET_HEADER_LENGTH
      && PACKET_SIZE_LENGTH + SizeIn(buffer[..]) <= buffer.Length
    }

    constructor (packetType: Byte, payload: seq<Byte>)
      requires |payload| < TWO_TO_THE_16
      ensures Valid() && fresh(buffer)
      ensures buffer[..] == Built(packetType, payload)
    {
      var b := new Byte[PACKET_HEADER_LENGTH + |payload|](_ => 0);
      buffer := b;
      new;
      var size := PacketSizeFor(|payload|);
      b[0], b[1] := size / 256, size % 256;
      b[PACKET_SIZE_LENGTH] := packetType;
      Fill(b, PACKET_HEADER_LENGTH, payload);
      BuiltFits(packetType, payload);
      assert b[..] == Built(packetType, payload);
    }

    method Clone() returns (copy: WritePacket)
      requires Valid()
      ensures fresh(copy) && fresh(copy.buffer) && copy.Valid()
      ensures copy.buffer[..] == buffer[..]
    {
      copy := new WritePacket.Copy(buffer);
    }

    constructor Copy(from: array<Byte>)
      requires from.Length >= PACKET_HEADER_LENGTH
      requires PACKET_SIZE_LENGTH + SizeIn(from[..]) <= from.Length
      ensures Valid() && fresh(buffer)
      ensures buffer[..] == from[..]
    {
      var b := new Byte[from.Length](_ => 0);
      buffer := b;
      new;
      Fill(b, 0, from[..]);
      assert b[..] == from[..];
    }

    /** Grows or shrinks within the allocated capacity, rewriting only the size field. */
    method ResizePayload(payloadSize: nat) returns (resized: bool)
      requires Valid() && payloadSize < TWO_TO_THE_16
      modifies buffer
      ensures Valid()
      ensures resized <==> payloadSize <= buffer.Length - PACKET_HEADER_LENGTH
      ensures buffer[..] == if resized then Resized(old(buffer[..]), payloadSize) else old(buffer[..])
    {
      if payloadSize > buffer.Length - PACKET_HEADER_LENGTH {
        return false;
      }
      var size := PacketSizeFor(payloadSize);
      buffer[0], buffer[1] := size / 256, size % 256;
      resized := true;
    }
  }

  // ---------------------------------------------------------------------
  // Reading: a header of three bytes, then as many payload bytes as it announces

  datatype ReadResult = ReadResult(packets: seq<Packet>, rest: seq<Byte>, malformed: bool)

  function ReadPackets(bytes: seq<Byte>): ReadResult {
    if |bytes| < PACKET_HEADER_LENGTH then
      ReadResult([], bytes, false)
    else if SizeIn(bytes) < PACKET_TYPE_LENGTH then
      ReadResult([], bytes, true)
    else if |bytes| < PACKET_SIZE_LENGTH + SizeIn(bytes) then
      ReadResult([], bytes, false)
    else
      var end := PACKET_SIZE_LENGTH + SizeIn(bytes);
      var r := ReadPackets(bytes[end..]);
      ReadResult([Packet(bytes[PACKET_SIZE_LENGTH], bytes[PACKET_HEADER_LENGTH..end])] + r.packets, r.rest, r.malformed)
  }

  datatype ResizeResult = PayloadResized | EmptyPayload | HeaderMalformed

  class ReadPacket {
    const header: array<Byte>
    var payload: array<Byte>

    ghost predicate Valid()
      reads this
    {
      header.Length == PACKET_HEADER_LENGTH && header != payload
    }

    constructor ()
      ensures Valid() && fresh(header) && fresh(payload) && payload.Length == 0
    {
      header := new Byte[PACKET_HEADER_LENGTH](_ => 0);
      payload := new Byte[0];
    }

    /** Allocates the payload the header announces. */
    method ResizePayload() returns (r: ResizeResult)
      requires Valid()
      modifies this
      ensures Valid() && fresh(payload)
      ensures SizeIn(header[..]) < PACKET_TYPE_LENGTH ==> r == HeaderMalformed
      ensures SizeIn(header[..]) == PACKET_TYPE_LENGTH ==> r == EmptyPayload && payload.Length == 0
      ensures SizeIn(header[..]) > PACKET_TYPE_LENGTH ==>
                r == PayloadResized && payload.Length == SizeIn(header[..]) - PACKET_TYPE_LENGTH
    {
      payload := new Byte[0];
      var size: int := (header[0] as int) * 256 + header[1] as int;
      if size < PACKET_TYPE_LENGTH {
        return HeaderMalformed;
      }
      if size == PACKET_TYPE_LENGTH {
        return EmptyPayload;
      }
      payload := new Byte[size - PACKET_TYPE_LENGTH](_ => 0);
      r := PayloadResized;
    }
  }

  /** One header, then one payload: the two phases of a read. */
  method ReadOne(bytes: seq<Byte>) returns (packet: Option<Packet>, used: nat, malformed: bool)
    ensures packet.None? ==> ReadPackets(bytes) == ReadResult([], bytes, malformed)
    ensures packet.Some? ==>
              && 0 < used <= |bytes|
              && ReadPackets(bytes) == var r := ReadPackets(bytes[used..]); r.(packets := [packet.value] + r.packets)
  {
    if |bytes| < PACKET_HEADER_LENGTH {
      return None, 0, false;
    }
    var read := new ReadPacket();
    Fill(read.header, 0, bytes[..PACKET_HEADER_LENGTH]);
    assert read.header[..] == bytes[..PACKET_HEADER_LENGTH];
    var r := read.ResizePayload();
    if r == HeaderMalformed {
      return None, 0, true;
    }
    var size := read.payload.Length;
    assert PACKET_HEADER_LENGTH + size == PACKET_SIZE_LENGTH + SizeIn(bytes);
    if |bytes| < PACKET_HEADER_LENGTH + size {
      return None, 0, false;
    }
    var payload := bytes[PACKET_HEADER_LENGTH..PACKET_HEADER_LENGTH + size];
    Fill(read.payload, 0, payload);
    packet := Some(Packet(read.header[PACKET_SIZE_LENGTH], read.payload[..]));
    assert read.payload[..] == payload;
    used, malformed := PACKET_HEADER_LENGTH + size, false;
  }

  /** The read cycle over a transport that delivers `bytes`: each packet read arms the next read. */
  method ReadAll(bytes: seq<Byte>) returns (packets: seq<Packet>, rest: seq<Byte>, malformed: bool)
    ensures ReadResult(packets, rest, malformed) == ReadPackets(bytes)
  {
    packets, rest, malformed := [], bytes, false;
    while true
      invariant ReadPackets(bytes)
             == var r := ReadPackets(rest); r.(packets := packets + r.packets)
      decreases |rest|
    {
      var packet, used, bad := ReadOne(rest);
      if packet.None? {
        assert packets + [] == packets;
        malformed := bad;
        return;
      }
      ghost var r := ReadPackets(rest[used..]);
      assert packets + ([packet.value] + r.packets) == packets + [packet.value] + r.packets;
      packets, rest := packets + [packet.value], rest[used..];
    }
  }

  // ---------------------------------------------------------------------
  // The round trip

  function WireOfAll(packets: seq<Packet>): seq<Byte> {
    if packets == [] then [] else WireOf(packets[0]) + WireOfAll(packets[1..])
  }

  predicate Framable(p: Packet) { |p.payload| < TWO_TO_THE_16 - PACKET_TYPE_LENGTH }

  lemma ReadFirst(p: Packet, more: seq<Byte>)
    requires Framable(p)
    ensures ReadPackets(WireOf(p) + more)
         == var r := ReadPackets(more); r.(packets := [p] + r.packets)
  {
    BuiltFits(p.packetType, p.payload);
    var wire := WireOf(p);
    assert wire == Built(p.packetType, p.payload);
    var bytes := wire + more;
    assert SizeIn(bytes) == |p.payload| + 1;
    assert bytes[PACKET_HEADER_LENGTH..|wire|] == p.payload;
    assert bytes[|wire|..] == more;
  }

  /** The one payload size a 16-bit counter cannot frame: the announced size wraps to zero. */
  lemma ReadWrapped(p: Packet, more: seq<Byte>)
    requires |p.payload| == TWO_TO_THE_16 - PACKET_TYPE_LENGTH
    ensures WireOf(p) == [0, 0]
    ensures ReadPackets(WireOf(p) + more).packets == []
    ensures ReadPackets(WireOf(p) + more).malformed == (more != [])
  {
    BuiltFits(p.packetType, p.payload);
    var wire := WireOf(p);
    assert wire == [0, 0];
    assert SizeIn(wire + more) == 0;
  }

  /** Behind a packet that fits, the list comes back exactly if the rest of it does. */
  lemma FirstComesBack(packets: seq<Packet>)
    requires packets != [] && Framable(packets[0])
    ensures ReadPackets(WireOfAll(packets)) == ReadResult(packets, [], false)
       <==> ReadPackets(WireOfAll(packets[1..])) == ReadResult(packets[1..], [], false)
  {
    var p, more := packets[0], WireOfAll(packets[1..]);
    ReadFirst(p, more);
    var r := ReadPackets(more);
    assert packets == [p] + packets[1..];
    assert ([p] + r.packets)[1..] == r.packets;
  }

  /** Every list of packets comes back, with nothing left over, exactly when every payload fits 65534 bytes. */
  lemma {:induction false} FramingRoundTrip(packets: seq<Packet>)
    requires forall k | 0 <= k < |packets| :: |packets[k].payload| < TWO_TO_THE_16
    ensures ReadPackets(WireOfAll(packets)) == ReadResult(packets, [], false)
       <==> forall k | 0 <= k < |packets| :: Framable(packets[k])
  {
    if packets == [] {
    } else if Framable(packets[0]) {
      FirstComesBack(packets);
      FramingRoundTrip(packets[1..]);
      assert forall k | 0 < k < |packets| :: packets[k] == packets[1..][k - 1];
    } else {
      ReadWrapped(packets[0], WireOfAll(packets[1..]));
    }
  }
}
