// Packets on the wire: send_packet, FdConnection::Write, FdConnection::Read and check_header
// (porting/adb/transport.cpp) and calculate_apacket_checksum (porting/adb/client/adb.cpp).
module PacketStream {
  import opened Base
  import opened Bytes

  const MAX_PAYLOAD := 0x10_0000
  const VERSION_SKIP_CHECKSUM := 0x0100_0001
  const HEADER_SIZE := 24

  // amessage
  datatype Header = Header(command: u32, arg0: u32, arg1: u32, dataLength: u32, dataCheck: u32, magic: u32)

  // apacket
  datatype Packet = Packet(msg: Header, payload: seq<byte>)

  // What every sender of this program establishes before send_packet.
  predicate WellFormed(p: Packet) {
    p.msg.dataLength == |p.payload| <= MAX_PAYLOAD
  }

  function EncodeHeader(h: Header): (r: seq<byte>)
    ensures |r| == HEADER_SIZE
  {
    Le32(h.command) + Le32(h.arg0) + Le32(h.arg1) + Le32(h.dataLength) + Le32(h.dataCheck) + Le32(h.magic)
  }

  function DecodeHeader(b: seq<byte>): Header
    requires |b| == HEADER_SIZE
  {
    Header(Word(b[..4]), Word(b[4..8]), Word(b[8..12]), Word(b[12..16]), Word(b[16..20]), Word(b[20..]))
  }

  lemma HeaderRoundTrip(h: Header)
    ensures DecodeHeader(EncodeHeader(h)) == h
  {
    var b := EncodeHeader(h);
    assert b[..4] == Le32(h.command) && b[4..8] == Le32(h.arg0) && b[8..12] == Le32(h.arg1);
    assert b[12..16] == Le32(h.dataLength) && b[16..20] == Le32(h.dataCheck) && b[20..] == Le32(h.magic);
    WordOfLe32(h.command); WordOfLe32(h.arg0); WordOfLe32(h.arg1);
    WordOfLe32(h.dataLength); WordOfLe32(h.dataCheck); WordOfLe32(h.magic);
  }

  lemma HeaderUnique(b: seq<byte>)
    requires |b| == HEADER_SIZE
    ensures EncodeHeader(DecodeHeader(b)) == b
  {
    Le32OfWord(b[..4]); Le32OfWord(b[4..8]); Le32OfWord(b[8..12]);
    Le32OfWord(b[12..16]); Le32OfWord(b[16..20]); Le32OfWord(b[20..]);
  }

  // Where the fields are.
  lemma HeaderLayout(h: Header)
    ensures
      var b := EncodeHeader(h);
      && b[0..4] == Le32(h.command) && b[4..8] == Le32(h.arg0) && b[8..12] == Le32(h.arg1)
      && b[12..16] == Le32(h.dataLength) && b[16..20] == Le32(h.dataCheck) && b[20..24] == Le32(h.magic)
  {
  }

  function Encode(p: Packet): seq<byte> {
    EncodeHeader(p.msg) + p.payload
  }

  // What the connection writes: as much of the payload as the header says.
  function Written(p: Packet): seq<byte>
    requires p.msg.dataLength <= |p.payload|
  {
    EncodeHeader(p.msg) + p.payload[..p.msg.dataLength]
  }

  lemma WellFormedIsWritten(p: Packet)
    requires WellFormed(p)
    ensures Written(p) == Encode(p)
  {
    assert p.payload[..|p.payload|] == p.payload;
  }

  // The bytes of a sequence of packets.
  function Wire(ps: seq<Packet>): seq<byte> {
    if ps == [] then [] else Encode(ps[0]) + Wire(ps[1..])
  }

  // What one FdConnection::Read makes of the bytes that are still to come.
  function ReadPacket(bs: seq<byte>): Option<(Packet, seq<byte>)> {
    if |bs| < HEADER_SIZE then None
    else
      var h, rest := DecodeHeader(bs[..HEADER_SIZE]), bs[HEADER_SIZE..];
      if h.dataLength > MAX_PAYLOAD || |rest| < h.dataLength then None
      else Some((Packet(h, rest[..h.dataLength]), rest[h.dataLength..]))
  }

  // The packets that reading until the first failure returns.
  function ReadAll(bs: seq<byte>): seq<Packet>
    decreases |bs|
  {
    match ReadPacket(bs)
    case None => []
    case Some((p, rest)) => [p] + ReadAll(rest)
  }

  // ----- The file descriptor: it accepts `room` more bytes and then fails -----

  class FdConnection {
    var input: seq<byte>
    var output: seq<byte>
    var room: nat

    constructor (input: seq<byte>, room: nat)
      ensures this.input == input && this.room == room && output == []
    {
      this.input, this.room, this.output := input, room, [];
    }

    // DispatchWrite
    method DispatchWrite(data: seq<byte>) returns (ok: bool)
      modifies this`output, this`room
      ensures ok == (|data| <= old(room))
      ensures ok ==> output == old(output) + data && room == old(room) - |data|
      ensures !ok ==> output == old(output) + data[..old(room)] && room == 0
    {
      if |data| <= room {
        output, room := output + data, room - |data|;
        return true;
      }
      output, room := output + data[..room], 0;
      return false;
    }

    // DispatchRead
    method DispatchRead(len: nat) returns (r: Option<seq<byte>>)
      modifies this`input
      ensures r.Some? <==> len <= |old(input)|
      ensures r.Some? ==> |r.value| == len && r.value + input == old(input)
      ensures r.None? ==> input == []
    {
      if |input| < len {
        input := [];
        return None;
      }
      r := Some(input[..len]);
      input := input[len..];
    }

    // FdConnection::Write
    method Write(p: Packet) returns (ok: bool)
      requires p.msg.dataLength <= |p.payload|
      modifies this`output, this`room
      ensures ok == (|Written(p)| <= old(room))
      ensures ok ==> output == old(output) + Written(p) && room == old(room) - |Written(p)|
      ensures ok ==> output == old(output) + (EncodeHeader(p.msg) + p.payload[..p.msg.dataLength])
      ensures !ok ==> output == old(output) + Written(p)[..old(room)]
      ensures WellFormed(p) ==> Written(p) == Encode(p)
    {
      if WellFormed(p) {
        WellFormedIsWritten(p);
      }
      ok := DispatchWrite(EncodeHeader(p.msg));
      if !ok {
        return;
      }
      if p.msg.dataLength != 0 {
        ok := DispatchWrite(p.payload[..p.msg.dataLength]);
      }
    }

    // FdConnection::Read
    method Read() returns (r: Option<Packet>)
      modifies this`input
      ensures match ReadPacket(old(input))
              case None => r == None
              case Some((p, rest)) => r == Some(p) && input == rest
      ensures
        var bs := old(input);
        && (r.Some? <==> |bs| >= 24 && Word(bs[12..16]) <= 0x10_0000 && |bs| >= 24 + Word(bs[12..16]))
        && (r.Some? ==> EncodeHeader(r.value.msg) + r.value.payload + input == bs
                        && |r.value.payload| == Word(bs[12..16]))
    {
      ghost var all := input;
      ReadMeans(all);
      var head := DispatchRead(HEADER_SIZE);
      if head.None? {
        return None;
      }
      assert all[..HEADER_SIZE] == head.value && all[HEADER_SIZE..] == input;
      var h := DecodeHeader(head.value);
      if h.dataLength > MAX_PAYLOAD {
        return None;
      }
      ghost var rest := input;
      var body := DispatchRead(h.dataLength);
      if body.None? {
        return None;
      }
      assert rest[..h.dataLength] == body.value && rest[h.dataLength..] == input;
      return Some(Packet(h, body.value));
    }
  }

  // ----- send_packet and check_header -----

  function Sum(bs: seq<byte>): nat {
    if bs == [] then 0 else Sum(bs[..|bs| - 1]) + bs[|bs| - 1]
  }

  // calculate_apacket_checksum: a uint32_t accumulator.
  method Checksum(p: Packet) returns (sum: u32)
    requires p.msg.dataLength <= |p.payload|
    ensures sum == Sum(p.payload[..p.msg.dataLength]) % 0x1_0000_0000
    ensures p.msg.dataLength <= MAX_PAYLOAD ==> sum == Sum(p.payload[..p.msg.dataLength])
  {
    sum := 0;
    for i := 0 to p.msg.dataLength
      invariant sum == Sum(p.payload[..i]) % 0x1_0000_0000
    {
      assert p.payload[..i + 1][..i] == p.payload[..i];
      sum := (sum + p.payload[i]) % 0x1_0000_0000;
    }
    SumBound(p.payload[..p.msg.dataLength]);
  }

  lemma {:induction false} SumBound(bs: seq<byte>)
    ensures Sum(bs) <= 0xff * |bs|
  {
    if bs != [] { SumBound(bs[..|bs| - 1]); }
  }

  // It is the sum of all bytes, whatever their order.
  lemma {:induction false} SumOfAll(a: seq<byte>, b: seq<byte>, x: byte)
    ensures Sum(a + [x] + b) == Sum(a + b) + x && Sum([]) == 0
    decreases |b|
  {
    if b == [] {
      assert (a + [x] + b)[..|a|] == a && a + b == a;
    } else {
      var k := |b| - 1;
      assert (a + [x] + b)[..|a| + 1 + k] == a + [x] + b[..k];
      assert (a + b)[..|a| + k] == a + b[..k];
      SumOfAll(a, b[..k], x);
    }
  }

  // x ^ 0xffffffff on 32 bits.
  function Complement(x: u32): u32 { 0xffff_ffff - x }

  // send_packet, up to the hand-over to the connection.  Within the payload limit the checksum never
  // wraps, so it is the sum of the bytes.
  method SendPacket(p: Packet, version: nat) returns (q: Packet)
    requires p.msg.dataLength <= |p.payload|
    ensures q.payload == p.payload && (WellFormed(q) <==> WellFormed(p))
    ensures q.msg == p.msg.(magic := q.msg.magic, dataCheck := q.msg.dataCheck)
    ensures q.msg.magic as int + p.msg.command as int == 0xffff_ffff
    ensures version >= VERSION_SKIP_CHECKSUM ==> q.msg.dataCheck == 0
    ensures version < VERSION_SKIP_CHECKSUM ==>
              q.msg.dataCheck == Sum(p.payload[..p.msg.dataLength]) % 0x1_0000_0000
    ensures version < VERSION_SKIP_CHECKSUM && p.msg.dataLength <= MAX_PAYLOAD ==>
              q.msg.dataCheck == Sum(p.payload[..p.msg.dataLength])
    ensures forall max: nat :: CheckHeader(q, max) <==> p.msg.dataLength <= max
  {
    var check: u32 := 0;
    if version < VERSION_SKIP_CHECKSUM {
      check := Checksum(p);
    }
    q := p.(msg := p.msg.(magic := Complement(p.msg.command), dataCheck := check));
  }

  // check_header: the receiver compares the length with its own negotiated maximum.
  predicate CheckHeader(p: Packet, maxPayload: nat) {
    p.msg.magic == Complement(p.msg.command) && p.msg.dataLength <= maxPayload
  }

  // A command or a magic number that was changed on the way is refused.
  lemma DamageIsRefused(p: Packet, x: u32, maxPayload: nat)
    requires CheckHeader(p, maxPayload)
    ensures x != p.msg.magic ==> !CheckHeader(p.(msg := p.msg.(magic := x)), maxPayload)
    ensures x != p.msg.command ==> !CheckHeader(p.(msg := p.msg.(command := x)), maxPayload)
    ensures CheckHeader(p.(msg := p.msg.(dataLength := x)), maxPayload) <==> x <= maxPayload
  {
  }

  // ----- Round trips -----

  lemma ReadAfterWrite(p: Packet, rest: seq<byte>)
    requires WellFormed(p)
    ensures ReadPacket(Encode(p) + rest) == Some((p, rest))
  {
    HeaderRoundTrip(p.msg);
    var bs := Encode(p) + rest;
    assert bs[..HEADER_SIZE] == EncodeHeader(p.msg);
    assert bs[HEADER_SIZE..] == p.payload + rest;
    assert (p.payload + rest)[..|p.payload|] == p.payload;
    assert (p.payload + rest)[|p.payload|..] == rest;
  }

  // Reading accepts nothing but an encoded packet, and there is only one such packet.
  lemma ReadIsUnique(bs: seq<byte>)
    ensures match ReadPacket(bs)
            case None => forall p, rest :: WellFormed(p) ==> bs != Encode(p) + rest
            case Some((p, rest)) => WellFormed(p) && bs == Encode(p) + rest
  {
    match ReadPacket(bs)
    case Some((p, rest)) =>
      HeaderUnique(bs[..HEADER_SIZE]);
      var tail := bs[HEADER_SIZE..];
      assert tail == p.payload + rest;
    case None =>
      forall p, rest | WellFormed(p) ensures bs != Encode(p) + rest { ReadAfterWrite(p, rest); }
  }

  // A truncated packet is not returned.
  lemma ReadTruncated(p: Packet, n: nat)
    requires WellFormed(p) && n < |Encode(p)|
    ensures ReadPacket(Encode(p)[..n]) == None
  {
    var bs := Encode(p)[..n];
    match ReadPacket(bs)
    case None =>
    case Some((q, rest)) =>
      ReadIsUnique(bs);
      var more := Encode(p)[n..];
      assert bs + more == Encode(p) + [];
      assert bs + more == Encode(q) + (rest + more);
      ReadAfterWrite(p, []);
      ReadAfterWrite(q, rest + more);
  }

  lemma ReadMeans(bs: seq<byte>)
    ensures ReadPacket(bs).Some? <==>
              |bs| >= 24 && Word(bs[12..16]) <= 0x10_0000 && |bs| >= 24 + Word(bs[12..16])
    ensures match ReadPacket(bs)
            case None => true
            case Some((p, rest)) => EncodeHeader(p.msg) + p.payload + rest == bs && |p.payload| == Word(bs[12..16])
  {
    if |bs| >= HEADER_SIZE {
      assert bs[..HEADER_SIZE][12..16] == bs[12..16];
      ReadIsUnique(bs);
    }
  }

  lemma ReadAllAfterWrite(p: Packet, rest: seq<byte>)
    requires WellFormed(p)
    ensures ReadAll(Encode(p) + rest) == [p] + ReadAll(rest)
  {
    ReadAfterWrite(p, rest);
  }

  lemma {:induction false} WholeStreamRoundTrip(ps: seq<Packet>)
    requires forall p :: p in ps ==> WellFormed(p)
    ensures ReadAll(Wire(ps)) == ps
  {
    if ps != [] {
      ReadAllAfterWrite(ps[0], Wire(ps[1..]));
      WholeStreamRoundTrip(ps[1..]);
    }
  }

  // rs are the packets of ps that are complete within the first n bytes of their stream.
  predicate Complete(ps: seq<Packet>, n: nat, rs: seq<Packet>) {
    rs <= ps && |Wire(rs)| <= n && (|rs| < |ps| ==> n < |Wire(ps[..|rs| + 1])|)
  }

  // Cut the byte stream of well-formed packets anywhere: the reader returns the packets that arrived
  // completely, unchanged and in order, and nothing else.
  lemma {:induction false} StreamRoundTrip(ps: seq<Packet>, n: nat)
    requires n <= |Wire(ps)| && forall p :: p in ps ==> WellFormed(p)
    ensures Complete(ps, n, ReadAll(Wire(ps)[..n]))
    decreases |ps|
  {
    if ps != [] {
      var p, w := ps[0], Wire(ps[1..]);
      var e := Encode(p);
      if n < |e| {
        TakeConcat(e, w, n);
        ReadTruncated(p, n);
        NothingComplete(ps, n);
      } else {
        TakeConcat(e, w, n);
        ReadAllAfterWrite(p, w[..n - |e|]);
        StreamRoundTrip(ps[1..], n - |e|);
        OneMoreComplete(p, ps[1..], n - |e|, ReadAll(w[..n - |e|]));
        assert ps == [p] + ps[1..];
      }
    }
  }

  lemma NothingComplete(ps: seq<Packet>, n: nat)
    requires ps != [] && n < |Encode(ps[0])|
    ensures Complete(ps, n, [])
  {
    assert ps[..1] == [ps[0]];
    assert Wire(ps[..1]) == Encode(ps[0]) + Wire([]);
  }

  lemma OneMoreComplete(p: Packet, ps: seq<Packet>, n: nat, rs: seq<Packet>)
    requires Complete(ps, n, rs)
    ensures Complete([p] + ps, n + |Encode(p)|, [p] + rs)
  {
    assert ([p] + rs)[1..] == rs;
    if |rs| < |ps| {
      var qs := ps[..|rs| + 1];
      assert ([p] + ps)[..|[p] + rs| + 1] == [p] + qs;
      assert ([p] + qs)[1..] == qs;
    }
  }

  lemma {:induction false} WireSplit(a: seq<Packet>, b: seq<Packet>)
    ensures Wire(a + b) == Wire(a) + Wire(b)
  {
    if a == [] {
      assert a + b == b;
    } else {
      assert (a + b)[1..] == a[1..] + b;
      WireSplit(a[1..], b);
    }
  }
}
