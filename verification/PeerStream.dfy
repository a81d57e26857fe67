// The adapter, the framing and the peer put together: what the other end of a connection reads.
module PeerStream {
  import opened Bytes
  import opened PacketStream
  import opened ConnectionAdapter

  // Of the last packet only n bytes were accepted.
  ghost predicate CutAt(ps: seq<Packet>, wire: seq<byte>, n: nat) {
    && ps != [] && n < |Encode(ps[|ps| - 1])|
    && wire == Wire(ps[..|ps| - 1]) + Encode(ps[|ps| - 1])[..n]
  }

  // The bytes that underlying_ accepted: everything that was handed over, except that a failed write
  // has cut the last packet short.
  ghost predicate Carries(io: Io<Packet>, wire: seq<byte>) {
    if io.cut then exists n :: CutAt(io.handed, wire, n) else wire == Wire(io.handed)
  }

  lemma WireLast(ps: seq<Packet>, n: nat)
    requires ps != [] && n < |Encode(ps[|ps| - 1])|
    ensures
      var k := |ps| - 1;
      var w := Wire(ps[..k]) + Encode(ps[k])[..n];
      |w| < |Wire(ps)| && w == Wire(ps)[..|w|]
  {
    var k := |ps| - 1;
    assert ps == ps[..k] + [ps[k]];
    WireSplit(ps[..k], [ps[k]]);
    assert Wire([ps[k]]) == Encode(ps[k]) + [];
  }

  lemma CarriesAPrefix(io: Io<Packet>, wire: seq<byte>)
    requires Carries(io, wire)
    ensures wire <= Wire(io.handed) && (io.cut ==> |wire| < |Wire(io.handed)|)
  {
    if io.cut {
      var n :| CutAt(io.handed, wire, n);
      WireLast(io.handed, n);
    }
  }

  lemma HandedIsPrefix(io: Io<Packet>)
    requires Fifo(io)
    ensures io.handed <= io.enqueued
  {
    assert io.enqueued == io.handed + (InFlight(io) + io.queue);
  }

  // Whatever the interleaving of the writers, the threads and Stop, and wherever the connection breaks,
  // the peer that reads it gets a prefix of the packets given to Write, unchanged and in order; if no
  // write failed and everything arrived, it gets all the packets handed over.
  lemma PeerReceivesAPrefix(steps: seq<Step<Packet>>, wire: seq<byte>, n: nat)
    requires Carries(Continue(Init(), steps).io, wire) && n <= |wire|
    requires forall p :: p in Continue(Init(), steps).io.enqueued ==> WellFormed(p)
    ensures
      var io := Continue(Init(), steps).io;
      && ReadAll(wire[..n]) <= io.handed <= io.enqueued
      && (ReadAll(wire[..n]) == io.handed <==> n == |Wire(io.handed)|)
  {
    ContinueKeeps(Init(), steps);
    var io := Continue(Init(), steps).io;
    HandedIsPrefix(io);
    assert forall p :: p in io.handed ==> p in io.enqueued;
    CarriesAPrefix(io, wire);
    Received(io.handed, wire, n);
  }

  lemma Received(ps: seq<Packet>, wire: seq<byte>, n: nat)
    requires wire <= Wire(ps) && n <= |wire| && forall p :: p in ps ==> WellFormed(p)
    ensures ReadAll(wire[..n]) <= ps
    ensures ReadAll(wire[..n]) == ps <==> n == |Wire(ps)|
  {
    var w := Wire(ps);
    assert wire[..n] == w[..n];
    StreamRoundTrip(ps, n);
    WholeStreamRoundTrip(ps);
    assert w[..|w|] == w;
  }
}
