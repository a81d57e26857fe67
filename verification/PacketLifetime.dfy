// The closures that atransport::HandleRead queues for received packets (porting/adb/transport.cpp), on top of
// TransportLifecycle: they hold the transport too, and they stand in the same run queue.  The read threads
// are explicit here, and so are the TLS handshakes that restart them.
//
// Stop closes the connection, then moves the thread objects out under mutex_, then joins them.  DoTlsHandshake
// holds mutex_ from its beginning to the start of the new read thread.  A handshake that begins on a closed
// connection fails, and so does the first read of the thread that it starts: that thread never calls
// HandleRead.
//
// Every caller of Stop but the looper's own holds transport_lock for the whole call, and transport_destroy
// takes it: it goes on when no other Stop is under way.
module PacketLifetime {
  import opened Base
  import opened L = TransportLifecycle

  // What stands in the run queue of the looper.
  datatype Item = Base(c: Closure) | Packet(t: Tid)

  // The current adapters, by their transports.
  datatype Adapters = Adapters(
    reading: set<Tid>,       // a read thread may call HandleRead
    shaking: set<Tid>,       // a handshake that began on an open connection holds mutex_
    closed: set<Tid>,        // Stop has closed the connection
    moved: set<Tid>,         // Stop has moved the thread objects out
    stopped: set<Tid>)       // Stop has joined the threads

  datatype System = System(
    s: State,
    run: seq<Item>,          // the run queue, with s.looper in it
    ad: Adapters,
    stale: bool)             // history: handle_packet was run on a deleted transport

  datatype Action =
    | Do(step: Step)             // a step of the lifecycle
    | Read(t: Tid)               // HandleRead queues handle_packet
    | ReaderEnds(t: Tid)         // the read thread leaves its loop
    | BeginHandshake(t: Tid)
    | EndHandshake(t: Tid)       // StartReadThread
    | CloseAdapter(t: Tid)       // Stop or Reset from outside the looper: the connection is closed,
    | MoveThreads(t: Tid)        // the thread objects are moved out,
    | JoinThreads(t: Tid)        // and the threads have been joined
    | HandlePacket               // the looper runs handle_packet

  const START := System(INIT, [], Adapters({}, {}, {}, {}, {}), false)

  // Has the adapter of t been started?
  predicate Started(s: State, t: Tid) {
    t in s.live && s.live[t].conn != Idle
  }

  function Bases(run: seq<Item>): seq<Closure> {
    if run == [] then []
    else
      var k := |run| - 1;
      Bases(run[..k]) + match run[k] case Base(c) => [c] case Packet(_) => []
  }

  function Wrap(cs: seq<Closure>): seq<Item> {
    seq(|cs|, i requires 0 <= i < |cs| => Base(cs[i]))
  }

  // The closures that a step adds to the run queue when it takes `taken` from it.
  function Added(s: State, step: Step, taken: nat): seq<Item> {
    var after := Next(s, step).looper;
    if taken <= |s.looper| && |s.looper| - taken <= |after| then Wrap(after[|s.looper| - taken..]) else []
  }

  // transport_destroy waits for a handshake and for a Stop that is under way.
  predicate MustWait(ad: Adapters, c: Closure) {
    c.Fail? && (c.t in ad.shaking || (c.t in ad.closed && c.t !in ad.stopped))
  }

  // Can the looper perform the closure at the front?
  predicate Ready(p: System) {
    p.run != [] && p.run[0].Base? && p.s.starting.None? && !MustWait(p.ad, p.run[0].c)
  }

  function DoClosureAtFront(p: System): System {
    if Ready(p) then
      p.(s := Next(p.s, RunClosure), run := RunAfterFront(p.s, p.run), ad := AfterClosure(p.ad, p.run[0].c))
    else p
  }

  function RunAfterFront(s: State, run: seq<Item>): seq<Item>
    requires run != []
  {
    run[1..] + Added(s, RunClosure, 1)
  }

  // fdevent_register_transport starts the adapter, transport_destroy stops it.
  function AfterClosure(ad: Adapters, c: Closure): Adapters {
    match c
    case Register(t) => ad.(reading := ad.reading + {t})
    case Fail(t) =>
      ad.(reading := ad.reading - {t}, closed := ad.closed + {t}, moved := ad.moved + {t},
          stopped := ad.stopped + {t})
    case Unregister(_) => ad
  }

  // A successful reconnection installs a new adapter.
  function AfterStep(s: State, ad: Adapters, step: Step): Adapters {
    if step == Finish(Success) && s.thread.Trying? then
      var t := s.thread.a.t;
      ad.(closed := ad.closed - {t}, moved := ad.moved - {t}, stopped := ad.stopped - {t})
    else ad
  }

  function DoStep(p: System, step: Step): System {
    if step == RunClosure then DoClosureAtFront(p)
    else p.(s := Next(p.s, step), run := p.run + Added(p.s, step, 0), ad := AfterStep(p.s, p.ad, step))
  }

  // What the threads of an adapter and the callers of its Stop do.
  function Thread(s: State, ad: Adapters, a: Action): Adapters {
    match a
    case ReaderEnds(t) => ad.(reading := ad.reading - {t})
    case BeginHandshake(t) => if Started(s, t) && t !in ad.closed then ad.(shaking := ad.shaking + {t}) else ad
    case EndHandshake(t) =>
      if t in ad.shaking then ad.(shaking := ad.shaking - {t}, reading := ad.reading + {t}) else ad
    case CloseAdapter(t) => if Started(s, t) then ad.(closed := ad.closed + {t}) else ad
    case MoveThreads(t) => if t in ad.closed && t !in ad.shaking then ad.(moved := ad.moved + {t}) else ad
    case JoinThreads(t) =>
      if t in ad.moved then ad.(reading := ad.reading - {t}, stopped := ad.stopped + {t}) else ad
    case _ => ad
  }

  function Act(p: System, a: Action): System {
    match a
    case Do(step) => DoStep(p, step)
    case Read(t) => if t in p.ad.reading then p.(run := p.run + [Packet(t)]) else p
    case HandlePacket =>
      if p.run == [] || !p.run[0].Packet? || p.s.starting.Some? then p
      else p.(run := p.run[1..], stale := p.stale || p.run[0].t !in p.s.live)
    case _ => p.(ad := Thread(p.s, p.ad, a))
  }

  function Play(actions: seq<Action>): System {
    if actions == [] then START else Act(Play(actions[..|actions| - 1]), actions[|actions| - 1])
  }

  // ----- What the lifecycle does to its part of the run queue -----

  lemma LooperGrows(s: State, step: Step)
    requires step != RunClosure
    ensures s.looper <= Next(s, step).looper
  {
  }

  lemma LooperTakes(s: State)
    requires s.looper != [] && s.starting.None?
    ensures !s.fault ==> s.looper[1..] <= Next(s, RunClosure).looper
  {
  }

  lemma {:induction false} BasesConcat(a: seq<Item>, b: seq<Item>)
    ensures Bases(a + b) == Bases(a) + Bases(b)
  {
    if b == [] {
      assert a + b == a;
    } else {
      assert (a + b)[..|a + b| - 1] == a + b[..|b| - 1];
      BasesConcat(a, b[..|b| - 1]);
    }
  }

  lemma {:induction false} BasesOfWrap(cs: seq<Closure>)
    ensures Bases(Wrap(cs)) == cs
  {
    if cs != [] {
      var k := |cs| - 1;
      assert Wrap(cs)[..k] == Wrap(cs[..k]);
      BasesOfWrap(cs[..k]);
    }
  }

  lemma {:induction false} BasesMember(run: seq<Item>, c: Closure)
    ensures c in Bases(run) <==> Base(c) in run
  {
    if run != [] {
      var k := |run| - 1;
      BasesMember(run[..k], c);
      assert run == run[..k] + [run[k]];
    }
  }

  // ----- The invariant -----

  // A transport that is read from, or will be, is connected or about to be taken offline; a dead one whose
  // adapter was not stopped is about to be taken offline; what is not started was not closed.  The three
  // stages of Stop come in order, and no handshake from before the first is under way after the second.
  ghost predicate Reads(s: State, ad: Adapters, t: Tid) {
    && (t in ad.reading || t in ad.shaking ==> t !in ad.stopped && (IsConnected(s, t) || Fail(t) in s.looper))
    && (t in s.live && s.live[t].conn == Dead && t !in ad.stopped ==> Fail(t) in s.looper)
    && (t in s.live && s.live[t].conn == Idle ==> t !in ad.closed)
    && (t in ad.closed ==> t < s.nextId)
    && (t in ad.stopped ==> t in ad.moved) && (t in ad.moved ==> t in ad.closed && t !in ad.shaking)
  }

  // Packets of t are queued only while t is allocated, and never behind the closure that deletes t.
  ghost predicate Ordered(p: System, t: Tid) {
    && (Packet(t) in p.run ==> t in p.s.live)
    && forall i, j :: 0 <= i < j < |p.run| && p.run[i] == Base(Unregister(t)) ==> p.run[j] != Packet(t)
  }

  ghost predicate Sound(p: System) {
    && L.Inv(p.s) && Bases(p.run) == p.s.looper
    && !p.stale && forall t :: Reads(p.s, p.ad, t) && Ordered(p, t)
  }

  // What a step leaves of the state of one transport.
  ghost predicate Framed(s: State, r: State, t: Tid, readmitted: bool) {
    && s.looper <= r.looper && s.nextId <= r.nextId
    && (t in s.live ==> t in r.live)
    && (IsConnected(s, t) ==> IsConnected(r, t) || Fail(t) in r.looper)
    && (t in r.live && r.live[t].conn == Dead ==> (t in s.live && s.live[t].conn == Dead) || Fail(t) in r.looper)
    && (t in r.live && r.live[t].conn == Idle ==>
          (t in s.live && s.live[t].conn == Idle) || t >= s.nextId || readmitted)
  }

  lemma SameLive(s: State, r: State, t: Tid)
    requires r.live == s.live && s.looper <= r.looper && s.nextId <= r.nextId
    ensures Framed(s, r, t, false)
  {
  }

  lemma StepFrame(s: State, step: Step, t: Tid)
    requires L.Inv(s) && step != RunClosure
    ensures Framed(s, Next(s, step), t, step == Finish(Success) && IsTrying(s, t))
  {
    var r := Next(s, step);
    LooperGrows(s, step);
    match step
    case RegisterSocket(_, _) => RegisterFrame(s, step, t);
    case ConnFails(u) => FailFrame(s, u, t);
    case Kick(_) => KickFrame(s, step, t);
    case Finish(o) => FinishFrame(s, o, t);
    case _ => SameLive(s, r, t);
  }

  lemma RegisterFrame(s: State, step: Step, t: Tid)
    requires L.Inv(s) && step.RegisterSocket?
    ensures Framed(s, Next(s, step), t, false)
  {
    assert TInv(s, t);
  }

  lemma FailFrame(s: State, u: Tid, t: Tid)
    requires L.Inv(s)
    ensures Framed(s, DoConnFails(s, u), t, false)
  {
    assert u in s.live && s.live[u].conn == Live ==> Fail(u) in (s.looper + [Fail(u)]);
  }

  lemma KickFrame(s: State, step: Step, t: Tid)
    requires L.Inv(s) && step.Kick?
    ensures Framed(s, Next(s, step), t, false)
  {
  }

  lemma FinishFrame(s: State, o: Outcome, t: Tid)
    requires L.Inv(s)
    ensures Framed(s, DoFinish(s, o), t, o == Success && IsTrying(s, t))
  {
    if s.thread.Trying? && o == Success {
      assert TInv(s, s.thread.a.t);
    } else {
      SameLive(s, DoFinish(s, o), t);
    }
  }

  // The same for the closure that the looper takes from the front.
  ghost predicate FramedFront(s: State, r: State, c: Closure, t: Tid) {
    && s.nextId == r.nextId
    && (t in s.live && c != Unregister(t) ==> t in r.live)
    && (IsConnected(s, t) ==> IsConnected(r, t))
    && (c == Register(t) ==> IsConnected(r, t) && t in s.live && s.live[t].conn == Idle)
    && (Fail(t) in s.looper && c != Fail(t) ==> Fail(t) in r.looper)
    && (t in r.live ==> t in s.live && (c != Register(t) ==> r.live[t].conn == s.live[t].conn))
  }

  lemma ClosureFrame(s: State, t: Tid)
    requires L.Inv(s) && s.looper != [] && s.starting.None?
    ensures FramedFront(s, Next(s, RunClosure), s.looper[0], t)
  {
    var c := s.looper[0];
    assert TInv(s, c.t);
    assert s.looper == [c] + s.looper[1..];
    match c
    case Register(u) => assert Register(u) in s.looper;
    case Fail(u) => assert Fail(u) in s.looper;
    case Unregister(u) =>
      assert Unregister(u) in s.looper;
      DeletionIsExclusive(s, u);
  }

  // A transport whose deletion is queued is neither connected nor about to be taken offline.
  lemma DeletionIsExclusive(s: State, t: Tid)
    requires L.Inv(s) && (Unregister(t) in s.looper || Reconnecting(s, t))
    ensures !IsConnected(s, t) && Fail(t) !in s.looper
  {
    assert TInv(s, t);
  }

  lemma Extended(run: seq<Item>, before: seq<Closure>, after: seq<Closure>)
    requires Bases(run) == before && before <= after
    ensures Bases(run + Wrap(after[|before|..])) == after
  {
    BasesOfWrap(after[|before|..]);
    BasesConcat(run, Wrap(after[|before|..]));
  }

  lemma BasesOfTail(run: seq<Item>)
    requires run != []
    ensures Bases(run) == (match run[0] case Base(c) => [c] case Packet(_) => []) + Bases(run[1..])
  {
    BasesConcat([run[0]], run[1..]);
    assert run == [run[0]] + run[1..];
    assert [run[0]][..0] == [];
  }

  lemma FrontBase(run: seq<Item>)
    requires run != [] && run[0].Base?
    ensures Bases(run) != [] && Bases(run)[0] == run[0].c && Bases(run)[1..] == Bases(run[1..])
  {
    BasesOfTail(run);
  }

  lemma PacketsAreSkipped(run: seq<Item>, t: Tid)
    ensures Bases(run + [Packet(t)]) == Bases(run)
    ensures run != [] && run[0].Packet? ==> Bases(run[1..]) == Bases(run)
  {
    assert (run + [Packet(t)])[..|run|] == run;
    if run != [] { BasesOfTail(run); }
  }

  lemma ActKeepsBases(p: System, a: Action)
    requires L.Inv(p.s) && Bases(p.run) == p.s.looper
    ensures Bases(Act(p, a).run) == Act(p, a).s.looper
  {
    match a
    case Do(step) =>
      if step == RunClosure {
        if Ready(p) { FrontKeepsBases(p.s, p.run); }
      } else {
        LooperGrows(p.s, step);
        Extended(p.run, p.s.looper, Next(p.s, step).looper);
      }
    case Read(t) => PacketsAreSkipped(p.run, t);
    case HandlePacket => PacketsAreSkipped(p.run, 0);
    case _ =>
  }

  lemma FrontKeepsBases(s: State, run: seq<Item>)
    requires !s.fault && s.starting.None? && run != [] && run[0].Base? && Bases(run) == s.looper
    ensures Bases(RunAfterFront(s, run)) == Next(s, RunClosure).looper
  {
    FrontBase(run);
    LooperTakes(s);
    Extended(run[1..], s.looper[1..], Next(s, RunClosure).looper);
  }

  // ----- Every action keeps the invariant -----

  lemma StepKeepsReads(p: System, step: Step, t: Tid)
    requires Sound(p) && step != RunClosure
    ensures Reads(Next(p.s, step), AfterStep(p.s, p.ad, step), t)
  {
    assert Reads(p.s, p.ad, t);
    StepFrame(p.s, step, t);
    if step == Finish(Success) && IsTrying(p.s, t) {
      DeletionIsExclusive(p.s, t);
    }
  }

  lemma FrontKeepsReads(p: System, t: Tid)
    requires Sound(p) && Ready(p)
    ensures Reads(Next(p.s, RunClosure), AfterClosure(p.ad, p.run[0].c), t)
  {
    assert Reads(p.s, p.ad, t);
    FrontBase(p.run);
    ClosureFrame(p.s, t);
    var c := p.s.looper[0];
    assert c in p.s.looper;
    if c == Unregister(t) { DeletionIsExclusive(p.s, t); }
    if c == Fail(t) { assert TInv(p.s, t); }
  }

  lemma ThreadKeepsReads(p: System, a: Action, t: Tid)
    requires Sound(p)
    ensures Reads(p.s, Thread(p.s, p.ad, a), t)
  {
    assert Reads(p.s, p.ad, t);
    if a.CloseAdapter? { assert TInv(p.s, a.t); }
  }

  lemma ActKeepsReads(p: System, a: Action, t: Tid)
    requires Sound(p)
    ensures Reads(Act(p, a).s, Act(p, a).ad, t)
  {
    assert Reads(p.s, p.ad, t);
    match a
    case Do(step) =>
      if step != RunClosure { StepKeepsReads(p, step, t); }
      else if Ready(p) { FrontKeepsReads(p, t); }
    case Read(_) =>
    case HandlePacket =>
    case _ => ThreadKeepsReads(p, a, t);
  }

  // A read transport is allocated, and its deletion is not queued.
  lemma ReadIsAlive(p: System, t: Tid)
    requires Sound(p) && t in p.ad.reading
    ensures t in p.s.live && Base(Unregister(t)) !in p.run
  {
    assert Reads(p.s, p.ad, t) && TInv(p.s, t);
    BasesMember(p.run, Unregister(t));
    if Unregister(t) in p.s.looper { DeletionIsExclusive(p.s, t); }
  }

  lemma AppendKeepsOrder(run: seq<Item>, more: seq<Item>, t: Tid)
    requires forall i, j :: 0 <= i < j < |run| && run[i] == Base(Unregister(t)) ==> run[j] != Packet(t)
    requires Packet(t) in more ==> Base(Unregister(t)) !in run && Base(Unregister(t)) !in more
    ensures
      var all := run + more;
      forall i, j :: 0 <= i < j < |all| && all[i] == Base(Unregister(t)) ==> all[j] != Packet(t)
  {
  }

  lemma ActKeepsOrder(p: System, a: Action, t: Tid)
    requires Sound(p)
    ensures Ordered(Act(p, a), t)
  {
    assert Ordered(p, t);
    match a
    case Do(step) =>
      if step == RunClosure {
        if Ready(p) { FrontKeepsOrder(p, t); }
      } else {
        StepFrame(p.s, step, t);
        AppendKeepsOrder(p.run, Added(p.s, step, 0), t);
      }
    case Read(u) =>
      if u in p.ad.reading {
        ReadIsAlive(p, u);
        AppendKeepsOrder(p.run, [Packet(u)], t);
      }
    case _ =>
  }

  lemma FrontKeepsOrder(p: System, t: Tid)
    requires Sound(p) && Ready(p)
    ensures Ordered(DoClosureAtFront(p), t)
  {
    assert Ordered(p, t);
    FrontBase(p.run);
    ClosureFrame(p.s, t);
    var tail := p.run[1..];
    assert p.run == [p.run[0]] + tail;
    assert p.run[0] == Base(Unregister(t)) ==> Packet(t) !in tail;
    AppendKeepsOrder(tail, Added(p.s, RunClosure, 1), t);
  }

  lemma ActIsSound(p: System, a: Action)
    requires Sound(p)
    ensures Sound(Act(p, a))
  {
    var q := Act(p, a);
    ActKeepsBases(p, a);
    BaseIsKept(p, a);
    forall t ensures Reads(q.s, q.ad, t) && Ordered(q, t) {
      ActKeepsReads(p, a, t);
      ActKeepsOrder(p, a, t);
    }
    if a == HandlePacket && p.run != [] && p.run[0].Packet? { assert Ordered(p, p.run[0].t); }
  }

  lemma BaseIsKept(p: System, a: Action)
    requires L.Inv(p.s)
    ensures L.Inv(Act(p, a).s)
  {
    if a.Do? {
      forall t ensures !Next(p.s, a.step).fault && TInv(Next(p.s, a.step), t) { NextKeeps(p.s, a.step, t); }
      assert TInv(Next(p.s, a.step), 0);
    }
  }

  lemma {:induction false} PlayIsSound(actions: seq<Action>)
    ensures Sound(Play(actions))
  {
    if actions == [] {
      RunKeeps([]);
    } else {
      PlayIsSound(actions[..|actions| - 1]);
      ActIsSound(Play(actions[..|actions| - 1]), actions[|actions| - 1]);
    }
  }

  // ----- Main results -----

  ghost predicate AliveWhileRead(p: System, t: Tid) {
    && (t in p.ad.reading ==> t in p.s.live && Base(Unregister(t)) !in p.run)
    && (Packet(t) in p.run ==> t in p.s.live)
    && (forall i, j | 0 <= i < |p.run| && 0 <= j < |p.run| ::
          (p.run[i] == Packet(t) && p.run[j] == Base(Unregister(t)) ==> i < j))
  }

  // handle_packet is never run on a deleted transport: every packet queued for a transport stands before the
  // closure that deletes it, and a transport that is still read from is allocated.
  lemma PacketsPrecedeDeletion(actions: seq<Action>, t: Tid)
    ensures !Play(actions).stale && AliveWhileRead(Play(actions), t)
  {
    PlayIsSound(actions);
    var p := Play(actions);
    assert Ordered(p, t);
    if t in p.ad.reading { ReadIsAlive(p, t); }
  }

  // A handshake that ends after Stop has moved the thread objects out starts no thread that can read, and
  // after the join no thread reads at all.
  lemma LateHandshakesReadNothing(actions: seq<Action>, t: Tid)
    ensures
      var p := Play(actions);
      && (t in p.ad.moved ==> Act(p, EndHandshake(t)) == p)
      && (t in p.ad.stopped ==> t !in p.ad.reading)
  {
    PlayIsSound(actions);
    assert Reads(Play(actions).s, Play(actions).ad, t);
  }

  // ----- No packet is lost, and none overtakes another -----

  // The transports of the packets in a run queue.
  function Packets(run: seq<Item>): seq<Tid> {
    if run == [] then []
    else
      var k := |run| - 1;
      Packets(run[..k]) + match run[k] case Base(_) => [] case Packet(t) => [t]
  }

  // The packets that HandleRead accepts in an action, and those that handle_packet is run for.
  ghost function ReceivedBy(p: System, a: Action): seq<Tid> {
    if a.Read? && a.t in p.ad.reading then [a.t] else []
  }

  ghost function HandledBy(p: System, a: Action): seq<Tid> {
    if a.HandlePacket? && p.s.starting.None? && p.run != [] && p.run[0].Packet? then [p.run[0].t] else []
  }

  ghost function Received(actions: seq<Action>): seq<Tid> {
    if actions == [] then []
    else
      var k := |actions| - 1;
      Received(actions[..k]) + ReceivedBy(Play(actions[..k]), actions[k])
  }

  ghost function Handled(actions: seq<Action>): seq<Tid> {
    if actions == [] then []
    else
      var k := |actions| - 1;
      Handled(actions[..k]) + HandledBy(Play(actions[..k]), actions[k])
  }

  lemma {:induction false} PacketsConcat(a: seq<Item>, b: seq<Item>)
    ensures Packets(a + b) == Packets(a) + Packets(b)
  {
    if b == [] {
      assert a + b == a;
    } else {
      assert (a + b)[..|a + b| - 1] == a + b[..|b| - 1];
      PacketsConcat(a, b[..|b| - 1]);
    }
  }

  lemma PacketsOfOne(x: Item)
    ensures Packets([x]) == match x case Base(_) => [] case Packet(t) => [t]
  {
    assert [x][..0] == [];
  }

  lemma PacketsOfTail(run: seq<Item>)
    requires run != []
    ensures Packets(run) == (match run[0] case Base(_) => [] case Packet(t) => [t]) + Packets(run[1..])
  {
    PacketsConcat([run[0]], run[1..]);
    PacketsOfOne(run[0]);
    assert run == [run[0]] + run[1..];
  }

  lemma {:induction false} PacketsOfWrap(cs: seq<Closure>)
    ensures Packets(Wrap(cs)) == []
  {
    if cs != [] {
      assert Wrap(cs)[..|cs| - 1] == Wrap(cs[..|cs| - 1]);
      PacketsOfWrap(cs[..|cs| - 1]);
    }
  }

  // The steps of the lifecycle add no packet and take none.
  lemma AddedHoldsNone(s: State, step: Step, taken: nat)
    ensures Packets(Added(s, step, taken)) == []
  {
    var after := Next(s, step).looper;
    if taken <= |s.looper| && |s.looper| - taken <= |after| { PacketsOfWrap(after[|s.looper| - taken..]); }
  }

  lemma StepLeavesPackets(p: System, step: Step)
    ensures Packets(DoStep(p, step).run) == Packets(p.run)
  {
    if step != RunClosure {
      AddedHoldsNone(p.s, step, 0);
      PacketsConcat(p.run, Added(p.s, step, 0));
    } else if Ready(p) {
      AddedHoldsNone(p.s, RunClosure, 1);
      PacketsConcat(p.run[1..], Added(p.s, RunClosure, 1));
      PacketsOfTail(p.run);
    }
  }

  lemma ActConserves(p: System, a: Action)
    ensures Packets(p.run) + ReceivedBy(p, a) == HandledBy(p, a) + Packets(Act(p, a).run)
  {
    match a
    case Do(step) => StepLeavesPackets(p, step);
    case Read(t) =>
      PacketsConcat(p.run, [Packet(t)]);
      PacketsOfOne(Packet(t));
    case HandlePacket => if p.run != [] { PacketsOfTail(p.run); }
    case _ =>
  }

  // In every run the packets accepted are those handled, followed by those in the run queue, in order.
  lemma {:induction false} PacketsAreConserved(actions: seq<Action>)
    ensures Received(actions) == Handled(actions) + Packets(Play(actions).run)
  {
    if actions != [] {
      var k := |actions| - 1;
      var (p, a, h) := (Play(actions[..k]), actions[k], Handled(actions[..k]));
      PacketsAreConserved(actions[..k]);
      ActConserves(p, a);
      Assoc(h, Packets(p.run), ReceivedBy(p, a));
      Assoc(h, HandledBy(p, a), Packets(Act(p, a).run));
    }
  }

  // Leaving out the packets gives a run of the lifecycle.
  lemma {:induction false} ProjectsToLifecycle(actions: seq<Action>) returns (steps: seq<Step>)
    ensures Play(actions).s == Run(steps) && Bases(Play(actions).run) == Run(steps).looper
  {
    PlayIsSound(actions);
    if actions == [] {
      steps := [];
    } else {
      var (before, a) := (Play(actions[..|actions| - 1]), actions[|actions| - 1]);
      steps := ProjectsToLifecycle(actions[..|actions| - 1]);
      ActIsAStep(before, a);
      if Act(before, a).s != before.s {
        RunThen(steps, a.step);
        steps := steps + [a.step];
      }
    }
  }

  lemma ActIsAStep(p: System, a: Action)
    ensures Act(p, a).s == p.s || (a.Do? && Act(p, a).s == Next(p.s, a.step))
  {
  }

  lemma RunThen(steps: seq<Step>, step: Step)
    ensures Run(steps + [step]) == Next(Run(steps), step)
  {
    assert (steps + [step])[..|steps|] == steps;
  }
}
