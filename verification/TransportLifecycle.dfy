// The life of a socket transport in porting/adb/transport.cpp, as a state machine whose steps are
// the regions that run under one lock and the closures that run on the looper thread.  A run is an
// arbitrary interleaving of the steps of API callers, connection threads, the reconnect thread and
// the looper.
module TransportLifecycle {
  import opened Base

  // The identity of an atransport object.  Every allocation gets an identity never used before.
  type Tid = nat

  const GRACE := 250         // ms between losing a connection and the first attempt
  const RETRY_DELAY := 3000  // ms between two attempts
  const MAX_ATTEMPTS := 20

  // Idle: the adapter has not been started.  Live: started, HandleError has not fired.
  // Dead: HandleError has fired (it fires at most once per adapter, see ConnectionAdapter).
  datatype Conn = Idle | Live | Dead

  datatype Transport = Transport(serial: string, tcp: bool, kicked: bool, conn: Conn)

  // What fdevent_run_on_looper is given: register_transport, HandleError, remove_transport.
  datatype Closure = Register(t: Tid) | Fail(t: Tid) | Unregister(t: Tid)

  datatype Attempt = Attempt(t: Tid, due: int, left: nat)

  datatype Thread = Unstarted | Waiting | Trying(a: Attempt) | Exited

  datatype Outcome = Retry | Success | Abort

  // History: accepted by TrackTransport, Reconnect() called, handed to register_transport and to
  // remove_transport by the reconnect handler, object deleted.
  datatype Event =
    | Tracked(t: Tid)
    | Tried(t: Tid, due: int, at: int)
    | Readmitted(t: Tid)
    | GivenUp(t: Tid)
    | Deleted(t: Tid)

  datatype State = State(
    now: int,
    nextId: Tid,
    live: map<Tid, Transport>,   // allocated transports that some list or thread can reach
    pending: seq<Tid>,           // pending_list
    list: seq<Tid>,              // transport_list
    posting: set<Tid>,           // registered by a caller that has not called register_transport yet
    starting: Option<Tid>,       // the looper has started it and has not moved it between the lists
    looper: seq<Closure>,        // run queue of the looper
    thread: Thread,              // the reconnect thread
    running: bool,               // ReconnectHandler::running_
    queue: seq<Attempt>,         // ReconnectHandler::reconnect_queue_, in iteration order
    dropped: set<Tid>,           // refused by TrackTransport after Stop
    fault: bool,                 // a deleted transport was used, or an adapter was started twice
    log: seq<Event>)

  const INIT := State(0, 0, map[], [], [], {}, None, [], Unstarted, true, [], {}, false, [])

  // ----- The reconnect queue, a std::set ordered by deadline and then by address -----

  predicate Before(a: Attempt, b: Attempt) {
    a.due < b.due || (a.due == b.due && a.t < b.t)
  }

  function Insert(q: seq<Attempt>, a: Attempt): seq<Attempt> {
    if q == [] then [a]
    else if Before(a, q[0]) then [a] + q
    else if Before(q[0], a) then [q[0]] + Insert(q[1..], a)
    else q
  }

  predicate Sorted(q: seq<Attempt>) {
    forall i, j :: 0 <= i < j < |q| ==> Before(q[i], q[j])
  }

  function Occ(q: seq<Attempt>, t: Tid): nat {
    if q == [] then 0 else (if q[0].t == t then 1 else 0) + Occ(q[1..], t)
  }

  predicate IsKicked(live: map<Tid, Transport>, t: Tid) {
    t in live && live[t].kicked
  }

  function Kept(q: seq<Attempt>, live: map<Tid, Transport>): seq<Attempt> {
    if q == [] then []
    else if IsKicked(live, q[0].t) then Kept(q[1..], live)
    else [q[0]] + Kept(q[1..], live)
  }

  function Kicked(q: seq<Attempt>, live: map<Tid, Transport>): seq<Attempt> {
    if q == [] then []
    else if IsKicked(live, q[0].t) then [q[0]] + Kicked(q[1..], live)
    else Kicked(q[1..], live)
  }

  predicate AllLive(q: seq<Attempt>, live: map<Tid, Transport>) {
    forall i :: 0 <= i < |q| ==> q[i].t in live
  }

  // ----- Steps -----

  datatype Step =
    | RegisterSocket(serial: string, tcp: bool)
    | PostRegister(t: Tid)
    | ConnFails(t: Tid)
    | Kick(t: Tid)
    | RunClosure
    | FinishRegister
    | StartHandler
    | Wake
    | Finish(o: Outcome)
    | StopHandler
    | Drain
    | Tick(ms: nat)

  predicate SerialIn(xs: seq<Tid>, live: map<Tid, Transport>, serial: string) {
    exists i :: 0 <= i < |xs| && xs[i] in live && live[xs[i]].serial == serial
  }

  // register_socket_transport up to the unlock.  A duplicate serial deletes the new object.
  function DoRegisterSocket(s: State, serial: string, tcp: bool): State {
    var t := s.nextId;
    if SerialIn(s.pending, s.live, serial) || SerialIn(s.list, s.live, serial) then
      s.(nextId := t + 1, log := s.log + [Deleted(t)])
    else
      s.(nextId := t + 1,
         live := s.live[t := Transport(serial, tcp, false, Idle)],
         pending := [t] + s.pending,
         posting := s.posting + {t})
  }

  // register_socket_transport after the unlock: register_transport.
  function DoPostRegister(s: State, t: Tid): State {
    if t in s.posting then s.(posting := s.posting - {t}, looper := s.looper + [Register(t)]) else s
  }

  // The read thread, the write thread or Stop reports the end of the connection: HandleError.
  function DoConnFails(s: State, t: Tid): State {
    if t in s.live && s.live[t].conn == Live then
      s.(live := s.live[t := s.live[t].(conn := Dead)], looper := s.looper + [Fail(t)])
    else s
  }

  // kick_transport: any pointer may be passed, only members of transport_list are touched.
  function DoKick(s: State, t: Tid): State {
    if t !in s.list then s
    else if t !in s.live then s.(fault := true)
    else s.(live := s.live[t := s.live[t].(kicked := true)])
  }

  // ReconnectHandler::TrackTransport
  function Track(s: State, t: Tid): State {
    if s.running then
      s.(queue := Insert(s.queue, Attempt(t, s.now + GRACE, MAX_ATTEMPTS)), log := s.log + [Tracked(t)])
    else s.(dropped := s.dropped + {t})
  }

  // fdevent_register_transport up to the list move, handle_offline followed by transport_destroy,
  // and fdevent_unregister_transport.
  function DoClosure(s: State, c: Closure): State {
    if c.t !in s.live then s.(fault := true)
    else
      match c
      case Register(t) =>
        if s.live[t].conn != Idle then s.(fault := true)
        else s.(live := s.live[t := s.live[t].(conn := Live)], starting := Some(t))
      case Fail(t) =>
        if s.live[t].tcp && !s.live[t].kicked then Track(s, t)
        else s.(looper := s.looper + [Unregister(t)])
      case Unregister(t) =>
        s.(list := Remove(s.list, t), live := s.live - {t}, log := s.log + [Deleted(t)])
  }

  // FlushRunQueue takes the front closure and runs it; the looper is one thread.
  function DoRunClosure(s: State): State {
    if s.looper == [] || s.starting.Some? then s
    else DoClosure(s.(looper := s.looper[1..]), s.looper[0])
  }

  // The end of fdevent_register_transport.
  function DoFinishRegister(s: State): State {
    if s.starting.None? then s
    else
      var t := s.starting.value;
      if t in s.pending then
        s.(starting := None, pending := Remove(s.pending, t), list := [t] + s.list)
      else s.(starting := None)
  }

  function Removals(q: seq<Attempt>): seq<Closure> {
    if q == [] then [] else [Unregister(q[0].t)] + Removals(q[1..])
  }

  function Farewells(q: seq<Attempt>): seq<Event> {
    if q == [] then [] else [GivenUp(q[0].t)] + Farewells(q[1..])
  }

  // remove_transport for every transport of q, in order.
  function GiveUp(s: State, q: seq<Attempt>): State {
    s.(looper := s.looper + Removals(q), log := s.log + Farewells(q))
  }

  // One pass of ReconnectHandler::Run under reconnect_mutex_: drop the kicked transports, then take
  // the attempt with the least deadline if it is due.
  function DoWake(s: State): State {
    if s.thread != Waiting then s
    else if !s.running then s.(thread := Exited)
    else if !AllLive(s.queue, s.live) then s.(fault := true)
    else
      TakeDue(GiveUp(s.(queue := Kept(s.queue, s.live)), Kicked(s.queue, s.live)))
  }

  function TakeDue(s: State): State {
    if s.queue == [] || s.queue[0].due > s.now then s
    else
      var a := s.queue[0];
      s.(queue := s.queue[1..], thread := Trying(a), log := s.log + [Tried(a.t, a.due, s.now)])
  }

  // The switch on the result of Reconnect().  A successful reconnection installs a new adapter.
  function DoFinish(s: State, o: Outcome): State {
    if !s.thread.Trying? then s
    else
      var a := s.thread.a;
      var w := s.(thread := Waiting);
      if a.t !in s.live then s.(fault := true)
      else if o == Success then
        w.(live := s.live[a.t := s.live[a.t].(conn := Idle)],
           looper := s.looper + [Register(a.t)],
           log := s.log + [Readmitted(a.t)])
      else if o == Abort || a.left == 0 then GiveUp(w, [a])
      else w.(queue := Insert(s.queue, Attempt(a.t, s.now + RETRY_DELAY, a.left - 1)))
  }

  // ReconnectHandler::Stop after the join: drain the queue.
  function DoDrain(s: State): State {
    if s.running || s.thread == Waiting || s.thread.Trying? then s
    else GiveUp(s.(queue := []), s.queue)
  }

  function Next(s: State, step: Step): State {
    if s.fault then s
    else
      match step
      case RegisterSocket(serial, tcp) => DoRegisterSocket(s, serial, tcp)
      case PostRegister(t) => DoPostRegister(s, t)
      case ConnFails(t) => DoConnFails(s, t)
      case Kick(t) => DoKick(s, t)
      case RunClosure => DoRunClosure(s)
      case FinishRegister => DoFinishRegister(s)
      case StartHandler => if s.thread == Unstarted then s.(thread := Waiting) else s
      case Wake => DoWake(s)
      case Finish(o) => DoFinish(s, o)
      case StopHandler => s.(running := false)
      case Drain => DoDrain(s)
      case Tick(ms) => s.(now := s.now + ms)
  }

  function Run(steps: seq<Step>): State {
    if steps == [] then INIT else Next(Run(steps[..|steps| - 1]), steps[|steps| - 1])
  }

  // ----- The invariant, one transport at a time -----

  function One(b: bool): nat { if b then 1 else 0 }

  ghost predicate IsTrying(s: State, t: Tid) { s.thread.Trying? && s.thread.a.t == t }

  ghost predicate IsConnected(s: State, t: Tid) { t in s.live && s.live[t].conn == Live }

  // In how many hands is t?  A caller about to register it, a closure on the run queue, the threads
  // of its started adapter, the reconnect queue, the reconnect thread, or nobody any more.
  ghost function Holders(s: State, t: Tid): nat {
    One(t in s.posting) + One(IsConnected(s, t)) + One(IsTrying(s, t)) + One(t in s.dropped)
    + Occ(s.queue, t)
    + multiset(s.looper)[Register(t)] + multiset(s.looper)[Fail(t)] + multiset(s.looper)[Unregister(t)]
  }

  ghost predicate HeldOnce(s: State, t: Tid) { Holders(s, t) == One(t in s.live) }

  ghost predicate ListedOnce(s: State, t: Tid) {
    multiset(s.pending)[t] + multiset(s.list)[t] == One(t in s.live)
  }

  ghost predicate Settled(s: State, t: Tid) { t in s.list || s.starting == Some(t) }

  ghost predicate Reconnecting(s: State, t: Tid) { Occ(s.queue, t) > 0 || IsTrying(s, t) }

  ghost predicate Placed(s: State, t: Tid) {
    && (t in s.posting ==> t in s.live && s.live[t].conn == Idle && t in s.pending)
    && (Register(t) in s.looper ==> t in s.live && s.live[t].conn == Idle)
    && (IsConnected(s, t) ==> Settled(s, t))
    && (Fail(t) in s.looper ==> t in s.live && s.live[t].conn == Dead && Settled(s, t))
    && (Unregister(t) in s.looper || Reconnecting(s, t) || t in s.dropped ==>
          t in s.live && s.live[t].conn == Dead && t in s.list)
    && (s.starting == Some(t) ==> IsConnected(s, t) || Fail(t) in s.looper)
  }

  ghost predicate Fresh(s: State, t: Tid) {
    && (t in s.live || Deleted(t) in s.log ==> t < s.nextId)
    && multiset(s.log)[Deleted(t)] + One(t in s.live) <= 1
  }

  ghost predicate TInv(s: State, t: Tid) {
    HeldOnce(s, t) && ListedOnce(s, t) && Placed(s, t) && Fresh(s, t)
  }

  ghost predicate Inv(s: State) {
    !s.fault && forall t :: TInv(s, t)
  }

  // ----- Counting in the queue -----

  lemma {:induction false} OccInsert(q: seq<Attempt>, a: Attempt, t: Tid)
    requires Occ(q, a.t) == 0
    ensures Occ(Insert(q, a), t) == Occ(q, t) + One(t == a.t)
  {
    if q != [] && !Before(a, q[0]) && Before(q[0], a) {
      OccInsert(q[1..], a, t);
    }
  }

  lemma {:induction false} OccSplit(q: seq<Attempt>, live: map<Tid, Transport>, t: Tid)
    ensures Occ(Kept(q, live), t) + Occ(Kicked(q, live), t) == Occ(q, t)
    ensures Occ(Kept(q, live), t) == if IsKicked(live, t) then 0 else Occ(q, t)
  {
    if q != [] { OccSplit(q[1..], live, t); }
  }

  lemma {:induction false} OccMember(q: seq<Attempt>, i: nat)
    requires i < |q|
    ensures Occ(q, q[i].t) > 0
  {
    if i > 0 { OccMember(q[1..], i - 1); }
  }

  lemma {:induction false} RemovalsCount(q: seq<Attempt>, t: Tid)
    ensures multiset(Removals(q))[Unregister(t)] == Occ(q, t)
    ensures Register(t) !in Removals(q) && Fail(t) !in Removals(q)
  {
    if q != [] { RemovalsCount(q[1..], t); }
  }

  lemma {:induction false} FarewellsCount(q: seq<Attempt>, t: Tid)
    ensures multiset(Farewells(q))[GivenUp(t)] == Occ(q, t)
    ensures forall e :: e in Farewells(q) ==> e.GivenUp?
  {
    if q != [] { FarewellsCount(q[1..], t); }
  }

  lemma GiveUpFrame(s: State, q: seq<Attempt>, t: Tid)
    ensures
      var r := GiveUp(s, q);
      && r == s.(looper := r.looper, log := r.log)
      && multiset(r.looper)[Unregister(t)] == multiset(s.looper)[Unregister(t)] + Occ(q, t)
      && multiset(r.looper)[Register(t)] == multiset(s.looper)[Register(t)]
      && multiset(r.looper)[Fail(t)] == multiset(s.looper)[Fail(t)]
      && multiset(r.log)[GivenUp(t)] == multiset(s.log)[GivenUp(t)] + Occ(q, t)
      && multiset(r.log)[Deleted(t)] == multiset(s.log)[Deleted(t)]
      && multiset(r.log)[Tracked(t)] == multiset(s.log)[Tracked(t)]
      && multiset(r.log)[Readmitted(t)] == multiset(s.log)[Readmitted(t)]
      && (Deleted(t) in r.log <==> Deleted(t) in s.log)
  {
    GiveUpLooper(s.looper, q, t);
    GiveUpLog(s.log, q, t);
  }

  lemma GiveUpLooper(looper: seq<Closure>, q: seq<Attempt>, t: Tid)
    ensures
      var r := looper + Removals(q);
      && multiset(r)[Unregister(t)] == multiset(looper)[Unregister(t)] + Occ(q, t)
      && multiset(r)[Register(t)] == multiset(looper)[Register(t)]
      && multiset(r)[Fail(t)] == multiset(looper)[Fail(t)]
  {
    RemovalsCount(q, t);
  }

  lemma GiveUpLog(log: seq<Event>, q: seq<Attempt>, t: Tid)
    ensures
      var r := log + Farewells(q);
      && multiset(r)[GivenUp(t)] == multiset(log)[GivenUp(t)] + Occ(q, t)
      && multiset(r)[Deleted(t)] == multiset(log)[Deleted(t)]
      && multiset(r)[Tracked(t)] == multiset(log)[Tracked(t)]
      && multiset(r)[Readmitted(t)] == multiset(log)[Readmitted(t)]
      && (Deleted(t) in r <==> Deleted(t) in log)
  {
    FarewellsCount(q, t);
    assert Deleted(t) !in Farewells(q) && Tracked(t) !in Farewells(q) && Readmitted(t) !in Farewells(q);
  }

  lemma GiveUpOne(s: State, a: Attempt)
    ensures GiveUp(s, [a]) == s.(looper := s.looper + [Unregister(a.t)], log := s.log + [GivenUp(a.t)])
  {
    assert [a][1..] == [];
    assert Removals([a]) == [Unregister(a.t)] + Removals([]) && Farewells([a]) == [GivenUp(a.t)] + Farewells([]);
  }

  // ----- Every step keeps the invariant -----

  lemma RegisterSocketKeeps(s: State, serial: string, tcp: bool, t: Tid)
    requires Inv(s)
    ensures TInv(DoRegisterSocket(s, serial, tcp), t)
  {
    assert TInv(s, t) && TInv(s, s.nextId);
  }

  lemma PostRegisterKeeps(s: State, u: Tid, t: Tid)
    requires Inv(s)
    ensures TInv(DoPostRegister(s, u), t)
  {
    assert TInv(s, t) && TInv(s, u);
  }

  lemma ConnFailsKeeps(s: State, u: Tid, t: Tid)
    requires Inv(s)
    ensures TInv(DoConnFails(s, u), t)
  {
    assert TInv(s, t) && TInv(s, u);
  }

  lemma KickKeeps(s: State, u: Tid, t: Tid)
    requires Inv(s)
    ensures !DoKick(s, u).fault && TInv(DoKick(s, u), t)
  {
    assert TInv(s, t) && TInv(s, u);
  }

  lemma TrackKeeps(s: State, u: Tid, t: Tid)
    requires Inv(s) && s.looper != [] && s.looper[0] == Fail(u) && s.starting.None?
    ensures u in s.live && TInv(Track(s.(looper := s.looper[1..]), u), t)
  {
    assert TInv(s, t) && TInv(s, u);
    assert s.looper == [s.looper[0]] + s.looper[1..];
    OccInsert(s.queue, Attempt(u, s.now + GRACE, MAX_ATTEMPTS), t);
  }

  lemma RemoveAfterFailureKeeps(s: State, u: Tid, t: Tid)
    requires Inv(s) && s.looper != [] && s.looper[0] == Fail(u) && s.starting.None?
    ensures TInv(s.(looper := s.looper[1..] + [Unregister(u)]), t)
  {
    assert TInv(s, t) && TInv(s, u);
    assert s.looper == [s.looper[0]] + s.looper[1..];
  }

  lemma RegisterKeeps(s: State, u: Tid, t: Tid)
    requires Inv(s) && s.looper != [] && s.looper[0] == Register(u) && s.starting.None?
    ensures
      var r := DoClosure(s.(looper := s.looper[1..]), Register(u));
      !r.fault && TInv(r, t)
  {
    assert TInv(s, t) && TInv(s, u);
    assert s.looper == [s.looper[0]] + s.looper[1..];
  }

  lemma UnregisterKeeps(s: State, u: Tid, t: Tid)
    requires Inv(s) && s.looper != [] && s.looper[0] == Unregister(u) && s.starting.None?
    ensures
      var r := DoClosure(s.(looper := s.looper[1..]), Unregister(u));
      !r.fault && TInv(r, t)
  {
    assert TInv(s, t) && TInv(s, u);
    assert s.looper == [s.looper[0]] + s.looper[1..];
    RemoveCount(s.list, u);
  }

  lemma RunClosureKeeps(s: State, t: Tid)
    requires Inv(s)
    ensures !DoRunClosure(s).fault && TInv(DoRunClosure(s), t)
  {
    if s.looper != [] && s.starting.None? {
      match s.looper[0]
      case Register(u) => RegisterKeeps(s, u, t);
      case Unregister(u) => UnregisterKeeps(s, u, t);
      case Fail(u) =>
        TrackKeeps(s, u, t);
        RemoveAfterFailureKeeps(s, u, t);
    } else {
      assert TInv(s, t);
    }
  }

  lemma FinishRegisterKeeps(s: State, t: Tid)
    requires Inv(s)
    ensures TInv(DoFinishRegister(s), t)
  {
    assert TInv(s, t);
    if s.starting.Some? {
      assert TInv(s, s.starting.value);
      RemoveCount(s.pending, s.starting.value);
    }
  }

  // Kicked transports and drained transports move from the queue to the run queue.
  lemma GiveUpKeeps(s: State, kept: seq<Attempt>, gone: seq<Attempt>, t: Tid)
    requires TInv(s, t)
    requires Occ(kept, t) + Occ(gone, t) == Occ(s.queue, t)
    ensures TInv(GiveUp(s.(queue := kept), gone), t)
  {
    GiveUpFrame(s.(queue := kept), gone, t);
  }

  lemma TakeDueKeeps(s: State, t: Tid)
    requires TInv(s, t) && s.thread == Waiting
    ensures TInv(TakeDue(s), t)
  {
  }

  lemma QueueIsLive(s: State)
    requires Inv(s)
    ensures AllLive(s.queue, s.live)
  {
    forall i | 0 <= i < |s.queue| ensures s.queue[i].t in s.live {
      OccMember(s.queue, i);
      assert TInv(s, s.queue[i].t);
    }
  }

  lemma WakeKeeps(s: State, t: Tid)
    requires Inv(s)
    ensures !DoWake(s).fault && TInv(DoWake(s), t)
  {
    assert TInv(s, t);
    QueueIsLive(s);
    if s.thread == Waiting && s.running {
      var kept, gone := Kept(s.queue, s.live), Kicked(s.queue, s.live);
      OccSplit(s.queue, s.live, t);
      GiveUpKeeps(s, kept, gone, t);
      TakeDueKeeps(GiveUp(s.(queue := kept), gone), t);
    }
  }

  lemma DrainKeeps(s: State, t: Tid)
    requires Inv(s)
    ensures !DoDrain(s).fault && TInv(DoDrain(s), t)
  {
    assert TInv(s, t);
    GiveUpKeeps(s, [], s.queue, t);
  }

  lemma ReadmitKeeps(s: State, t: Tid)
    requires Inv(s) && s.thread.Trying?
    ensures
      var r := DoFinish(s, Success);
      !r.fault && TInv(r, t)
  {
    assert TInv(s, t) && TInv(s, s.thread.a.t);
  }

  lemma RetryKeeps(s: State, t: Tid)
    requires Inv(s) && s.thread.Trying? && s.thread.a.left > 0
    ensures
      var r := DoFinish(s, Retry);
      !r.fault && TInv(r, t)
  {
    var a := s.thread.a;
    assert TInv(s, t) && TInv(s, a.t);
    OccInsert(s.queue, Attempt(a.t, s.now + RETRY_DELAY, a.left - 1), t);
  }

  lemma AbandonKeeps(s: State, o: Outcome, t: Tid)
    requires Inv(s) && s.thread.Trying? && o != Success && (o == Abort || s.thread.a.left == 0)
    ensures
      var r := DoFinish(s, o);
      !r.fault && TInv(r, t)
  {
    var a := s.thread.a;
    assert TInv(s, t) && TInv(s, a.t);
    GiveUpOne(s.(thread := Waiting), a);
  }

  lemma NextKeeps(s: State, step: Step, t: Tid)
    requires Inv(s)
    ensures !Next(s, step).fault && TInv(Next(s, step), t)
  {
    match step
    case RegisterSocket(serial, tcp) => RegisterSocketKeeps(s, serial, tcp, t);
    case PostRegister(u) => PostRegisterKeeps(s, u, t);
    case ConnFails(u) => ConnFailsKeeps(s, u, t);
    case Kick(u) => KickKeeps(s, u, t);
    case RunClosure => RunClosureKeeps(s, t);
    case FinishRegister => FinishRegisterKeeps(s, t);
    case Wake => WakeKeeps(s, t);
    case Finish(o) => FinishKeeps(s, o, t);
    case Drain => DrainKeeps(s, t);
    case _ => ThreadKeeps(s, step, t);
  }

  lemma ThreadKeeps(s: State, step: Step, t: Tid)
    requires Inv(s) && (step.StartHandler? || step.StopHandler? || step.Tick?)
    ensures !Next(s, step).fault && TInv(Next(s, step), t)
  {
    assert TInv(s, t);
  }

  lemma FinishKeeps(s: State, o: Outcome, t: Tid)
    requires Inv(s)
    ensures !DoFinish(s, o).fault && TInv(DoFinish(s, o), t)
  {
    if !s.thread.Trying? {
      assert TInv(s, t);
    } else if o == Success {
      ReadmitKeeps(s, t);
    } else if o == Abort || s.thread.a.left == 0 {
      AbandonKeeps(s, o, t);
    } else {
      RetryKeeps(s, t);
    }
  }

  lemma {:induction false} RunKeeps(steps: seq<Step>)
    ensures Inv(Run(steps))
  {
    if steps == [] {
    } else {
      RunKeeps(steps[..|steps| - 1]);
      forall t ensures !Run(steps).fault && TInv(Run(steps), t) {
        NextKeeps(Run(steps[..|steps| - 1]), steps[|steps| - 1], t);
      }
      assert TInv(Run(steps), 0);
    }
  }
}
