// What the history of a run of TransportLifecycle says about the reconnect handler: conservation of
// the transports it accepted, the number and the time of the attempts, unique serials, and what
// ReconnectHandler::Stop leaves behind.
module ReconnectHistory {
  import opened TransportLifecycle

  // Reconnect() calls for t since TrackTransport last accepted it.
  function TriesSince(log: seq<Event>, t: Tid): nat {
    if log == [] then 0
    else
      match log[|log| - 1]
      case Tracked(u) => if u == t then 0 else TriesSince(log[..|log| - 1], t)
      case Tried(u, _, _) => One(u == t) + TriesSince(log[..|log| - 1], t)
      case _ => TriesSince(log[..|log| - 1], t)
  }

  // Each accepted track is in the queue, in flight, or was handed back exactly once.
  ghost predicate Conserved(s: State, t: Tid) {
    multiset(s.log)[Tracked(t)]
    == multiset(s.log)[Readmitted(t)] + multiset(s.log)[GivenUp(t)] + Occ(s.queue, t) + One(IsTrying(s, t))
  }

  ghost predicate Budgeted(s: State, t: Tid) {
    && TriesSince(s.log, t) <= MAX_ATTEMPTS + 1
    && (forall a :: a in s.queue && a.t == t ==> TriesSince(s.log, t) + a.left == MAX_ATTEMPTS)
    && (IsTrying(s, t) ==> TriesSince(s.log, t) + s.thread.a.left == MAX_ATTEMPTS + 1)
  }

  // Giving up is final: the transport waits for its deletion or has been deleted.
  ghost predicate GoneForGood(s: State, t: Tid) {
    multiset(s.log)[GivenUp(t)] <= multiset(s.looper)[Unregister(t)] + multiset(s.log)[Deleted(t)]
  }

  ghost predicate History(s: State, t: Tid) {
    Conserved(s, t) && Budgeted(s, t) && GoneForGood(s, t)
  }

  // No attempt starts before its reconnect_time.
  ghost predicate OnTime(log: seq<Event>) {
    forall i :: 0 <= i < |log| && log[i].Tried? ==> log[i].at >= log[i].due
  }

  ghost predicate DistinctSerials(s: State) {
    forall t, u :: t in s.live && u in s.live && t != u ==> s.live[t].serial != s.live[u].serial
  }

  ghost predicate Global(s: State) {
    && Sorted(s.queue)
    && OnTime(s.log)
    && DistinctSerials(s)
    && (s.thread == Exited || s.dropped != {} ==> !s.running)
  }

  ghost predicate HInv(s: State) {
    Inv(s) && Global(s) && forall t :: History(s, t)
  }

  // ----- Lemmas about the log and the queue -----

  lemma TriesAppend(log: seq<Event>, e: Event, t: Tid)
    ensures TriesSince(log + [e], t) ==
      if e == Tracked(t) then 0 else One(e.Tried? && e.t == t) + TriesSince(log, t)
  {
    assert (log + [e])[..|log|] == log;
  }

  lemma {:induction false} TriesGiveUp(log: seq<Event>, q: seq<Attempt>, t: Tid)
    ensures TriesSince(log + Farewells(q), t) == TriesSince(log, t)
    decreases |q|
  {
    if q == [] {
      assert log + Farewells(q) == log;
    } else {
      var (first, rest) := ([GivenUp(q[0].t)], Farewells(q[1..]));
      TriesAppend(log, GivenUp(q[0].t), t);
      TriesGiveUp(log + first, q[1..], t);
      assert log + (first + rest) == log + first + rest;
    }
  }

  lemma OnTimeGiveUp(log: seq<Event>, q: seq<Attempt>)
    requires OnTime(log)
    ensures OnTime(log + Farewells(q))
  {
    FarewellsCount(q, 0);
    forall i | |log| <= i < |log + Farewells(q)| ensures !(log + Farewells(q))[i].Tried? {
      assert (log + Farewells(q))[i] in Farewells(q);
    }
  }

  lemma {:induction false} InsertMembers(q: seq<Attempt>, a: Attempt, b: Attempt)
    requires b in Insert(q, a)
    ensures b in q || b == a
  {
    if q != [] && !Before(a, q[0]) && Before(q[0], a) && b != q[0] {
      InsertMembers(q[1..], a, b);
    }
  }

  lemma {:induction false} InsertSorted(q: seq<Attempt>, a: Attempt)
    requires Sorted(q)
    ensures Sorted(Insert(q, a))
  {
    if q != [] && !Before(a, q[0]) && Before(q[0], a) {
      InsertSorted(q[1..], a);
      var r := Insert(q[1..], a);
      forall i | 0 <= i < |r| ensures Before(q[0], r[i]) { InsertMembers(q[1..], a, r[i]); }
    }
  }

  lemma {:induction false} KeptMembers(q: seq<Attempt>, live: map<Tid, Transport>, b: Attempt)
    requires b in Kept(q, live)
    ensures b in q
  {
    if q != [] && b in Kept(q[1..], live) { KeptMembers(q[1..], live, b); }
  }

  lemma {:induction false} KeptSorted(q: seq<Attempt>, live: map<Tid, Transport>)
    requires Sorted(q)
    ensures Sorted(Kept(q, live))
  {
    if q != [] {
      KeptSorted(q[1..], live);
      var r := Kept(q[1..], live);
      forall i | 0 <= i < |r| ensures Before(q[0], r[i]) { KeptMembers(q[1..], live, r[i]); }
    }
  }

  lemma NotQueued(q: seq<Attempt>, t: Tid)
    requires Occ(q, t) == 0
    ensures forall a :: a in q ==> a.t != t
  {
    forall a | a in q ensures a.t != t {
      var i :| 0 <= i < |q| && q[i] == a;
      OccMember(q, i);
    }
  }

  // ----- Steps keep the history -----

  lemma TrackHistory(s: State, u: Tid, t: Tid)
    requires HInv(s) && s.looper != [] && s.looper[0] == Fail(u) && s.starting.None?
    ensures u in s.live && History(Track(s.(looper := s.looper[1..]), u), t)
  {
    assert TInv(s, u) && TInv(s, t) && History(s, t);
    assert s.looper == [s.looper[0]] + s.looper[1..];
    var a := Attempt(u, s.now + GRACE, MAX_ATTEMPTS);
    OccInsert(s.queue, a, t);
    TriesAppend(s.log, Tracked(u), t);
    NotQueued(s.queue, u);
    forall b | b in Insert(s.queue, a) ensures b in s.queue || b == a { InsertMembers(s.queue, a, b); }
  }

  lemma RemoveAfterFailureHistory(s: State, u: Tid, t: Tid)
    requires History(s, t) && s.looper != [] && s.looper[0] == Fail(u)
    ensures History(s.(looper := s.looper[1..] + [Unregister(u)]), t)
  {
    assert s.looper == [s.looper[0]] + s.looper[1..];
  }

  lemma RegisterHistory(s: State, u: Tid, t: Tid)
    requires HInv(s) && s.looper != [] && s.looper[0] == Register(u) && s.starting.None?
    ensures History(DoClosure(s.(looper := s.looper[1..]), Register(u)), t)
  {
    assert TInv(s, u) && History(s, t);
    assert s.looper == [s.looper[0]] + s.looper[1..];
  }

  lemma UnregisterHistory(s: State, u: Tid, t: Tid)
    requires HInv(s) && s.looper != [] && s.looper[0] == Unregister(u) && s.starting.None?
    ensures History(DoClosure(s.(looper := s.looper[1..]), Unregister(u)), t)
  {
    assert TInv(s, u) && History(s, t);
    assert s.looper == [s.looper[0]] + s.looper[1..];
    TriesAppend(s.log, Deleted(u), t);
  }

  lemma RunClosureHistory(s: State, t: Tid)
    requires HInv(s)
    ensures History(DoRunClosure(s), t)
  {
    assert History(s, t);
    if s.looper != [] && s.starting.None? {
      match s.looper[0]
      case Register(u) => RegisterHistory(s, u, t);
      case Unregister(u) => UnregisterHistory(s, u, t);
      case Fail(u) =>
        TrackHistory(s, u, t);
        RemoveAfterFailureHistory(s, u, t);
    }
  }

  lemma GiveUpHistory(s: State, kept: seq<Attempt>, gone: seq<Attempt>, t: Tid)
    requires History(s, t)
    requires Occ(kept, t) + Occ(gone, t) == Occ(s.queue, t)
    requires forall a :: a in kept ==> a in s.queue
    ensures History(GiveUp(s.(queue := kept), gone), t)
  {
    TriesGiveUp(s.log, gone, t);
    GiveUpFrame(s.(queue := kept), gone, t);
  }

  lemma TakeDueHistory(s: State, t: Tid)
    requires TInv(s, t) && History(s, t) && s.thread == Waiting
    requires s.queue != [] ==> TInv(s, s.queue[0].t)
    ensures History(TakeDue(s), t)
  {
    if s.queue != [] && s.queue[0].due <= s.now {
      var a := s.queue[0];
      NotQueued(s.queue[1..], a.t);
      TakeDueConserves(s, t);
      TakeDueSpends(s, t);
      assert (s.log + [Tried(a.t, a.due, s.now)])[..|s.log|] == s.log;
    }
  }

  lemma TakeDueConserves(s: State, t: Tid)
    requires Conserved(s, t) && s.thread == Waiting && s.queue != [] && s.queue[0].due <= s.now
    ensures Conserved(TakeDue(s), t)
  {
  }

  lemma TakeDueSpends(s: State, t: Tid)
    requires Budgeted(s, t) && s.thread == Waiting && s.queue != [] && s.queue[0].due <= s.now
    requires Occ(s.queue[1..], s.queue[0].t) == 0
    ensures Budgeted(TakeDue(s), t)
  {
    var a := s.queue[0];
    TriesAppend(s.log, Tried(a.t, a.due, s.now), t);
    NotQueued(s.queue[1..], a.t);
  }

  lemma WakeHistory(s: State, t: Tid)
    requires HInv(s)
    ensures History(DoWake(s), t)
  {
    assert History(s, t);
    QueueIsLive(s);
    if s.thread == Waiting && s.running {
      var kept, gone := Kept(s.queue, s.live), Kicked(s.queue, s.live);
      var r := GiveUp(s.(queue := kept), gone);
      OccSplit(s.queue, s.live, t);
      forall a | a in kept ensures a in s.queue { KeptMembers(s.queue, s.live, a); }
      GiveUpHistory(s, kept, gone, t);
      forall u ensures TInv(r, u) {
        assert TInv(s, u);
        OccSplit(s.queue, s.live, u);
        GiveUpKeeps(s, kept, gone, u);
      }
      TakeDueHistory(r, t);
    }
  }

  lemma DrainHistory(s: State, t: Tid)
    requires HInv(s)
    ensures History(DoDrain(s), t)
  {
    assert History(s, t);
    GiveUpHistory(s, [], s.queue, t);
  }

  lemma FinishHistory(s: State, o: Outcome, t: Tid)
    requires HInv(s)
    ensures History(DoFinish(s, o), t)
  {
    assert History(s, t) && TInv(s, t);
    if s.thread.Trying? {
      var a := s.thread.a;
      assert TInv(s, a.t);
      if o == Success {
        TriesAppend(s.log, Readmitted(a.t), t);
      } else if o == Abort || a.left == 0 {
        AbandonHistory(s, t);
      } else {
        RetryHistory(s, t);
      }
    }
  }

  lemma AbandonHistory(s: State, t: Tid)
    requires HInv(s) && s.thread.Trying?
    ensures History(GiveUp(s.(thread := Waiting), [s.thread.a]), t)
  {
    var a := s.thread.a;
    assert History(s, t) && TInv(s, t) && TInv(s, a.t);
    GiveUpFrame(s.(thread := Waiting), [a], t);
    TriesGiveUp(s.log, [a], t);
  }

  lemma RetryHistory(s: State, t: Tid)
    requires HInv(s) && s.thread.Trying? && s.thread.a.left > 0
    ensures History(DoFinish(s, Retry), t)
  {
    var a := s.thread.a;
    var b := Attempt(a.t, s.now + RETRY_DELAY, a.left - 1);
    assert History(s, t) && TInv(s, t) && TInv(s, a.t);
    OccInsert(s.queue, b, t);
    NotQueued(s.queue, a.t);
    forall c | c in Insert(s.queue, b) ensures c in s.queue || c == b { InsertMembers(s.queue, b, c); }
  }

  // Steps that leave the queue, the reconnect thread and the log alone.
  lemma QuietHistory(s: State, r: State, t: Tid)
    requires History(s, t)
    requires r.queue == s.queue && r.log == s.log
    requires r.thread == s.thread || (!r.thread.Trying? && !s.thread.Trying?)
    requires multiset(s.looper)[Unregister(t)] <= multiset(r.looper)[Unregister(t)]
    ensures History(r, t)
  {
  }

  lemma RegisterSocketHistory(s: State, serial: string, tcp: bool, t: Tid)
    requires HInv(s)
    ensures History(DoRegisterSocket(s, serial, tcp), t)
  {
    assert History(s, t);
    TriesAppend(s.log, Deleted(s.nextId), t);
  }

  // Steps that leave the reconnect handler alone.
  predicate IsQuiet(step: Step) {
    step.PostRegister? || step.ConnFails? || step.Kick? || step.FinishRegister?
    || step.StartHandler? || step.StopHandler? || step.Tick?
  }

  lemma QuietStepHistory(s: State, step: Step, t: Tid)
    requires History(s, t) && IsQuiet(step)
    ensures History(Next(s, step), t)
  {
    QuietHistory(s, Next(s, step), t);
  }

  lemma NextHistory(s: State, step: Step, t: Tid)
    requires HInv(s)
    ensures History(Next(s, step), t)
  {
    if IsQuiet(step) {
      assert History(s, t);
      QuietStepHistory(s, step, t);
    } else {
      match step
      case RegisterSocket(serial, tcp) => RegisterSocketHistory(s, serial, tcp, t);
      case RunClosure => RunClosureHistory(s, t);
      case Wake => WakeHistory(s, t);
      case Finish(o) => FinishHistory(s, o, t);
      case Drain => DrainHistory(s, t);
    }
  }

  // ----- The global part -----

  lemma SerialFree(s: State, serial: string)
    requires Inv(s) && !SerialIn(s.pending, s.live, serial) && !SerialIn(s.list, s.live, serial)
    ensures forall t :: t in s.live ==> s.live[t].serial != serial
  {
    forall t | t in s.live ensures s.live[t].serial != serial {
      assert TInv(s, t);
      assert t in s.pending || t in s.list;
    }
  }

  lemma RegisterSocketGlobal(s: State, serial: string, tcp: bool)
    requires HInv(s)
    ensures Global(DoRegisterSocket(s, serial, tcp))
  {
    if !SerialIn(s.pending, s.live, serial) && !SerialIn(s.list, s.live, serial) {
      SerialFree(s, serial);
    }
  }

  lemma RunClosureGlobal(s: State)
    requires HInv(s)
    ensures Global(DoRunClosure(s))
  {
    if s.looper != [] && s.looper[0].Fail? {
      InsertSorted(s.queue, Attempt(s.looper[0].t, s.now + GRACE, MAX_ATTEMPTS));
    }
  }

  lemma WakeGlobal(s: State)
    requires HInv(s)
    ensures Global(DoWake(s))
  {
    QueueIsLive(s);
    if s.thread == Waiting && s.running {
      var kept, gone := Kept(s.queue, s.live), Kicked(s.queue, s.live);
      KeptSorted(s.queue, s.live);
      OnTimeGiveUp(s.log, gone);
    }
  }

  lemma FinishGlobal(s: State, o: Outcome)
    requires HInv(s)
    ensures Global(DoFinish(s, o))
  {
    if s.thread.Trying? {
      var a := s.thread.a;
      assert TInv(s, a.t);
      if o == Abort || (o == Retry && a.left == 0) {
        OnTimeGiveUp(s.log, [a]);
      } else if o == Retry {
        InsertSorted(s.queue, Attempt(a.t, s.now + RETRY_DELAY, a.left - 1));
      }
    }
  }

  lemma NextGlobal(s: State, step: Step)
    requires HInv(s)
    ensures Global(Next(s, step))
  {
    match step
    case RegisterSocket(serial, tcp) => RegisterSocketGlobal(s, serial, tcp);
    case RunClosure => RunClosureGlobal(s);
    case Wake => WakeGlobal(s);
    case Finish(o) => FinishGlobal(s, o);
    case Drain =>
      OnTimeGiveUp(s.log, s.queue);
    case _ =>
  }

  lemma {:induction false} RunHistory(steps: seq<Step>)
    ensures HInv(Run(steps))
  {
    RunKeeps(steps);
    if steps != [] {
      var s := Run(steps[..|steps| - 1]);
      RunHistory(steps[..|steps| - 1]);
      NextGlobal(s, steps[|steps| - 1]);
      forall t ensures History(Run(steps), t) { NextHistory(s, steps[|steps| - 1], t); }
    }
  }

  // ----- Main results -----

  // In every reachable state the two lists are duplicate-free and disjoint and hold exactly the
  // allocated transports, no two of which have the same serial.
  lemma ListsAreConsistent(steps: seq<Step>)
    ensures
      var s := Run(steps);
      && (forall t :: multiset(s.pending + s.list)[t] == One(t in s.live))
      && (forall t :: t in s.pending || t in s.list <==> t in s.live)
      && (forall i, j :: 0 <= i < j < |s.pending| ==> s.pending[i] != s.pending[j])
      && (forall i, j :: 0 <= i < j < |s.list| ==> s.list[i] != s.list[j])
      && (forall t :: !(t in s.pending && t in s.list))
      && (forall t, u :: t in s.live && u in s.live && s.live[t].serial == s.live[u].serial ==> t == u)
  {
    RunHistory(steps);
    var s := Run(steps);
    forall t ensures multiset(s.pending)[t] + multiset(s.list)[t] == One(t in s.live) { assert TInv(s, t); }
    NoDuplicates(s.pending);
    NoDuplicates(s.list);
  }

  lemma NoDuplicates<T>(xs: seq<T>)
    requires forall x :: multiset(xs)[x] <= 1
    ensures forall i, j :: 0 <= i < j < |xs| ==> xs[i] != xs[j]
  {
    forall i, j | 0 <= i < j < |xs| ensures xs[i] != xs[j] {
      var a, b := xs[..j], xs[j..];
      assert xs == a + b && xs[i] == a[i] && xs[j] == b[0];
      assert multiset(xs)[xs[i]] == multiset(a)[xs[i]] + multiset(b)[xs[i]];
    }
  }

  // No list, no queue entry, neither the reconnect thread nor a closure that registers, fails or removes a
  // transport ever holds a deleted one, nothing is deleted twice, no adapter is started twice, and what waits
  // for reconnection is in transport_list.  (The closures for received packets: see PacketLifetime.)
  lemma NothingIsUsedAfterDeletion(steps: seq<Step>, t: Tid)
    ensures
      var s := Run(steps);
      && !s.fault
      && multiset(s.log)[Deleted(t)] <= 1
      && (Deleted(t) in s.log ==>
            && t !in s.pending && t !in s.list && t !in s.posting && t !in s.dropped
            && Occ(s.queue, t) == 0 && !IsTrying(s, t)
            && Register(t) !in s.looper && Fail(t) !in s.looper && Unregister(t) !in s.looper)
      && (Reconnecting(s, t) ==> t in s.list && t in s.live && s.live[t].conn == Dead)
  {
    RunHistory(steps);
    assert TInv(Run(steps), t);
  }

  // An allocated transport is in exactly one hand, so nothing is lost without being dropped by a
  // stopped reconnect handler.
  lemma NothingIsLost(steps: seq<Step>, t: Tid)
    ensures
      var s := Run(steps);
      && Holders(s, t) == One(t in s.live)
      && (t in s.dropped ==> !s.running)
  {
    RunHistory(steps);
    assert TInv(Run(steps), t);
  }

  // ----- Which transports are tried again -----

  lemma {:induction false} InsertAdds(q: seq<Attempt>, a: Attempt)
    requires forall b :: b in q ==> b.t != a.t
    ensures multiset(Insert(q, a)) == multiset(q) + multiset{a}
  {
    if q != [] {
      assert q == [q[0]] + q[1..];
      if !Before(a, q[0]) { InsertAdds(q[1..], a); }
    }
  }

  // A step makes the handler accept or drop t exactly when the looper runs the closure of a lost connection of t,
  // and t is a TCP device that nobody has kicked.
  lemma TrackingStep(s: State, step: Step, t: Tid)
    requires Inv(s)
    ensures
      var r := Next(s, step);
      (multiset(r.log)[Tracked(t)] != multiset(s.log)[Tracked(t)] || (t in r.dropped && t !in s.dropped)) <==>
        && step == RunClosure && s.starting.None? && s.looper != [] && s.looper[0] == Fail(t)
        && t in s.live && s.live[t].tcp && !s.live[t].kicked
  {
    if step == RunClosure {
      TrackingClosure(s, t);
    } else {
      NotTracked(s, step, t);
    }
  }

  lemma TrackingClosure(s: State, t: Tid)
    requires Inv(s)
    ensures
      var r := DoRunClosure(s);
      (multiset(r.log)[Tracked(t)] != multiset(s.log)[Tracked(t)] || (t in r.dropped && t !in s.dropped)) <==>
        && s.starting.None? && s.looper != [] && s.looper[0] == Fail(t)
        && t in s.live && s.live[t].tcp && !s.live[t].kicked
  {
    if s.looper != [] && s.starting.None? {
      match s.looper[0]
      case Fail(u) =>
        assert HeldOnce(s, u) by { assert TInv(s, u); }
        assert s.looper == [s.looper[0]] + s.looper[1..];
      case _ =>
    }
  }

  lemma NotTracked(s: State, step: Step, t: Tid)
    requires step != RunClosure
    ensures multiset(Next(s, step).log)[Tracked(t)] == multiset(s.log)[Tracked(t)] && Next(s, step).dropped == s.dropped
  {
    if s.fault {
    } else if step.Wake? {
      WakeNotTracked(s, t);
    } else if step.Finish? {
      FinishNotTracked(s, step.o, t);
    } else if step.Drain? {
      GiveUpLog(s.log, s.queue, t);
    } else {
      OthersNotTracked(s, step, t);
    }
  }

  lemma WakeNotTracked(s: State, t: Tid)
    ensures multiset(DoWake(s).log)[Tracked(t)] == multiset(s.log)[Tracked(t)] && DoWake(s).dropped == s.dropped
  {
    var r := GiveUp(s.(queue := Kept(s.queue, s.live)), Kicked(s.queue, s.live));
    GiveUpLog(s.log, Kicked(s.queue, s.live), t);
    TakeDueNotTracked(r, t);
  }

  lemma TakeDueNotTracked(s: State, t: Tid)
    ensures multiset(TakeDue(s).log)[Tracked(t)] == multiset(s.log)[Tracked(t)] && TakeDue(s).dropped == s.dropped
  {
  }

  lemma FinishNotTracked(s: State, o: Outcome, t: Tid)
    ensures multiset(DoFinish(s, o).log)[Tracked(t)] == multiset(s.log)[Tracked(t)]
    ensures DoFinish(s, o).dropped == s.dropped
  {
    if s.thread.Trying? {
      var a := s.thread.a;
      assert multiset(s.log + [Readmitted(a.t)])[Tracked(t)] == multiset(s.log)[Tracked(t)];
      assert multiset(s.log + [GivenUp(a.t)])[Tracked(t)] == multiset(s.log)[Tracked(t)];
      GiveUpOne(s.(thread := Waiting), a);
      assert DoFinish(s, o).log in {s.log, s.log + [Readmitted(a.t)], s.log + [GivenUp(a.t)]};
    }
  }

  lemma OthersNotTracked(s: State, step: Step, t: Tid)
    requires !step.RunClosure? && !step.Wake? && !step.Finish? && !step.Drain?
    ensures multiset(Next(s, step).log)[Tracked(t)] == multiset(s.log)[Tracked(t)] && Next(s, step).dropped == s.dropped
  {
  }

  lemma OnlyTcpIsTracked(steps: seq<Step>, step: Step, t: Tid)
    ensures
      var (s, r) := (Run(steps), Next(Run(steps), step));
      (multiset(r.log)[Tracked(t)] != multiset(s.log)[Tracked(t)] || (t in r.dropped && t !in s.dropped)) <==>
        && step == RunClosure && s.starting.None? && s.looper != [] && s.looper[0] == Fail(t)
        && t in s.live && s.live[t].tcp && !s.live[t].kicked
  {
    RunKeeps(steps);
    TrackingStep(Run(steps), step, t);
  }

  // A TCP device that was not kicked is tried again in 250 ms, with 20 attempts left after the first; nothing is
  // queued on the looper for it.
  lemma LostTcpIsQueued(steps: seq<Step>, s: State, t: Tid)
    requires s == Run(steps) && s.looper != [] && s.looper[0] == Fail(t) && s.starting.None?
    ensures
      var r := Next(s, RunClosure);
      && t in s.live
      && (s.live[t].tcp && !s.live[t].kicked && s.running ==>
            && multiset(r.queue) == multiset(s.queue) + multiset{Attempt(t, s.now + 250, 20)}
            && Sorted(r.queue) && r.looper == s.looper[1..])
  {
    assert HInv(s) by { RunHistory(steps); }
    LostTcpStep(s, t);
  }

  lemma LostTcpStep(s: State, t: Tid)
    requires HInv(s) && s.looper != [] && s.looper[0] == Fail(t) && s.starting.None?
    ensures
      var r := Next(s, RunClosure);
      && t in s.live
      && (s.live[t].tcp && !s.live[t].kicked && s.running ==>
            && multiset(r.queue) == multiset(s.queue) + multiset{Attempt(t, s.now + 250, 20)}
            && Sorted(r.queue) && r.looper == s.looper[1..])
  {
    HeldByFail(s, t);
    var a := Attempt(t, s.now + GRACE, MAX_ATTEMPTS);
    assert multiset(Insert(s.queue, a)) == multiset(s.queue) + multiset{a} && Sorted(Insert(s.queue, a)) by {
      NotQueued(s.queue, t);
      InsertAdds(s.queue, a);
      InsertSorted(s.queue, a);
    }
    assert Next(s, RunClosure) == DoClosure(s.(looper := s.looper[1..]), Fail(t));
  }

  lemma HeldByFail(s: State, t: Tid)
    requires Inv(s) && Fail(t) in s.looper
    ensures t in s.live && Occ(s.queue, t) == 0 && Unregister(t) !in s.looper
  {
    assert TInv(s, t);
  }

  // Every other transport is removed: at once the removal is queued, and from then on it is queued or done, and
  // the handler never accepts the transport again.
  lemma OtherLostIsRemoved(steps: seq<Step>, t: Tid, more: seq<Step>)
    requires Run(steps).looper != [] && Run(steps).looper[0] == Fail(t) && Run(steps).starting.None?
    requires t in Run(steps).live ==> !Run(steps).live[t].tcp || Run(steps).live[t].kicked
    ensures
      var (s, r) := (Run(steps), Next(Run(steps), RunClosure));
      && r.looper == s.looper[1..] + [Unregister(t)] && r.queue == s.queue
      && (var e := Continue(r, more);
          && (Unregister(t) in e.looper || Deleted(t) in e.log)
          && multiset(e.log)[Tracked(t)] == multiset(s.log)[Tracked(t)])
  {
    RunKeeps(steps);
    RunKeeps(steps + [RunClosure]);
    assert (steps + [RunClosure])[..|steps|] == steps;
    assert TInv(Run(steps), t);
    RemovalStays(Next(Run(steps), RunClosure), more, t);
  }

  lemma {:induction false} RemovalStays(s: State, more: seq<Step>, t: Tid)
    requires Inv(s) && (Unregister(t) in s.looper || Deleted(t) in s.log)
    ensures
      var e := Continue(s, more);
      && (Unregister(t) in e.looper || Deleted(t) in e.log)
      && multiset(e.log)[Tracked(t)] == multiset(s.log)[Tracked(t)]
    decreases |more|
  {
    if more != [] {
      var r := Next(s, more[0]);
      forall u ensures !r.fault && TInv(r, u) { NextKeeps(s, more[0], u); }
      assert TInv(r, 0);
      TrackingStep(s, more[0], t);
      assert TInv(s, t);
      RemovalStep(s, more[0], t);
      RemovalStays(r, more[1..], t);
    }
  }

  lemma RemovalStep(s: State, step: Step, t: Tid)
    requires Inv(s) && (Unregister(t) in s.looper || Deleted(t) in s.log)
    ensures Unregister(t) in Next(s, step).looper || Deleted(t) in Next(s, step).log
  {
    if step != RunClosure {
      NothingIsTakenBack(s, step);
    } else if s.looper != [] && s.starting.None? {
      assert s.looper[0].t in s.live by { assert TInv(s, s.looper[0].t); }
      assert s.looper == [s.looper[0]] + s.looper[1..];
    }
  }

  lemma NothingIsTakenBack(s: State, step: Step)
    requires step != RunClosure
    ensures s.looper <= Next(s, step).looper && s.log <= Next(s, step).log
  {
  }

  // TrackTransport conserves: accepted = readmitted + given up + queued + in flight; a transport is
  // given up at most once, is tried at most 21 times per track, and never before its deadline.
  lemma TrackingIsConserved(steps: seq<Step>, t: Tid)
    ensures
      var s := Run(steps);
      && multiset(s.log)[Tracked(t)] ==
           multiset(s.log)[Readmitted(t)] + multiset(s.log)[GivenUp(t)] + Occ(s.queue, t) + One(IsTrying(s, t))
      && Occ(s.queue, t) + One(IsTrying(s, t)) <= 1
      && multiset(s.log)[GivenUp(t)] <= 1
      && TriesSince(s.log, t) <= 21
      && (forall i :: 0 <= i < |s.log| && s.log[i].Tried? ==> s.log[i].due <= s.log[i].at)
  {
    RunHistory(steps);
    var s := Run(steps);
    assert TInv(s, t) && History(s, t);
  }

  // The reconnect thread takes a transport that is due, was not kicked, and has the least deadline.
  lemma TheEarliestIsTried(steps: seq<Step>)
    requires Run(steps).thread == Waiting && Next(Run(steps), Wake).thread.Trying?
    ensures
      var s := Run(steps);
      var a := Next(s, Wake).thread.a;
      && a in s.queue && a.due <= s.now && a.t in s.live && !s.live[a.t].kicked
      && (forall b :: b in s.queue && !IsKicked(s.live, b.t) ==> b == a || Before(a, b))
  {
    RunHistory(steps);
    var s := Run(steps);
    QueueIsLive(s);
    var kept := Kept(s.queue, s.live);
    KeptSorted(s.queue, s.live);
    KeptMembers(s.queue, s.live, kept[0]);
    KeptNotKicked(s.queue, s.live, kept[0]);
    forall b | b in s.queue && !IsKicked(s.live, b.t) ensures b == kept[0] || Before(kept[0], b) {
      NotKickedIsKept(s.queue, s.live, b);
    }
  }

  lemma {:induction false} KeptNotKicked(q: seq<Attempt>, live: map<Tid, Transport>, b: Attempt)
    requires b in Kept(q, live)
    ensures !IsKicked(live, b.t)
  {
    if q != [] && b in Kept(q[1..], live) { KeptNotKicked(q[1..], live, b); }
  }

  lemma {:induction false} NotKickedIsKept(q: seq<Attempt>, live: map<Tid, Transport>, b: Attempt)
    requires b in q && !IsKicked(live, b.t)
    ensures b in Kept(q, live)
  {
    if q[0] != b { NotKickedIsKept(q[1..], live, b); }
  }

  // Stop has drained the queue, and the reconnect thread is not at an attempt: it was never started, it has
  // ended, or it will find running_ false.
  predicate Halted(s: State) {
    !s.running && s.queue == [] && !s.thread.Trying?
  }

  // After that nothing is queued or tried any more, whatever happens.
  lemma {:induction false} StopIsFinal(s: State, steps: seq<Step>)
    requires Halted(s)
    ensures Halted(Continue(s, steps))
    decreases |steps|
  {
    if steps != [] { StopIsFinal(Next(s, steps[0]), steps[1..]); }
  }

  function Continue(s: State, steps: seq<Step>): State
    decreases |steps|
  {
    if steps == [] then s else Continue(Next(s, steps[0]), steps[1..])
  }

  // Stop drains after clearing running_ and joining the thread if there is one: it halts the handler from
  // every reachable state, started or not.
  lemma DrainStops(steps: seq<Step>)
    requires !Run(steps).running && !Run(steps).thread.Waiting? && !Run(steps).thread.Trying?
    ensures Halted(Next(Run(steps), Drain))
    ensures Next(Run(steps), Drain).looper == Run(steps).looper + Removals(Run(steps).queue)
  {
    RunHistory(steps);
  }
}
