// The globals of porting/adb/transport.cpp and the functions that update them.  Each method is one
// atomic region of the source; its contract is the matching step of TransportLifecycle.
module TransportServer {
  import opened Base
  import opened TransportLifecycle
  import opened ReconnectHistory

  lemma StepKeeps(s: State, step: Step)
    requires HInv(s)
    ensures HInv(Next(s, step))
  {
    NextGlobal(s, step);
    forall t ensures !Next(s, step).fault && TInv(Next(s, step), t) && History(Next(s, step), t) {
      NextKeeps(s, step, t);
      NextHistory(s, step, t);
    }
    assert TInv(Next(s, step), 0);
  }

  // A serial is taken in one of the lists exactly when an allocated transport has it.
  lemma SerialTaken(s: State, serial: string)
    requires HInv(s)
    ensures SerialIn(s.pending, s.live, serial) || SerialIn(s.list, s.live, serial) <==>
            exists t :: t in s.live && s.live[t].serial == serial
  {
    if !SerialIn(s.pending, s.live, serial) && !SerialIn(s.list, s.live, serial) {
      SerialFree(s, serial);
    }
  }

  // In the lists there are allocated transports only.
  lemma ListedIsLive(s: State)
    requires HInv(s)
    ensures forall t :: t in s.pending || t in s.list ==> t in s.live
  {
    forall t | t in s.pending || t in s.list ensures t in s.live { assert TInv(s, t); }
  }

  lemma FinishLists(s: State, t: Tid)
    requires HInv(s) && s.starting == Some(t)
    ensures t in Next(s, FinishRegister).list && t !in Next(s, FinishRegister).pending
  {
    assert TInv(s, t);
    RemoveMember(s.pending, t, t);
  }

  lemma {:induction false} InsertNext(q: seq<Attempt>, a: Attempt, i: nat)
    requires i < |q| && Before(q[i], a) && Insert(q, a) == q[..i] + Insert(q[i..], a)
    ensures Insert(q, a) == q[..i + 1] + Insert(q[i + 1..], a)
  {
    assert q[i..][1..] == q[i + 1..];
    assert Insert(q[i..], a) == [q[i]] + Insert(q[i + 1..], a);
    Assoc(q[..i], [q[i]], Insert(q[i + 1..], a));
    TakeNext(q, i);
  }

  // The scan for kicked transports has kept `done` and has not looked at `rest` yet.
  ghost predicate Scanned(q: seq<Attempt>, live: map<Tid, Transport>, done: seq<Attempt>, rest: seq<Attempt>,
                          looper0: seq<Closure>, looper: seq<Closure>, log0: seq<Event>, log: seq<Event>)
  {
    && Kept(q, live) == done + Kept(rest, live)
    && looper0 + Removals(Kicked(q, live)) == looper + Removals(Kicked(rest, live))
    && log0 + Farewells(Kicked(q, live)) == log + Farewells(Kicked(rest, live))
  }

  lemma ScanOne(q: seq<Attempt>, live: map<Tid, Transport>, done: seq<Attempt>, rest: seq<Attempt>,
                looper0: seq<Closure>, looper: seq<Closure>, log0: seq<Event>, log: seq<Event>)
    requires rest != [] && Scanned(q, live, done, rest, looper0, looper, log0, log)
    ensures
      var a := rest[0];
      if IsKicked(live, a.t) then
        Scanned(q, live, done, rest[1..], looper0, looper + [Unregister(a.t)], log0, log + [GivenUp(a.t)])
      else
        Scanned(q, live, done + [a], rest[1..], looper0, looper, log0, log)
  {
    var a := rest[0];
    if IsKicked(live, a.t) {
      var k := Kicked(rest[1..], live);
      assert Kicked(rest, live) == [a] + k;
      GiveUpNext(looper, log, a, k);
    } else {
      var k := Kept(rest[1..], live);
      assert Kept(rest, live) == [a] + k;
      assert done + ([a] + k) == done + [a] + k;
    }
  }

  lemma GiveUpNext(looper: seq<Closure>, log: seq<Event>, a: Attempt, q: seq<Attempt>)
    ensures looper + Removals([a] + q) == looper + [Unregister(a.t)] + Removals(q)
    ensures log + Farewells([a] + q) == log + [GivenUp(a.t)] + Farewells(q)
  {
    assert ([a] + q)[1..] == q;
    assert looper + ([Unregister(a.t)] + Removals(q)) == looper + [Unregister(a.t)] + Removals(q);
    assert log + ([GivenUp(a.t)] + Farewells(q)) == log + [GivenUp(a.t)] + Farewells(q);
  }

  lemma {:induction false} RemovalsAre(q: seq<Attempt>)
    ensures |Removals(q)| == |q| && forall i :: 0 <= i < |q| ==> Removals(q)[i] == Unregister(q[i].t)
  {
    if q != [] { RemovalsAre(q[1..]); }
  }

  lemma RemovalsAppended(looper: seq<Closure>, q: seq<Attempt>)
    ensures
      var r := looper + Removals(q);
      && |r| == |looper| + |q| && looper <= r
      && forall i :: 0 <= i < |q| ==> r[|looper| + i] == Unregister(q[i].t)
  {
    RemovalsAre(q);
  }

  lemma {:induction false} KickedMembers(q: seq<Attempt>, live: map<Tid, Transport>, a: Attempt)
    ensures a in Kicked(q, live) <==> a in q && IsKicked(live, a.t)
  {
    if q != [] { KickedMembers(q[1..], live, a); }
  }

  lemma KickedRemovals(q: seq<Attempt>, live: map<Tid, Transport>)
    ensures
      var gone := Removals(Kicked(q, live));
      && (forall c :: c in gone ==> c.Unregister?)
      && (forall t :: Unregister(t) in gone <==> exists a :: a in q && a.t == t && t in live && live[t].kicked)
  {
    var k := Kicked(q, live);
    RemovalsAre(k);
    forall t ensures Unregister(t) in Removals(k) <==> exists a :: a in q && a.t == t && t in live && live[t].kicked {
      if Unregister(t) in Removals(k) {
        var i :| 0 <= i < |Removals(k)| && Removals(k)[i] == Unregister(t);
        KickedMembers(q, live, k[i]);
        assert k[i] in q && k[i].t == t;
      }
      if a :| a in q && a.t == t && t in live && live[t].kicked {
        KickedMembers(q, live, a);
        var i :| 0 <= i < |k| && k[i] == a;
        assert Removals(k)[i] == Unregister(t);
      }
    }
  }

  // What is in the queue after the scan for kicked transports.
  lemma KeptAre(q: seq<Attempt>, live: map<Tid, Transport>)
    requires Sorted(q)
    ensures Sorted(Kept(q, live))
    ensures forall a :: a in Kept(q, live) <==> a in q && !(a.t in live && live[a.t].kicked)
  {
    KeptSorted(q, live);
    forall a ensures a in Kept(q, live) <==> a in q && !(a.t in live && live[a.t].kicked) {
      if a in Kept(q, live) {
        KeptMembers(q, live, a);
        KeptNotKicked(q, live, a);
      } else if a in q && !IsKicked(live, a.t) {
        NotKickedIsKept(q, live, a);
      }
    }
  }

  lemma SortedTail(q: seq<Attempt>)
    requires Sorted(q) && q != []
    ensures Sorted(q[1..])
    ensures forall a :: a in q[1..] ==> Before(q[0], a)
    ensures forall a :: a in q[1..] <==> a in q && a != q[0]
  {
    assert forall i :: 1 <= i < |q| ==> q[1..][i - 1] == q[i];
    assert q == [q[0]] + q[1..];
  }

  lemma EraseOne(xs: seq<Tid>, x: Tid, i: nat)
    requires i < |xs| && xs[i] == x && multiset(xs)[x] == 1
    ensures Remove(xs, x) == xs[..i] + xs[i + 1..]
  {
    assert xs == xs[..i] + [x] + xs[i + 1..];
    assert multiset(xs) == multiset(xs[..i]) + multiset{x} + multiset(xs[i + 1..]);
    RemoveApart(xs[..i], xs[i + 1..], x);
  }

  lemma {:induction false} RemoveApart(a: seq<Tid>, b: seq<Tid>, x: Tid)
    requires x !in a && x !in b
    ensures Remove(a + [x] + b, x) == a + b
  {
    if a == [] {
      assert ([x] + b)[1..] == b && a + [x] + b == [x] + b;
      NothingToRemove(b, x);
    } else {
      assert (a + [x] + b)[1..] == a[1..] + [x] + b;
      RemoveApart(a[1..], b, x);
      assert [a[0]] + (a[1..] + b) == a + b;
    }
  }

  lemma {:induction false} NothingToRemove(xs: seq<Tid>, x: Tid)
    requires x !in xs
    ensures Remove(xs, x) == xs
  {
    if xs != [] { NothingToRemove(xs[1..], x); }
  }

  lemma Inserted(q: seq<Attempt>, a: Attempt)
    requires Sorted(q)
    ensures Sorted(Insert(q, a))
    ensures (forall b :: b in q ==> b.t != a.t) ==> multiset(Insert(q, a)) == multiset(q) + multiset{a}
  {
    InsertSorted(q, a);
    if forall b :: b in q ==> b.t != a.t { InsertAdds(q, a); }
  }

  lemma NotWaiting(s: State, t: Tid)
    requires HInv(s) && (Fail(t) in s.looper || IsTrying(s, t))
    ensures t in s.live && forall b :: b in s.queue ==> b.t != t
  {
    assert TInv(s, t);
    NotQueued(s.queue, t);
  }

  lemma TriedIsReady(s: State, o: Outcome)
    requires HInv(s) && s.thread.Trying?
    ensures HInv(Next(s, Finish(o))) && Next(s, Finish(o)) == DoFinish(s, o)
    ensures s.thread.a.t in s.live && forall b :: b in s.queue ==> b.t != s.thread.a.t
  {
    StepKeeps(s, Finish(o));
    NotWaiting(s, s.thread.a.t);
  }

  // What the looper may rely on when it takes the first closure.
  lemma FrontIsReady(s: State)
    requires HInv(s) && s.looper != [] && s.starting.None?
    ensures HInv(Next(s, RunClosure)) && Next(s, RunClosure) == DoClosure(s.(looper := s.looper[1..]), s.looper[0])
    ensures
      var c := s.looper[0];
      && c.t in s.live && (c.Register? ==> s.live[c.t].conn == Idle)
      && (c.Fail? ==> forall b :: b in s.queue ==> b.t != c.t)
      && (c.Unregister? ==> multiset(s.list)[c.t] == 1 && exists i :: 0 <= i < |s.list| && s.list[i] == c.t)
  {
    StepKeeps(s, RunClosure);
    var c := s.looper[0];
    assert TInv(s, c.t);
    assert c in s.looper;
    if c.Fail? { NotWaiting(s, c.t); }
  }

  lemma DrainIs(s: State)
    requires !s.fault && !s.running && s.thread != Waiting && !s.thread.Trying?
    ensures Next(s, Drain) == GiveUp(s.(queue := []), s.queue)
  {
  }

  lemma RetryIs(s: State, a: Attempt)
    requires s.thread == Trying(a) && a.t in s.live
    ensures a.left == 0 ==>
      DoFinish(s, Retry) ==
      s.(thread := Waiting, looper := s.looper + [Unregister(a.t)], log := s.log + [GivenUp(a.t)])
    ensures a.left > 0 ==>
      DoFinish(s, Retry) ==
      s.(thread := Waiting, queue := Insert(s.queue, Attempt(a.t, s.now + RETRY_DELAY, a.left - 1)))
  {
    GiveUpOne(s.(thread := Waiting), a);
  }

  class Server {
    var now: int
    var nextId: Tid
    var live: map<Tid, Transport>
    var pending: seq<Tid>
    var list: seq<Tid>
    var looper: seq<Closure>
    var running: bool
    var queue: seq<Attempt>
    ghost var posting: set<Tid>
    ghost var starting: Option<Tid>
    ghost var thread: Thread
    ghost var dropped: set<Tid>
    ghost var log: seq<Event>

    ghost function View(): State
      reads this
    {
      State(now, nextId, live, pending, list, posting, starting, looper, thread, running, queue,
            dropped, false, log)
    }

    ghost predicate Valid()
      reads this
    {
      HInv(View())
    }

    constructor ()
      ensures Valid() && View() == INIT
    {
      now, nextId, live, pending, list, looper := 0, 0, map[], [], [], [];
      running, queue := true, [];
      posting, starting, thread, dropped, log := {}, None, Unstarted, {}, [];
      new;
      RunHistory([]);
    }

    // validate_transport_list
    method ValidateTransportList(xs: seq<Tid>, serial: string) returns (ok: bool)
      requires forall t :: t in xs ==> t in live
      ensures ok == !SerialIn(xs, live, serial)
    {
      for i := 0 to |xs|
        invariant forall j :: 0 <= j < i ==> live[xs[j]].serial != serial
      {
        if live[xs[i]].serial == serial {
          return false;
        }
      }
      return true;
    }

    // register_socket_transport, lines up to the unlock; false is EALREADY.
    method RegisterSocketTransport(serial: string, tcp: bool) returns (ok: bool)
      requires Valid()
      modifies this
      ensures Valid() && View() == Next(old(View()), RegisterSocket(serial, tcp))
      ensures ok == !(exists t :: t in old(live) && old(live[t]).serial == serial)
      ensures ok ==> pending == [old(nextId)] + old(pending) && list == old(list)
      ensures ok ==> live == old(live)[old(nextId) := Transport(serial, tcp, false, Idle)]
      ensures !ok ==> pending == old(pending) && list == old(list) && live == old(live)
      ensures looper == old(looper) && queue == old(queue)
    {
      ghost var s := View();
      StepKeeps(s, RegisterSocket(serial, tcp));
      SerialTaken(s, serial);
      ListedIsLive(s);
      var t := nextId;
      nextId := t + 1;
      ok := ValidateTransportList(pending, serial);
      if ok {
        ok := ValidateTransportList(list, serial);
      }
      if ok {
        live := live[t := Transport(serial, tcp, false, Idle)];
        pending := [t] + pending;
        posting := posting + {t};
      } else {
        log := log + [Deleted(t)];
      }
    }

    // register_transport, called by the thread that has put t on pending_list.
    method RegisterTransport(t: Tid)
      requires Valid() && t in posting
      modifies this
      ensures Valid() && View() == Next(old(View()), PostRegister(t))
      ensures looper == old(looper) + [Register(t)] && live == old(live)
    {
      StepKeeps(View(), PostRegister(t));
      posting := posting - {t};
      looper := looper + [Register(t)];
    }

    // atransport::HandleError, called once per started adapter.
    method HandleError(t: Tid)
      requires Valid() && t in live && live[t].conn == Live
      modifies this
      ensures Valid() && View() == Next(old(View()), ConnFails(t))
      ensures looper == old(looper) + [Fail(t)] && live == old(live)[t := old(live[t]).(conn := Dead)]
      ensures queue == old(queue) && list == old(list) && pending == old(pending)
    {
      StepKeeps(View(), ConnFails(t));
      live := live[t := live[t].(conn := Dead)];
      looper := looper + [Fail(t)];
    }

    // kick_transport
    method KickTransport(t: Tid)
      requires Valid()
      modifies this
      ensures Valid() && View() == Next(old(View()), Kick(t))
      ensures forall u :: u in live <==> u in old(live)
      ensures forall u :: u in live ==> live[u] == old(live[u]).(kicked := old(live[u].kicked) || (u == t && t in list))
      ensures list == old(list) && pending == old(pending) && queue == old(queue) && looper == old(looper)
    {
      StepKeeps(View(), Kick(t));
      assert TInv(View(), t);
      if t in list {
        live := live[t := live[t].(kicked := true)];
      }
    }

    // std::set::emplace
    method Emplace(a: Attempt)
      requires Sorted(queue)
      modifies this`queue
      ensures queue == Insert(old(queue), a)
    {
      var i := 0;
      ghost var q := queue;
      while i < |queue| && Before(queue[i], a)
        invariant queue == q && 0 <= i <= |q|
        invariant Insert(q, a) == q[..i] + Insert(q[i..], a)
      {
        InsertNext(q, a, i);
        i := i + 1;
      }
      if i == |queue| || queue[i] != Attempt(a.t, a.due, queue[i].left) {
        queue := queue[..i] + [a] + queue[i..];
      }
    }

    // ReconnectHandler::TrackTransport
    method TrackTransport(t: Tid)
      requires Sorted(queue)
      modifies this`queue, this`dropped, this`log
      ensures View() == Track(old(View()), t)
      ensures running && (forall b :: b in old(queue) ==> b.t != t) ==>
                multiset(queue) == multiset(old(queue)) + multiset{Attempt(t, now + 250, 20)}
      ensures Sorted(queue) && (!running ==> queue == old(queue) && dropped == old(dropped) + {t})
    {
      if !running {
        dropped := dropped + {t};
        return;
      }
      Inserted(queue, Attempt(t, now + GRACE, MAX_ATTEMPTS));
      Emplace(Attempt(t, now + GRACE, MAX_ATTEMPTS));
      log := log + [Tracked(t)];
    }

    // remove_transport, called by the reconnect handler.
    method GiveUpOn(t: Tid)
      modifies this`looper, this`log
      ensures looper == old(looper) + [Unregister(t)] && log == old(log) + [GivenUp(t)]
    {
      looper := looper + [Unregister(t)];
      log := log + [GivenUp(t)];
    }

    // transport_destroy, run by the closure of HandleError.
    method TransportDestroy(t: Tid)
      requires t in live && Sorted(queue)
      modifies this
      ensures View() == DoClosure(old(View()), Fail(t))
      ensures live == old(live) && now == old(now) && running == old(running)
      ensures live[t].tcp && !live[t].kicked ==> looper == old(looper)
      ensures live[t].tcp && !live[t].kicked && running && (forall b :: b in old(queue) ==> b.t != t) ==>
                multiset(queue) == multiset(old(queue)) + multiset{Attempt(t, now + 250, 20)} && Sorted(queue)
      ensures live[t].tcp && !live[t].kicked && !running ==> queue == old(queue) && dropped == old(dropped) + {t}
      ensures !live[t].tcp || live[t].kicked ==>
                looper == old(looper) + [Unregister(t)] && queue == old(queue) && dropped == old(dropped)
    {
      if live[t].tcp && !live[t].kicked {
        TrackTransport(t);
        return;
      }
      looper := looper + [Unregister(t)];
    }

    // fdevent_register_transport up to the list move.
    method StartTransport(t: Tid)
      requires t in live && live[t].conn == Idle
      modifies this
      ensures View() == DoClosure(old(View()), Register(t))
      ensures live == old(live)[t := old(live[t]).(conn := Live)] && starting == Some(t) && looper == old(looper)
    {
      live := live[t := live[t].(conn := Live)];
      starting := Some(t);
    }

    // fdevent_unregister_transport
    method UnregisterTransport(t: Tid)
      requires t in live
      modifies this
      ensures View() == DoClosure(old(View()), Unregister(t))
      ensures live == old(live) - {t} && Deleted(t) in log && looper == old(looper)
      ensures forall i :: 0 <= i < |old(list)| && old(list)[i] == t && multiset(old(list))[t] == 1 ==>
                list == old(list)[..i] + old(list)[i + 1..]
    {
      forall i | 0 <= i < |list| && list[i] == t && multiset(list)[t] == 1
        ensures Remove(list, t) == list[..i] + list[i + 1..]
      {
        EraseOne(list, t, i);
      }
      list := Remove(list, t);
      live := live - {t};
      log := log + [Deleted(t)];
    }

    // One turn of FlushRunQueue.
    method FlushOne()
      requires Valid() && looper != [] && starting.None?
      modifies this
      ensures Valid() && View() == Next(old(View()), RunClosure)
      ensures
        var (c, rest) := (old(looper)[0], old(looper)[1..]);
        && c.t in old(live)
        && (var t := old(live)[c.t];
            && (c.Register? ==> starting == Some(c.t) && live == old(live)[c.t := t.(conn := Live)] && looper == rest)
            && (c.Fail? && t.tcp && !t.kicked && running ==>
                  && multiset(queue) == multiset(old(queue)) + multiset{Attempt(c.t, now + 250, 20)} && Sorted(queue)
                  && looper == rest)
            && (c.Fail? && (!t.tcp || t.kicked) ==> looper == rest + [Unregister(c.t)] && queue == old(queue))
            && (c.Unregister? ==>
                  && live == old(live) - {c.t} && looper == rest
                  && exists i :: 0 <= i < |old(list)| && old(list)[i] == c.t
                                 && list == old(list)[..i] + old(list)[i + 1..]))
    {
      FrontIsReady(View());
      var c := looper[0];
      looper := looper[1..];
      match c
      case Register(t) => StartTransport(t);
      case Fail(t) => TransportDestroy(t);
      case Unregister(t) => UnregisterTransport(t);
    }

    // The end of fdevent_register_transport.
    method MoveToTransportList(t: Tid)
      requires Valid() && starting == Some(t)
      modifies this
      ensures Valid() && View() == Next(old(View()), FinishRegister)
      ensures t in list && t !in pending
      ensures t in old(pending) ==> list == [t] + old(list)
      ensures t !in old(pending) ==> list == old(list) && pending == old(pending)
      ensures live == old(live) && looper == old(looper) && queue == old(queue)
    {
      ghost var s := View();
      StepKeeps(s, FinishRegister);
      FinishLists(s, t);
      if t in pending {
        pending := Remove(pending, t);
        list := [t] + list;
      }
      starting := None;
    }

    // The scan of ReconnectHandler::Run for kicked transports.
    method DropKicked()
      requires AllLive(queue, live)
      modifies this`queue, this`looper, this`log
      ensures queue == Kept(old(queue), live)
      ensures looper == old(looper) + Removals(Kicked(old(queue), live))
      ensures log == old(log) + Farewells(Kicked(old(queue), live))
    {
      ghost var done, rest := [], queue;
      var i := 0;
      while i < |queue|
        invariant i == |done| && queue == done + rest
        invariant AllLive(rest, live)
        invariant Scanned(old(queue), live, done, rest, old(looper), looper, old(log), log)
        decreases |rest|
      {
        SplitAt(done, rest);
        ScanOne(old(queue), live, done, rest, old(looper), looper, old(log), log);
        var a := queue[i];
        if live[a.t].kicked {
          GiveUpOn(a.t);
          queue := queue[..i] + queue[i + 1..];
        } else {
          done := done + [a];
          i := i + 1;
        }
        rest := rest[1..];
      }
    }

    // The rest of the pass: take the first attempt unless it is not due yet.
    method TakeFirst()
      requires thread == Waiting
      modifies this
      ensures View() == TakeDue(old(View()))
      ensures looper == old(looper) && live == old(live) && now == old(now) && running == old(running)
      ensures Sorted(old(queue)) ==>
                && (thread == Waiting || (thread.Trying? && thread.a in old(queue) && thread.a.due <= now))
                && (forall a :: a in queue <==> a in old(queue) && thread != Trying(a))
                && (thread == Waiting ==> forall b :: b in queue ==> b.due > now)
                && (thread.Trying? ==> forall b :: b in queue ==> Before(thread.a, b))
    {
      if queue == [] || queue[0].due > now {
        return;
      }
      var a := queue[0];
      if Sorted(queue) {
        SortedTail(queue);
      }
      queue := queue[1..];
      thread := Trying(a);
      log := log + [Tried(a.t, a.due, now)];
    }

    // One pass of ReconnectHandler::Run under the lock.
    method RunOnce()
      requires Valid() && thread == Waiting
      modifies this
      ensures Valid() && View() == Next(old(View()), Wake)
      ensures live == old(live) && old(looper) <= looper
      ensures !running ==> thread == Exited && queue == old(queue) && looper == old(looper)
      ensures running ==>
                && (forall a :: a in queue <==>
                      a in old(queue) && !(a.t in live && live[a.t].kicked) && thread != Trying(a))
                && (forall c :: c in looper[|old(looper)|..] ==> c.Unregister?)
                && (forall t :: Unregister(t) in looper[|old(looper)|..] <==>
                      exists a :: a in old(queue) && a.t == t && t in live && live[t].kicked)
      ensures running && thread == Waiting ==> forall b :: b in queue ==> b.due > now
      ensures running && thread != Waiting ==>
                && thread.Trying? && thread.a in old(queue) && thread.a.due <= now
                && !(thread.a.t in live && live[thread.a.t].kicked)
                && forall b :: b in queue ==> Before(thread.a, b)
    {
      StepKeeps(View(), Wake);
      QueueIsLive(View());
      if !running {
        thread := Exited;
        return;
      }
      KeptAre(queue, live);
      KickedRemovals(queue, live);
      DropKicked();
      assert looper[|old(looper)|..] == Removals(Kicked(old(queue), live));
      TakeFirst();
    }

    // The attempt that follows a.
    method Requeue(a: Attempt)
      requires Sorted(queue) && a.left > 0
      modifies this`queue
      ensures queue == Insert(old(queue), Attempt(a.t, now + RETRY_DELAY, a.left - 1)) && Sorted(queue)
      ensures (forall b :: b in old(queue) ==> b.t != a.t) ==>
                multiset(queue) == multiset(old(queue)) + multiset{Attempt(a.t, now + 3000, a.left - 1)}
    {
      Inserted(queue, Attempt(a.t, now + RETRY_DELAY, a.left - 1));
      Emplace(Attempt(a.t, now + RETRY_DELAY, a.left - 1));
    }

    // ReconnectResult::Retry
    method RetryLater(a: Attempt)
      requires thread == Trying(a) && a.t in live && Sorted(queue)
      modifies this`thread, this`queue, this`looper, this`log
      ensures View() == DoFinish(old(View()), Retry) && thread == Waiting
      ensures a.left == 0 ==> looper == old(looper) + [Unregister(a.t)] && queue == old(queue)
      ensures a.left > 0 && (forall b :: b in old(queue) ==> b.t != a.t) ==>
                multiset(queue) == multiset(old(queue)) + multiset{Attempt(a.t, now + 3000, a.left - 1)}
      ensures a.left > 0 ==> Sorted(queue) && looper == old(looper)
    {
      RetryIs(View(), a);
      thread := Waiting;
      if a.left == 0 {
        GiveUpOn(a.t);
      } else {
        Requeue(a);
      }
    }

    // ReconnectResult::Success
    method Readmit(a: Attempt)
      requires thread == Trying(a) && a.t in live
      modifies this`thread, this`live, this`looper, this`log
      ensures View() == DoFinish(old(View()), Success) && thread == Waiting
      ensures looper == old(looper) + [Register(a.t)] && live == old(live)[a.t := old(live)[a.t].(conn := Idle)]
    {
      thread := Waiting;
      live := live[a.t := live[a.t].(conn := Idle)];
      looper := looper + [Register(a.t)];
      log := log + [Readmitted(a.t)];
    }

    // ReconnectResult::Abort
    method Cancel(a: Attempt)
      requires thread == Trying(a) && a.t in live
      modifies this`thread, this`looper, this`log
      ensures View() == DoFinish(old(View()), Abort) && thread == Waiting
      ensures looper == old(looper) + [Unregister(a.t)]
    {
      thread := Waiting;
      GiveUpOne(View(), a);
      GiveUpOn(a.t);
    }

    // The switch on the result of Reconnect.
    method Reconnected(a: Attempt, o: Outcome)
      requires Valid() && thread == Trying(a)
      modifies this`thread, this`live, this`queue, this`looper, this`log
      ensures Valid() && View() == Next(old(View()), Finish(o))
      ensures thread == Waiting && a.t in old(live)
      ensures o == Success ==>
                && looper == old(looper) + [Register(a.t)] && queue == old(queue)
                && live == old(live)[a.t := old(live)[a.t].(conn := Idle)]
      ensures o == Retry && a.left > 0 ==>
                && multiset(queue) == multiset(old(queue)) + multiset{Attempt(a.t, now + 3000, a.left - 1)}
                && Sorted(queue) && looper == old(looper) && live == old(live)
      ensures o == Abort || (o == Retry && a.left == 0) ==>
                looper == old(looper) + [Unregister(a.t)] && queue == old(queue) && live == old(live)
    {
      TriedIsReady(View(), o);
      match o
      case Retry => RetryLater(a);
      case Success => Readmit(a);
      case Abort => Cancel(a);
    }

    // The loop of ReconnectHandler::Stop.
    method GiveUpAll()
      modifies this`queue, this`looper, this`log
      ensures queue == []
      ensures looper == old(looper) + Removals(old(queue))
      ensures log == old(log) + Farewells(old(queue))
    {
      while queue != []
        invariant old(looper) + Removals(old(queue)) == looper + Removals(queue)
        invariant old(log) + Farewells(old(queue)) == log + Farewells(queue)
        decreases |queue|
      {
        var a := queue[0];
        assert queue == [a] + queue[1..];
        GiveUpNext(looper, log, a, queue[1..]);
        queue := queue[1..];
        GiveUpOn(a.t);
      }
    }

    // ReconnectHandler::Stop after the join.
    method DrainQueue()
      requires Valid() && !running && !thread.Waiting? && !thread.Trying?
      modifies this
      ensures Valid() && View() == Next(old(View()), Drain) && queue == []
      ensures |looper| == |old(looper)| + |old(queue)| && old(looper) <= looper
      ensures forall i :: 0 <= i < |old(queue)| ==> looper[|old(looper)| + i] == Unregister(old(queue)[i].t)
    {
      StepKeeps(View(), Drain);
      DrainIs(View());
      RemovalsAppended(looper, queue);
      GiveUpAll();
      assert View() == GiveUp(old(View()).(queue := []), old(queue));
    }
  }
}
