// The listener table of porting/adb/adb_listeners.cpp and the disconnect lists of the transports
// (porting/adb/transport.cpp).  A listener points at its transport, and the transport's disconnect list
// points back at the adisconnect inside the listener; here the entry is the listener itself.
module Listeners {
  import opened Base

  const SMART_SOCKET := "*smartsocket*"

  // atransport, as far as listeners are concerned.
  class Transport {
    var disconnects: seq<Listener>
    var offline: bool                // its connection state is offline

    constructor ()
      ensures disconnects == [] && offline
    {
      disconnects, offline := [], true;
    }
  }

  // alistener
  class Listener {
    var localName: string
    var connectTo: string
    var transport: Transport?

    constructor (localName: string, connectTo: string)
      ensures this.localName == localName && this.connectTo == connectTo && transport == null
    {
      this.localName, this.connectTo, this.transport := localName, connectTo, null;
    }

    predicate IsSmartSocket()
      reads this
    {
      connectTo == SMART_SOCKET
    }
  }

  datatype Status = Installed | InternalError | CannotBind | CannotRebind

  ghost predicate Distinct<T>(xs: seq<T>) {
    forall i, j :: 0 <= i < j < |xs| ==> xs[i] != xs[j]
  }

  // The members of xs that are in keep, in order.
  ghost function Only<T>(xs: seq<T>, keep: set<T>): seq<T> {
    if xs == [] then []
    else if xs[0] in keep then [xs[0]] + Only(xs[1..], keep)
    else Only(xs[1..], keep)
  }

  lemma {:induction false} RemoveDistinct<T>(xs: seq<T>, x: T)
    requires Distinct(xs)
    ensures Distinct(Remove(xs, x))
  {
    if xs != [] {
      RemoveDistinct(xs[1..], x);
      var r := Remove(xs[1..], x);
      forall i | 0 <= i < |r| ensures r[i] != xs[0] { RemoveMember(xs[1..], x, r[i]); }
    }
  }

  lemma {:induction false} RemoveAbsent<T>(xs: seq<T>, x: T)
    requires x !in xs
    ensures Remove(xs, x) == xs
  {
    if xs != [] { RemoveAbsent(xs[1..], x); }
  }

  lemma {:induction false} RemoveIsErase<T>(xs: seq<T>, i: nat)
    requires Distinct(xs) && i < |xs|
    ensures Remove(xs, xs[i]) == xs[..i] + xs[i + 1..]
  {
    if i == 0 {
      RemoveAbsent(xs[1..], xs[0]);
    } else {
      RemoveIsErase(xs[1..], i - 1);
    }
  }

  lemma {:induction false} OnlyMember<T>(xs: seq<T>, keep: set<T>, y: T)
    ensures y in Only(xs, keep) <==> y in xs && y in keep
  {
    if xs != [] { OnlyMember(xs[1..], keep, y); }
  }

  // What is left keeps its place, member by member.
  lemma {:induction false} OnlySplit<T>(a: seq<T>, x: T, b: seq<T>, keep: set<T>)
    ensures Only(a + [x] + b, keep) == Only(a, keep) + (if x in keep then [x] else []) + Only(b, keep)
  {
    if a == [] {
      assert (a + [x] + b)[1..] == b;
    } else {
      assert (a + [x] + b)[1..] == a[1..] + [x] + b;
      OnlySplit(a[1..], x, b, keep);
    }
  }

  lemma {:induction false} OnlyAll<T>(xs: seq<T>, keep: set<T>)
    requires forall x :: x in xs ==> x in keep
    ensures Only(xs, keep) == xs
  {
    if xs != [] { OnlyAll(xs[1..], keep); }
  }

  lemma {:induction false} OnlyAgree<T>(xs: seq<T>, keep: set<T>, same: set<T>)
    requires forall x :: x in xs ==> (x in keep <==> x in same)
    ensures Only(xs, keep) == Only(xs, same)
  {
    if xs != [] { OnlyAgree(xs[1..], keep, same); }
  }

  lemma {:induction false} OnlyRemove<T>(xs: seq<T>, keep: set<T>, x: T)
    ensures Only(xs, keep - {x}) == Remove(Only(xs, keep), x)
  {
    if xs != [] { OnlyRemove(xs[1..], keep, x); }
  }

  class ListenerTable {
    var list: seq<Listener>
    ghost var transports: set<Transport>

    // Local names are unique.
    ghost predicate Named()
      reads this, list
    {
      && Distinct(list)
      && forall i, j :: 0 <= i < j < |list| ==> list[i].localName != list[j].localName
    }

    // The disconnect list of t holds one entry for each listener of the table whose transport is t, and
    // nothing else.
    ghost predicate Linked(t: Transport)
      reads this, list, t
    {
      && Distinct(t.disconnects)
      && (forall l :: l in t.disconnects ==> l in list && l.transport == t)
      && (forall l :: l in list && l.transport == t ==> l in t.disconnects)
    }

    ghost predicate Valid()
      reads this, list, transports
    {
      && Named()
      && (forall l :: l in list && l.transport != null ==> l.transport in transports)
      && (forall l :: l in list && l.transport == null ==> l.IsSmartSocket())
      && (forall t :: t in transports ==> Linked(t))
    }

    constructor ()
      ensures Valid() && list == [] && transports == {}
    {
      list, transports := [], {};
    }

    // A new transport has no listener.
    method Adopt(t: Transport)
      requires Valid() && t !in transports && t.disconnects == []
      requires forall l :: l in list ==> l.transport != t
      modifies this`transports
      ensures Valid() && transports == old(transports) + {t}
    {
      transports := transports + {t};
    }

    // Erasing entry i from listener_list runs ~alistener.
    method Erase(i: nat)
      requires Valid() && i < |list|
      modifies this`list, transports
      ensures Valid()
      ensures list == old(list[..i] + list[i + 1..]) == Remove(old(list), old(list[i]))
      ensures forall t :: t in transports ==> t.disconnects == AfterErase(old(t.disconnects), t, old(list[i]))
      ensures forall t :: t in transports ==>
        t.disconnects == if old(list[i].transport) == t then Remove(old(t.disconnects), old(list[i]))
                         else old(t.disconnects)
    {
      var l := list[i];
      RemoveIsErase(list, i);
      list := list[..i] + list[i + 1..];
      if l.transport != null {
        l.transport.disconnects := Remove(l.transport.disconnects, l);
      }
      RemoveDistinct(old(list), l);
      forall t | t in transports
        ensures Linked(t) && t.disconnects == AfterErase(old(t.disconnects), t, l)
      {
        RemoveDistinct(old(t.disconnects), l);
        forall m ensures (m in list <==> m in old(list) && m != l)
                      && (m in Remove(old(t.disconnects), l) <==> m in old(t.disconnects) && m != l) {
          RemoveMember(old(list), l, m);
          RemoveMember(old(t.disconnects), l, m);
        }
      }
    }

    // The rebinding branch of install_listener.
    method Rebind(l: Listener, connectTo: string, transport: Transport)
      requires Valid() && l in list && !l.IsSmartSocket() && transport in transports
      modifies l`connectTo, l`transport, transports
      ensures Valid()
      ensures l.connectTo == connectTo && l.transport == transport
      ensures forall t :: t in transports ==>
        t.disconnects == Relinked(old(t.disconnects), l, old(l.transport) == t, transport == t)
      ensures old(l.transport) != transport ==> transport.disconnects == old(transport.disconnects) + [l]
      ensures forall t :: t in transports && t != transport ==>
        t.disconnects == if old(l.transport) == t then Remove(old(t.disconnects), l) else old(t.disconnects)
    {
      l.connectTo := connectTo;
      if l.transport != transport {
        l.transport.disconnects := Remove(l.transport.disconnects, l);
        l.transport := transport;
        l.transport.disconnects := l.transport.disconnects + [l];
      }
      forall t | t in transports
        ensures Linked(t)
        ensures t.disconnects == Relinked(old(t.disconnects), l, old(l.transport) == t, transport == t)
      {
        assert old(Linked(t));
        RemoveDistinct(old(t.disconnects), l);
        forall m: Listener ensures m in Remove(old(t.disconnects), l) <==> m in old(t.disconnects) && m != l {
          RemoveMember(old(t.disconnects), l, m);
        }
      }
    }

    // The end of install_listener: a new listener, linked to its transport.
    method Append(l: Listener, transport: Transport?)
      requires Valid() && l !in list && l.transport == null
      requires forall m :: m in list ==> m.localName != l.localName
      requires transport != null ==> transport in transports
      requires transport == null ==> l.IsSmartSocket()
      modifies this`list, l`transport, transports
      ensures Valid()
      ensures list == old(list) + [l] && l.transport == transport
      ensures forall t :: t in transports ==>
        t.disconnects == if t == transport then old(t.disconnects) + [l] else old(t.disconnects)
    {
      assert forall t :: t in transports ==> l !in t.disconnects by {
        assert forall t :: t in transports ==> Linked(t);
      }
      l.transport := transport;
      if transport != null {
        transport.disconnects := transport.disconnects + [l];
      }
      list := list + [l];
      forall t | t in transports ensures Linked(t) { assert old(Linked(t)); }
    }

    // The branch of install_listener for a name that is in use.
    method Reuse(i: nat, connectTo: string, transport: Transport?, noRebind: bool) returns (status: Status)
      requires Valid() && i < |list|
      requires transport != null ==> transport in transports
      requires !list[i].IsSmartSocket() && !noRebind ==> transport != null
      modifies this`list, list, transports
      ensures Valid() && list == old(list)
      ensures (status, Image(list)) ==
        if old(list[i].IsSmartSocket()) then (InternalError, old(Image(list)))
        else if noRebind then (CannotRebind, old(Image(list)))
        else (Installed, old(Image(list))[i := Row(old(list[i].localName), connectTo, transport)])
    {
      if list[i].IsSmartSocket() {
        return InternalError;
      }
      if noRebind {
        return CannotRebind;
      }
      ghost var l := list[i];
      Rebind(list[i], connectTo, transport);
      ImageIs(list, old(Image(list))[i := Row(l.localName, connectTo, transport)]);
      return Installed;
    }

    // The branch of install_listener for a new name.
    method Bind(localName: string, connectTo: string, transport: Transport?, fd: int, resolved: nat)
      returns (status: Status)
      requires Valid()
      requires transport != null ==> transport in transports
      requires transport == null ==> connectTo == SMART_SOCKET
      requires forall l :: l in list ==> l.localName != if resolved != 0 then TcpName(resolved) else localName
      modifies this`list, transports
      ensures Valid() && old(list) <= list
      ensures (status, Image(list)) ==
        if fd < 0 then (CannotBind, old(Image(list)))
        else (Installed, old(Image(list))
                + [Row(if resolved != 0 then TcpName(resolved) else localName, connectTo, transport)])
    {
      if fd < 0 {
        return CannotBind;
      }
      var l := new Listener(if resolved != 0 then TcpName(resolved) else localName, connectTo);
      Append(l, transport);
      ImageIs(list, old(Image(list)) + [Row(l.localName, connectTo, transport)]);
      return Installed;
    }

    // install_listener.  fd and resolved are what socket_spec_listen returns; a resolved port is not the
    // port of another listener.
    method Install(localName: string, connectTo: string, transport: Transport?, noRebind: bool,
                   fd: int, resolved: nat) returns (status: Status)
      requires Valid()
      requires transport != null ==> transport in transports
      requires connectTo != SMART_SOCKET ==> transport != null
      requires forall l :: l in list && l.localName == localName && !l.IsSmartSocket() && !noRebind ==>
                             transport != null
      requires resolved != 0 ==> forall l :: l in list ==> l.localName != TcpName(resolved)
      modifies this`list, list, transports
      ensures Valid()
      ensures (status, Image(list)) ==
        Installing(old(Image(list)), localName, connectTo, transport, noRebind, fd, resolved)
      ensures old(list) <= list
      // A name that is in use: only the listener of that name is changed, and only if it may be.
      ensures forall i :: 0 <= i < |old(list)| && old(list[i].localName) == localName ==>
        list == old(list) &&
        (status, Image(list)) ==
          if old(list[i].connectTo) == "*smartsocket*" then (InternalError, old(Image(list)))
          else if noRebind then (CannotRebind, old(Image(list)))
          else (Installed, old(Image(list))[i := Row(localName, connectTo, transport)])
      // A new name: one more listener if the port could be opened.
      ensures (forall l :: l in old(list) ==> old(l.localName) != localName) ==>
        (status, Image(list)) ==
          if fd < 0 then (CannotBind, old(Image(list)))
          else (Installed, old(Image(list)) + [Row(if resolved != 0 then TcpName(resolved) else localName,
                                                   connectTo, transport)])
    {
      for i := 0 to |list|
        invariant forall j :: 0 <= j < i ==> list[j].localName != localName
      {
        if list[i].localName == localName {
          FindsFirst(Image(list), localName, i);
          status := Reuse(i, connectTo, transport, noRebind);
          return;
        }
      }
      FindsNone(Image(list), localName);
      status := Bind(localName, connectTo, transport, fd, resolved);
    }

    // remove_listener: the listener with that name goes, whatever its transport is.
    method RemoveListener(localName: string) returns (found: bool, ghost at: nat)
      requires Valid()
      modifies this`list, transports
      ensures Valid()
      ensures found <==> exists l :: l in old(list) && l.localName == localName
      ensures !found ==> list == old(list) && forall t :: t in transports ==> t.disconnects == old(t.disconnects)
      ensures found ==> at < |old(list)| && old(list)[at].localName == localName
      ensures found ==> list == Remove(old(list), old(list)[at])
      ensures found ==> forall t :: t in transports ==>
        t.disconnects == AfterErase(old(t.disconnects), t, old(list)[at])
    {
      for i := 0 to |list|
        invariant list == old(list) && Valid()
        invariant forall t :: t in transports ==> t.disconnects == old(t.disconnects)
        invariant forall j :: 0 <= j < i ==> list[j].localName != localName
      {
        if list[i].localName == localName {
          Erase(i);
          return true, i;
        }
      }
      return false, 0;
    }

    // The part of the table that a sweep has left: `keep` without the erased listeners.
    ghost predicate Swept(all: seq<Listener>, before: map<Transport, seq<Listener>>, keep: set<Listener>)
      reads this, transports
    {
      && list == Only(all, keep)
      && transports == before.Keys
      && forall t :: t in transports ==> t.disconnects == Only(before[t], keep)
    }

    lemma StartSweep(before: map<Transport, seq<Listener>>, keep: set<Listener>)
      requires Valid() && before.Keys == transports
      requires forall t :: t in transports ==> before[t] == t.disconnects
      requires forall l :: l in list ==> l in keep
      ensures Swept(list, before, keep)
    {
      OnlyAll(list, keep);
      forall t | t in transports ensures t.disconnects == Only(before[t], keep) {
        assert Linked(t);
        OnlyAll(before[t], keep);
      }
    }

    method EraseInSweep(i: nat, ghost all: seq<Listener>, ghost before: map<Transport, seq<Listener>>,
                        ghost keep: set<Listener>)
      requires Valid() && i < |list| && list[i] in keep && Swept(all, before, keep)
      modifies this`list, transports
      ensures Valid() && Swept(all, before, keep - {old(list[i])})
      ensures list == old(list[..i] + list[i + 1..])
    {
      ghost var l := list[i];
      Erase(i);
      OnlyRemove(all, keep, l);
      forall t | t in transports ensures t.disconnects == Only(before[t], keep - {l}) {
        OnlyRemove(before[t], keep, l);
        if l.transport != t {
          assert l !in old(t.disconnects);
          RemoveAbsent(old(t.disconnects), l);
        }
      }
    }

    // The loop of remove_all_listeners.
    method EraseUnstarred(ghost all: seq<Listener>, ghost before: map<Transport, seq<Listener>>,
                          ghost all': set<Listener>)
      requires Valid() && list == all && Swept(all, before, all')
      requires forall t, l :: t in before && l in before[t] ==> l in all
      modifies this`list, transports
      ensures Valid() && Swept(all, before, set l | l in all' && Starred(l.connectTo))
    {
      ghost var keep := all';
      var i := 0;
      while i < |list|
        invariant i <= |list| && Valid() && Swept(all, before, keep)
        invariant forall j :: 0 <= j < i ==> Starred(list[j].connectTo)
        invariant keep <= all' && forall l :: l in all' && Starred(l.connectTo) ==> l in keep
        decreases |list| - i
      {
        if Starred(list[i].connectTo) {
          i := i + 1;
        } else {
          ghost var l := list[i];
          OnlyMember(all, keep, l);
          EraseInSweep(i, all, before, keep);
          keep := keep - {l};
        }
      }
      ghost var stars := set l | l in all' && Starred(l.connectTo);
      forall l | l in all ensures l in keep <==> l in stars { OnlyMember(all, keep, l); }
      SameSweep(all, before, keep, stars);
    }

    lemma SameSweep(all: seq<Listener>, before: map<Transport, seq<Listener>>, keep: set<Listener>, same: set<Listener>)
      requires Swept(all, before, keep) && forall l :: l in all ==> (l in keep <==> l in same)
      requires forall t, l :: t in before && l in before[t] ==> l in all
      ensures Swept(all, before, same)
    {
      OnlyAgree(all, keep, same);
      forall t | t in transports ensures t.disconnects == Only(before[t], same) {
        OnlyAgree(before[t], keep, same);
      }
    }

    // remove_all_listeners: everything that does not start with a star goes.
    method RemoveAllListeners()
      requires Valid()
      modifies this`list, transports
      ensures Valid()
      ensures
        var stars := set l | l in old(list) && Starred(l.connectTo);
        && (forall l :: l in list <==> l in old(list) && l.connectTo != "" && l.connectTo[0] == '*')
        && list == Only(old(list), stars)
        && forall t :: t in transports ==> t.disconnects == Only(old(t.disconnects), stars)
    {
      ghost var before := map t | t in transports :: t.disconnects;
      ghost var all := set l | l in list;
      StartSweep(before, all);
      EraseUnstarred(list, before, all);
      ghost var stars := set l | l in old(list) && Starred(l.connectTo);
      assert (set l | l in all && Starred(l.connectTo)) == stars;
      forall l ensures l in list <==> l in old(list) && l in stars { OnlyMember(old(list), stars, l); }
    }

    // close_smartsockets: std::list::remove_if
    method CloseSmartSockets()
      requires Valid()
      modifies this`list, transports
      ensures Valid()
      ensures
        var others := set l | l in old(list) && !l.IsSmartSocket();
        && (forall l :: l in list <==> l in old(list) && l.connectTo != "*smartsocket*")
        && list == Only(old(list), others)
        && forall t :: t in transports ==> t.disconnects == Only(old(t.disconnects), others)
    {
      ghost var all := set l | l in list;
      ghost var before := map t | t in transports :: t.disconnects;
      StartSweep(before, all);
      EraseSmartSockets(list, before, all);
      ghost var others := set l | l in old(list) && !l.IsSmartSocket();
      assert (set l | l in all && !l.IsSmartSocket()) == others;
      forall l ensures l in list <==> l in old(list) && l in others { OnlyMember(old(list), others, l); }
    }

    method EraseSmartSockets(ghost all: seq<Listener>, ghost before: map<Transport, seq<Listener>>,
                             ghost all': set<Listener>)
      requires Valid() && list == all && Swept(all, before, all')
      requires forall t, l :: t in before && l in before[t] ==> l in all
      modifies this`list, transports
      ensures Valid() && Swept(all, before, set l | l in all' && !l.IsSmartSocket())
    {
      ghost var keep := all';
      var i := 0;
      while i < |list|
        invariant i <= |list| && Valid() && Swept(all, before, keep)
        invariant forall j :: 0 <= j < i ==> !list[j].IsSmartSocket()
        invariant keep <= all' && forall l :: l in all' && !l.IsSmartSocket() ==> l in keep
        decreases |list| - i
      {
        if list[i].IsSmartSocket() {
          ghost var l := list[i];
          OnlyMember(all, keep, l);
          EraseInSweep(i, all, before, keep);
          keep := keep - {l};
        } else {
          i := i + 1;
        }
      }
      ghost var others := set l | l in all' && !l.IsSmartSocket();
      forall l | l in all ensures l in keep <==> l in others { OnlyMember(all, keep, l); }
      SameSweep(all, before, keep, others);
    }

    // listener_disconnect: the callback of an entry of a disconnect list.  Clearing the transport first
    // keeps ~alistener away from the list that is being iterated.
    method Disconnected(l: Listener)
      requires Named()
      modifies this`list, l`transport
      ensures Named()
      ensures list == Remove(old(list), l)
      ensures l in old(list) ==> l.transport == null
    {
      for i := 0 to |list|
        invariant list == old(list) && Named()
        invariant forall j :: 0 <= j < i ==> list[j] != l
        invariant l.transport == old(l.transport)
      {
        if list[i] == l {
          RemoveIsErase(list, i);
          l.transport := null;
          list := list[..i] + list[i + 1..];
          return;
        }
      }
      RemoveAbsent(list, l);
    }

    // The loop of atransport::RunDisconnects.
    method RunCallbacks(t: Transport, ghost others: set<Listener>)
      requires Named()
      requires forall l :: l in list ==> (l in others <==> l !in t.disconnects)
      modifies this`list, (set l | l in t.disconnects)`transport
      ensures Named()
      ensures list == Only(old(list), others)
    {
      ghost var all := set l | l in list;
      ghost var gone: set<Listener> := {};
      OnlyAll(list, all - gone);
      for i := 0 to |t.disconnects|
        invariant Named()
        invariant list == Only(old(list), all - gone)
        invariant forall j :: 0 <= j < i ==> t.disconnects[j] in gone
        invariant forall l :: l in gone ==> l in t.disconnects
      {
        var l := t.disconnects[i];
        ghost var was := gone;
        OnlyRemove(old(list), all - was, l);
        gone := was + {l};
        assert all - gone == (all - was) - {l};
        Disconnected(l);
      }
      OnlyAgree(old(list), all - gone, others);
    }

    // atransport::RunDisconnects on a transport of the table.
    method RunDisconnects(t: Transport)
      requires Valid() && t in transports
      modifies this`list, t`disconnects, (set l | l in t.disconnects)`transport
      ensures Valid() && t.disconnects == []
      ensures list == Only(old(list), set l | l in old(list) && old(l.transport) != t)
      ensures forall l :: l in list ==> l in old(list) && l.transport == old(l.transport) != t
    {
      ghost var ds, all := t.disconnects, list;
      ghost var others := set l | l in all && l.transport != t;
      assert Linked(t);
      RunCallbacks(t, others);
      forall l: Listener ensures l in list <==> l in all && l in others { OnlyMember(all, others, l); }
      t.disconnects := [];
      forall u | u in transports ensures Linked(u) { assert u != t ==> old(Linked(u)); }
    }

    // handle_offline, as far as the listeners are concerned: it runs the disconnects unless the transport is
    // offline already.  So listeners stay linked to it exactly when it was offline and had some.
    method HandleOffline(t: Transport)
      requires Valid() && t in transports
      modifies this`list, t, (set l | l in t.disconnects)`transport
      ensures Valid() && t.offline
      ensures t.disconnects == if old(t.offline) then old(t.disconnects) else []
      ensures list == if old(t.offline) then old(list)
                      else Only(old(list), set l | l in old(list) && old(l.transport) != t)
      ensures (forall l :: l in list ==> l.transport != t) <==>
              !old(t.offline) || forall l :: l in old(list) ==> old(l.transport) != t
    {
      if t.offline {
        return;
      }
      t.offline := true;
      assert forall u :: u in transports ==> old(Linked(u));
      label Offline:
      RunDisconnects(t);
      assert (set l | l in old(list) && old@Offline(l.transport) != t) ==
             (set l | l in old(list) && old(l.transport) != t);
    }

    // The default branch of A_AUTH: it makes the transport offline first, so no disconnect is ever run.
    method RefuseAuth(t: Transport)
      requires Valid() && t in transports
      modifies this`list, t, (set l | l in t.disconnects)`transport
      ensures Valid() && t.offline
      ensures t.disconnects == old(t.disconnects) && list == old(list)
    {
      t.offline := true;
      assert forall u :: u in transports ==> old(Linked(u));
      HandleOffline(t);
    }
  }

  // The fields of the listeners of a list.
  datatype Row = Row(localName: string, connectTo: string, transport: Transport?)

  ghost function Image(ls: seq<Listener>): (rows: seq<Row>)
    reads ls
    ensures |rows| == |ls|
    ensures forall i :: 0 <= i < |ls| ==> rows[i] == Row(ls[i].localName, ls[i].connectTo, ls[i].transport)
  {
    if ls == [] then [] else [Row(ls[0].localName, ls[0].connectTo, ls[0].transport)] + Image(ls[1..])
  }

  lemma ImageIs(ls: seq<Listener>, rows: seq<Row>)
    requires |rows| == |ls|
    requires forall i :: 0 <= i < |ls| ==> rows[i] == Row(ls[i].localName, ls[i].connectTo, ls[i].transport)
    ensures Image(ls) == rows
  {
  }

  function Find(rows: seq<Row>, localName: string): nat {
    if rows == [] || rows[0].localName == localName then 0 else 1 + Find(rows[1..], localName)
  }

  // install_listener on the rows of the table.
  function Installing(rows: seq<Row>, localName: string, connectTo: string, transport: Transport?,
                      noRebind: bool, fd: int, resolved: nat): (Status, seq<Row>)
  {
    var i := Find(rows, localName);
    if i < |rows| then
      if rows[i].connectTo == SMART_SOCKET then (InternalError, rows)
      else if noRebind then (CannotRebind, rows)
      else (Installed, rows[i := Row(localName, connectTo, transport)])
    else if fd < 0 then (CannotBind, rows)
    else (Installed, rows + [Row(if resolved != 0 then TcpName(resolved) else localName, connectTo, transport)])
  }

  lemma {:induction false} FindsFirst(rows: seq<Row>, localName: string, i: nat)
    requires i < |rows| && rows[i].localName == localName
    requires forall j :: 0 <= j < i ==> rows[j].localName != localName
    ensures Find(rows, localName) == i
  {
    if i > 0 { FindsFirst(rows[1..], localName, i - 1); }
  }

  lemma {:induction false} FindsNone(rows: seq<Row>, localName: string)
    requires forall j :: 0 <= j < |rows| ==> rows[j].localName != localName
    ensures Find(rows, localName) == |rows|
  {
    if rows != [] { FindsNone(rows[1..], localName); }
  }

  // A disconnect list after the listener l has moved: away from it, to it, or neither.
  ghost function Relinked(ds: seq<Listener>, l: Listener, from: bool, to: bool): seq<Listener> {
    if from == to then ds else if from then Remove(ds, l) else ds + [l]
  }

  function TcpName(port: nat): string { "tcp:" + Dec(port) }

  predicate Starred(connectTo: string) { connectTo != "" && connectTo[0] == '*' }

  ghost function AfterErase(ds: seq<Listener>, t: Transport, l: Listener): seq<Listener>
    reads l
  {
    if l.transport == t then Remove(ds, l) else ds
  }
}
