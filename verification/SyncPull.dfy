// copy_remote_dir_local (porting/adb/client/file_sync_client.cpp).
module SyncPull {
  import opened Base
  import opened RemoteTree
  import opened RemoteRoutes
  import opened RemoteList
  import P = SyncPush

  // The entries of the list that are received, in order, and how many are skipped.
  function Transfers(list: seq<Entry>): seq<Entry> {
    if list == [] then []
    else
      var e := list[|list| - 1];
      Transfers(list[..|list| - 1]) + if e.skip || e.isDir then [] else [e]
  }

  function Skipped(list: seq<Entry>): nat {
    if list == [] then 0 else Skipped(list[..|list| - 1]) + if list[|list| - 1].skip then 1 else 0
  }

  lemma {:induction false} TransfersConcat(a: seq<Entry>, b: seq<Entry>)
    ensures Transfers(a + b) == Transfers(a) + Transfers(b) && Skipped(a + b) == Skipped(a) + Skipped(b)
  {
    if b == [] {
      assert a + b == a;
    } else {
      assert (a + b)[..|a + b| - 1] == a + b[..|b| - 1];
      TransfersConcat(a, b[..|b| - 1]);
    }
  }

  lemma TransfersNext(list: seq<Entry>, i: nat)
    requires i < |list|
    ensures Transfers(list[..i + 1]) ==
            if list[i].skip || list[i].isDir then Transfers(list[..i]) else Transfers(list[..i]) + [list[i]]
    ensures Skipped(list[..i + 1]) == Skipped(list[..i]) + if list[i].skip then 1 else 0
  {
    assert list[..i + 1][..i] == list[..i];
  }

  // The files of a tree: the special ones, or all others.
  function Files(d: Listing, odd: bool): nat
    decreases d, 0
  {
    if d.Unreadable? then 0 else FilesIn(d.nodes, odd)
  }

  function FilesIn(nodes: seq<Node>, odd: bool): nat
    decreases nodes, 0
  {
    if nodes == [] then 0 else FilesIn(nodes[..|nodes| - 1], odd) + FilesAt(nodes[|nodes| - 1], odd)
  }

  function FilesAt(n: Node, odd: bool): nat
    decreases n, 1
  {
    if !Visible(n) then 0
    else match n.kind
      case File(_, _) => if odd then 0 else 1
      case Odd(_, _) => if odd then 1 else 0
      case Dir(d) => Files(d, odd)
      case Link(StatFails) => 0
      case Link(ToFile) => if odd then 0 else 1
      case Link(ToDir(d)) => Files(d, odd)
  }

  // The list receives each ordinary file of the tree and skips each special one.
  lemma {:induction false} ListCounts(l: Path, r: Path, d: Listing)
    ensures |Transfers(Build(l, r, d))| == Files(d, false) && Skipped(Build(l, r, d)) == Files(d, true)
    decreases d, 0
  {
    if d.Readable? {
      var ns := d.nodes;
      NodesCount(l, r, ns);
      var (a, b, c) := ([Own(l, r)] + Plain(l, r, ns), Linked(l, r, ns), Below(l, r, ns, true));
      TransfersConcat([Own(l, r)], Plain(l, r, ns));
      TransfersConcat(a, b);
      TransfersConcat(a + b, c + Below(l, r, ns, false));
      TransfersConcat(c, Below(l, r, ns, false));
    }
  }

  // The four lists made from some nodes.
  function Received(l: Path, r: Path, nodes: seq<Node>): nat {
    |Transfers(Plain(l, r, nodes))| + |Transfers(Linked(l, r, nodes))| +
    |Transfers(Below(l, r, nodes, true))| + |Transfers(Below(l, r, nodes, false))|
  }

  function Passed(l: Path, r: Path, nodes: seq<Node>): nat {
    Skipped(Plain(l, r, nodes)) + Skipped(Linked(l, r, nodes)) +
    Skipped(Below(l, r, nodes, true)) + Skipped(Below(l, r, nodes, false))
  }

  lemma {:induction false} NodesCount(l: Path, r: Path, nodes: seq<Node>)
    ensures Received(l, r, nodes) == FilesIn(nodes, false) && Passed(l, r, nodes) == FilesIn(nodes, true)
    decreases nodes, 0
  {
    if nodes != [] {
      var (rest, n) := (nodes[..|nodes| - 1], nodes[|nodes| - 1]);
      NodesCount(l, r, rest);
      NodeCounts(l, r, n);
      TransfersConcat(Plain(l, r, rest), PlainOne(l, r, n));
      TransfersConcat(Linked(l, r, rest), LinkedOne(l, r, n));
      TransfersConcat(BelowOne(l, r, n, true), Below(l, r, rest, true));
      TransfersConcat(BelowOne(l, r, n, false), Below(l, r, rest, false));
    }
  }

  lemma {:induction false} NodeCounts(l: Path, r: Path, n: Node)
    ensures |Transfers(PlainOne(l, r, n))| + |Transfers(LinkedOne(l, r, n))| +
            |Transfers(BelowOne(l, r, n, true))| + |Transfers(BelowOne(l, r, n, false))| == FilesAt(n, false)
    ensures Skipped(PlainOne(l, r, n)) + Skipped(LinkedOne(l, r, n)) +
            Skipped(BelowOne(l, r, n, true)) + Skipped(BelowOne(l, r, n, false)) == FilesAt(n, true)
    decreases n, 1
  {
    match n.kind
    case Dir(d) => ListCounts(l + [n.name], r + [n.name], d);
    case Link(ToDir(d)) => ListCounts(l + [n.name], r + [n.name], d);
    case _ =>
  }

  // ----- What is received, in terms of the tree -----

  // A place where there is a file to receive, or a special file.
  ghost predicate HasFile(d: Listing, route: Route, odd: bool) {
    && Leads(d, route)
    && (var kind := NodeAt(d, route).kind;
        if odd then kind.Odd? else kind.File? || kind == Link(ToFile))
  }

  // `files` are the places with files to receive, `odd` those with special ones; the former are what `list` receives.
  ghost predicate Sorts(l: Path, r: Path, d: Listing, list: seq<Entry>, routes: seq<Route>, files: seq<Route>,
                        odd: seq<Route>)
  {
    && Matches(l, r, d, Transfers(list), files) && |odd| == Skipped(list)
    && forall route :: SortedAt(d, routes, files, odd, route)
  }

  ghost predicate SortedAt(d: Listing, routes: seq<Route>, files: seq<Route>, odd: seq<Route>, route: Route) {
    && multiset(files)[route] == (if HasFile(d, route, false) then multiset(routes)[route] else 0)
    && multiset(odd)[route] == if HasFile(d, route, true) then multiset(routes)[route] else 0
  }

  lemma {:induction false} SortRoutes(l: Path, r: Path, d: Listing, list: seq<Entry>, routes: seq<Route>)
    returns (files: seq<Route>, odd: seq<Route>)
    requires Matches(l, r, d, list, routes)
    ensures Sorts(l, r, d, list, routes, files, odd)
    decreases |list|
  {
    files, odd := [], [];
    if list != [] {
      var (k, last) := (|list| - 1, routes[|list| - 1]);
      files, odd := SortRoutes(l, r, d, list[..k], routes[..k]);
      var more := if HasFile(d, last, false) then files + [last] else files;
      var rest := if HasFile(d, last, true) then odd + [last] else odd;
      ReceivedNext(l, r, d, list, routes, files, more, odd, rest);
      forall route ensures SortedAt(d, routes, more, rest, route) {
        assert SortedAt(d, routes[..k], files, odd, route);
        SortedNext(d, routes, route, files, more, odd, rest);
      }
      files, odd := more, rest;
    }
  }

  lemma {:induction false} ReceivedNext(l: Path, r: Path, d: Listing, list: seq<Entry>, routes: seq<Route>,
                                        files: seq<Route>, more: seq<Route>, odd: seq<Route>, rest: seq<Route>)
    requires list != [] && Matches(l, r, d, list, routes)
    requires Matches(l, r, d, Transfers(list[..|list| - 1]), files) && |odd| == Skipped(list[..|list| - 1])
    requires more == if HasFile(d, routes[|list| - 1], false) then files + [routes[|list| - 1]] else files
    requires rest == if HasFile(d, routes[|list| - 1], true) then odd + [routes[|list| - 1]] else odd
    ensures Matches(l, r, d, Transfers(list), more) && |rest| == Skipped(list)
  {
    var (k, last) := (|list| - 1, routes[|list| - 1]);
    HasFileMeans(l, r, d, last);
    if HasFile(d, last, false) { MatchesOne(l, r, d, Transfers(list[..k]), files, last); }
  }

  lemma {:induction false} HasFileMeans(l: Path, r: Path, d: Listing, route: Route)
    requires Leads(d, route)
    ensures
      var e := EntryAt(l, r, d, route);
      (HasFile(d, route, false) <==> !e.skip && !e.isDir) && (HasFile(d, route, true) <==> e.skip)
  {
  }

  lemma {:induction false} MatchesOne(l: Path, r: Path, d: Listing, list: seq<Entry>, routes: seq<Route>, last: Route)
    requires Matches(l, r, d, list, routes) && Leads(d, last)
    ensures Matches(l, r, d, list + [EntryAt(l, r, d, last)], routes + [last])
  {
  }

  lemma {:induction false} SortedNext(d: Listing, routes: seq<Route>, route: Route, files: seq<Route>, more: seq<Route>,
                                      odd: seq<Route>, rest: seq<Route>)
    requires routes != [] && SortedAt(d, routes[..|routes| - 1], files, odd, route)
    requires more == if HasFile(d, routes[|routes| - 1], false) then files + [routes[|routes| - 1]] else files
    requires rest == if HasFile(d, routes[|routes| - 1], true) then odd + [routes[|routes| - 1]] else odd
    ensures SortedAt(d, routes, more, rest, route)
  {
    assert routes == routes[..|routes| - 1] + [routes[|routes| - 1]];
  }

  // The directory itself is not received.
  lemma {:induction false} OwnIsNotReceived(list: seq<Entry>)
    requires list != [] && list[0].isDir && !list[0].skip
    ensures Transfers(list) == Transfers(list[1..]) && Skipped(list) == Skipped(list[1..])
  {
    assert list == [list[0]] + list[1..];
    TransfersConcat([list[0]], list[1..]);
    assert Transfers([list[0]]) == [] && Skipped([list[0]]) == 0 by { assert [list[0]][..0] == []; }
  }

  // A pull of everything: the places with files, each once, and what was received for them.
  ghost predicate Pulled(l: Path, r: Path, d: Listing, before: seq<Entry>, after: seq<Entry>, files: seq<Route>,
                         odd: seq<Route>)
  {
    && before <= after && Matches(l, r, d, after[|before|..], files)
    && forall route ::
         && multiset(files)[route] == (if HasFile(d, route, false) then 1 else 0)
         && multiset(odd)[route] == if HasFile(d, route, true) then 1 else 0
  }

  lemma {:induction false} PulledFiles(l: Path, r: Path, d: Listing, list: seq<Entry>, routes: seq<Route>,
                                       before: seq<Entry>)
    returns (files: seq<Route>, odd: seq<Route>)
    requires Completed([], list, l, r, d, routes)
    ensures Pulled(l, r, d, before, before + Transfers(list), files, odd)
    ensures |files| == |Transfers(list)| && |odd| == Skipped(list)
  {
    assert list[0 + 1..] == list[1..];
    files, odd := SortRoutes(l, r, d, list[1..], routes);
    forall route ensures
      && multiset(files)[route] == (if HasFile(d, route, false) then 1 else 0)
      && multiset(odd)[route] == if HasFile(d, route, true) then 1 else 0
    {
      assert SortedAt(d, routes, files, odd, route);
    }
    OwnIsNotReceived(list);
    assert (before + Transfers(list))[|before|..] == Transfers(list);
  }

  // The local file system: which operations succeed is a parameter.
  class LocalTree {
    const canMake: Path -> bool
    const canStamp: Entry -> bool
    const canReceive: Entry -> bool
    const bytes: Entry -> nat          // how many bytes arrive
    var dirs: set<Path>
    var received: seq<Entry>

    // mkdirs
    method Mkdirs(p: Path) returns (ok: bool)
      modifies this`dirs
      ensures ok == canMake(p) && dirs == old(dirs) + (if ok then {p} else {})
    {
      ok := canMake(p);
      if ok {
        dirs := dirs + {p};
      }
    }

    // sync_recv as far as the local tree is concerned: the file is created in an existing directory.
    method Receive(e: Entry) returns (ok: bool)
      requires Parent(e.lpath) in dirs
      modifies this`received
      ensures ok == canReceive(e) && received == old(received) + (if ok then [e] else [])
    {
      ok := canReceive(e);
      if ok {
        received := received + [e];
      }
    }

    predicate CanPull(e: Entry, copyAttrs: bool) {
      e.skip || if e.isDir then canMake(e.lpath) else canReceive(e) && (copyAttrs ==> canStamp(e))
    }

    // The directories among the first n entries exist.
    ghost predicate Made(list: seq<Entry>, n: nat)
      requires n <= |list|
      reads this`dirs
    {
      forall j :: 0 <= j < n && list[j].isDir && !list[j].skip ==> list[j].lpath in dirs
    }

    lemma ParentMade(list: seq<Entry>, i: nat)
      requires 1 <= i < |list| && Rooted(list) && Made(list, i)
      ensures Parent(list[i].lpath) in dirs
    {
      assert ParentListed(list, i);
    }

    // Entry i of the list, which is not skipped, after the entries before it.
    method Pull(sc: P.SyncSession, list: seq<Entry>, i: nat, copyAttrs: bool) returns (ok: bool)
      requires sc.Balanced() && Rooted(list) && i < |list| && list[0].isDir && Made(list, i) && !list[i].skip
      modifies this, sc`current, sc`global
      ensures sc.Balanced() && ok == CanPull(list[i], copyAttrs)
      ensures ok ==> Made(list, i + 1)
      ensures ok ==> received == if list[i].isDir then old(received) else old(received) + [list[i]]
      ensures ok ==> sc.current.files == old(sc.current.files) + if list[i].isDir then 0 else 1
      ensures sc.current.skipped == old(sc.current.skipped)
    {
      var e := list[i];
      if e.isDir {
        ok := Mkdirs(e.lpath);
        return;
      }
      ParentMade(list, i);
      ok := Receive(e);
      sc.Record(P.Ledger(if ok then 1 else 0, 0, bytes(e)));
      if !ok {
        return;
      }
      return !copyAttrs || canStamp(e);
    }

    // The loop of copy_remote_dir_local.
    method PullAll(sc: P.SyncSession, list: seq<Entry>, copyAttrs: bool) returns (ok: bool, skipped: nat)
      requires sc.Balanced() && Rooted(list) && (list != [] ==> list[0].isDir)
      modifies this, sc`current, sc`global
      ensures sc.Balanced() && sc.current.skipped == old(sc.current.skipped)
      ensures ok <==> forall i :: 0 <= i < |list| ==> CanPull(list[i], copyAttrs)
      ensures ok ==> received == old(received) + Transfers(list) && skipped == Skipped(list)
      ensures ok ==> sc.current.files == old(sc.current.files) + |Transfers(list)|
      ensures ok ==> Made(list, |list|)
    {
      skipped := 0;
      for i := 0 to |list|
        invariant sc.Balanced() && sc.current.skipped == old(sc.current.skipped)
        invariant forall j :: 0 <= j < i ==> CanPull(list[j], copyAttrs)
        invariant Made(list, i)
        invariant received == old(received) + Transfers(list[..i]) && skipped == Skipped(list[..i])
        invariant sc.current.files - |received| == old(sc.current.files - |received|)
      {
        TransfersNext(list, i);
        if list[i].skip {
          skipped := skipped + 1;
        } else {
          ok := Pull(sc, list, i, copyAttrs);
          if !ok {
            return;
          }
        }
      }
      assert list[..|list|] == list;
      return true, skipped;
    }

    // Every place that can be reached can be created or received here.
    ghost predicate CanPullAll(l: Path, r: Path, d: Listing, copyAttrs: bool) {
      && canMake(l)
      && forall route :: Counts(d, route) ==> CanPull(EntryAt(l, r, d, route), copyAttrs)
    }

    lemma {:induction false} CanPullMeans(l: Path, r: Path, d: Listing, list: seq<Entry>, routes: seq<Route>,
                                          copyAttrs: bool)
      requires Completed([], list, l, r, d, routes)
      ensures CanPullAll(l, r, d, copyAttrs) <==> forall i :: 0 <= i < |list| ==> CanPull(list[i], copyAttrs)
    {
      assert list[0 + 1..] == list[1..];
      if CanPullAll(l, r, d, copyAttrs) {
        forall i | 0 <= i < |list| ensures CanPull(list[i], copyAttrs) {
          if i > 0 { assert routes[i - 1] in multiset(routes) && list[1..][i - 1] == list[i]; }
        }
      }
      if forall i :: 0 <= i < |list| ==> CanPull(list[i], copyAttrs) {
        forall route | Counts(d, route) ensures CanPull(EntryAt(l, r, d, route), copyAttrs) {
          assert route in multiset(routes);
          var k :| 0 <= k < |routes| && routes[k] == route;
          assert list[1..][k] == list[k + 1];
        }
      }
    }

    // Every directory that can be reached exists.
    ghost predicate AllMade(l: Path, d: Listing)
      reads this`dirs
    {
      && l in dirs
      && forall route :: Leads(d, route) && Entered(NodeAt(d, route).kind).Some? ==> l + PathOf(d, route) in dirs
    }

    lemma {:induction false} MadeMeans(l: Path, r: Path, d: Listing, list: seq<Entry>, routes: seq<Route>)
      requires Completed([], list, l, r, d, routes) && Made(list, |list|)
      ensures AllMade(l, d)
    {
      assert list[0 + 1..] == list[1..];
      forall route | Leads(d, route) && Entered(NodeAt(d, route).kind).Some? ensures l + PathOf(d, route) in dirs {
        assert route in multiset(routes);
        var k :| 0 <= k < |routes| && routes[k] == route;
        assert list[1..][k] == list[k + 1];
      }
    }

    // copy_remote_dir_local.  `files`, `odd`: the places of the tree with files to receive, and with special files.
    method CopyRemoteDirLocal(sc: P.SyncSession, l: Path, r: Path, d: Listing, copyAttrs: bool)
      returns (ok: bool, ghost files: seq<Route>, ghost odd: seq<Route>)
      requires sc.Balanced()
      modifies this, sc`current, sc`global, sc`finished
      ensures sc.Balanced()
      ensures ok <==> Listable(d) && var list := Build(l, r, d);
                                     forall i :: 0 <= i < |list| ==> CanPull(list[i], copyAttrs)
      ensures ok ==> received == old(received) + Transfers(Build(l, r, d))
      ensures ok ==> sc.current.files == Files(d, false) && sc.current.skipped == Files(d, true)
      ensures ok ==> Made(Build(l, r, d), |Build(l, r, d)|)
      ensures ok <==> EveryDirectoryReads(d) && CanPullAll(l, r, d, copyAttrs)
      ensures ok ==> Pulled(l, r, d, old(received), received, files, odd) && AllMade(l, d)
      ensures ok ==> sc.current.files == |files| && sc.current.skipped == |odd|
    {
      files, odd := [], [];
      sc.NewTransfer();
      var found := new FileList();
      ghost var routes;
      ok, routes := found.RemoteBuildList(l, r, d);
      if !ok {
        return;
      }
      var list := found.entries;
      assert list == Build(l, r, d);
      DirectoriesComeFirst(l, r, d);
      ListCounts(l, r, d);
      var skipped;
      CanPullMeans(l, r, d, list, routes, copyAttrs);
      files, odd := PulledFiles(l, r, d, list, routes, received);
      ok, skipped := PullAll(sc, list, copyAttrs);
      if !ok {
        return;
      }
      MadeMeans(l, r, d, list, routes);
      sc.Record(P.Ledger(0, skipped, 0));
    }
  }
}
