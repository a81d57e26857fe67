// What the list of remote_build_list holds, in terms of the remote tree alone: the places in the tree that can be
// reached by names other than "." and "..", through directories and links to directories.
module RemoteRoutes {
  import opened Base
  import opened RemoteTree

  // A place below a directory: the position of a node in its listing, then of one in the listing of that node, ...
  type Route = seq<nat>

  // The directory that a node is, or leads to.
  function Entered(kind: Kind): Option<Listing> {
    match kind
    case Dir(d) => Some(d)
    case Link(ToDir(d)) => Some(d)
    case _ => None
  }

  ghost predicate Leads(d: Listing, route: Route)
    decreases |route|
  {
    && route != [] && d.Readable? && route[0] < |d.nodes| && d.nodes[route[0]].name.Named?
    && (|route| > 1 ==>
          && Entered(d.nodes[route[0]].kind).Some?
          && Leads(Entered(d.nodes[route[0]].kind).value, route[1..]))
  }

  ghost function NodeAt(d: Listing, route: Route): Node
    requires Leads(d, route)
    decreases |route|
  {
    var n := d.nodes[route[0]];
    if |route| == 1 then n else NodeAt(Entered(n.kind).value, route[1..])
  }

  ghost function PathOf(d: Listing, route: Route): Path
    requires Leads(d, route)
    decreases |route|
  {
    var n := d.nodes[route[0]];
    [n.name] + if |route| == 1 then [] else PathOf(Entered(n.kind).value, route[1..])
  }

  // The entry of a node whose path below the directory is p.  A link to a file has neither size nor time.
  function EntryFor(l: Path, r: Path, p: Path, kind: Kind): Entry {
    match kind
    case File(size, time) => Entry(l + p, r + p, false, size, time, false)
    case Odd(size, time) => Entry(l + p, r + p, false, size, time, true)
    case Link(ToFile) => Entry(l + p, r + p, false, 0, 0, false)
    case _ => Entry(l + p, r + p, true, 0, 0, false)
  }

  ghost function EntryAt(l: Path, r: Path, d: Listing, route: Route): Entry
    requires Leads(d, route)
  {
    EntryFor(l, r, PathOf(d, route), NodeAt(d, route).kind)
  }

  // Does the place have an entry?  All have, except links whose stat fails.
  ghost predicate Counts(d: Listing, route: Route) {
    Leads(d, route) && NodeAt(d, route).kind != Link(StatFails)
  }

  // The list holds the entries of these places, in this order.
  ghost predicate Matches(l: Path, r: Path, d: Listing, list: seq<Entry>, routes: seq<Route>) {
    && |list| == |routes|
    && forall k :: 0 <= k < |routes| ==> Leads(d, routes[k]) && list[k] == EntryAt(l, r, d, routes[k])
  }

  // ----- The places in the order of the list -----

  function Prefixed(k: nat, routes: seq<Route>): seq<Route> {
    seq(|routes|, i requires 0 <= i < |routes| => [k] + routes[i])
  }

  function PlainRoutes(nodes: seq<Node>): seq<Route> {
    if nodes == [] then []
    else
      var (k, n) := (|nodes| - 1, nodes[|nodes| - 1]);
      PlainRoutes(nodes[..k]) + if Visible(n) && (n.kind.File? || n.kind.Odd?) then [[k]] else []
  }

  function LinkedRoutes(nodes: seq<Node>): seq<Route> {
    if nodes == [] then []
    else
      var (k, n) := (|nodes| - 1, nodes[|nodes| - 1]);
      LinkedRoutes(nodes[..k]) + if Visible(n) && n.kind == Link(ToFile) then [[k]] else []
  }

  function BelowRoutes(nodes: seq<Node>, links: bool): seq<Route>
    decreases nodes, 0
  {
    if nodes == [] then []
    else BelowOneRoutes(|nodes| - 1, nodes[|nodes| - 1], links) + BelowRoutes(nodes[..|nodes| - 1], links)
  }

  function BelowOneRoutes(k: nat, n: Node, links: bool): seq<Route>
    decreases n, 1
  {
    if !Visible(n) then []
    else match n.kind
      case Dir(d) => if links then [] else [[k]] + Prefixed(k, Routes(d))
      case Link(ToDir(d)) => if links then [[k]] + Prefixed(k, Routes(d)) else []
      case _ => []
  }

  function Routes(d: Listing): seq<Route>
    decreases d, 0
  {
    match d
    case Unreadable => []
    case Readable(nodes) =>
      PlainRoutes(nodes) + LinkedRoutes(nodes) + (BelowRoutes(nodes, true) + BelowRoutes(nodes, false))
  }

  // ----- Each place occurs once -----

  function One(b: bool): nat { if b then 1 else 0 }

  lemma {:induction false} PrefixedCount(k: nat, routes: seq<Route>, route: Route)
    ensures multiset(Prefixed(k, routes))[route] ==
            if route != [] && route[0] == k then multiset(routes)[route[1..]] else 0
    decreases |routes|
  {
    if routes == [] {
      assert Prefixed(k, routes) == [];
    } else {
      var (rest, last) := (routes[..|routes| - 1], routes[|routes| - 1]);
      PrefixedCount(k, rest, route);
      assert routes == rest + [last];
      assert Prefixed(k, routes) == Prefixed(k, rest) + [[k] + last];
      assert ([k] + last)[1..] == last;
      if route != [] && route[0] == k && route[1..] == last { assert route == [k] + last; }
    }
  }

  // The route leads to a node of the listing that has a name and satisfies p.
  ghost predicate IsLeaf(nodes: seq<Node>, route: Route, p: Kind -> bool) {
    |route| == 1 && route[0] < |nodes| && nodes[route[0]].name.Named? && p(nodes[route[0]].kind)
  }

  const IsPlain := (k: Kind) => k.File? || k.Odd?
  const IsFileLink := (k: Kind) => k == Link(ToFile)

  lemma {:induction false} LeafNext(nodes: seq<Node>, route: Route, p: Kind -> bool)
    requires nodes != []
    ensures
      var (k, n) := (|nodes| - 1, nodes[|nodes| - 1]);
      One(IsLeaf(nodes, route, p)) == One(IsLeaf(nodes[..k], route, p)) + One(route == [k] && n.name.Named? && p(n.kind))
  {
  }

  lemma {:induction false} PlainCount(nodes: seq<Node>, route: Route)
    ensures multiset(PlainRoutes(nodes))[route] == One(IsLeaf(nodes, route, IsPlain))
  {
    if nodes != [] {
      PlainCount(nodes[..|nodes| - 1], route);
      LeafNext(nodes, route, IsPlain);
    }
  }

  lemma {:induction false} LinkedCount(nodes: seq<Node>, route: Route)
    ensures multiset(LinkedRoutes(nodes))[route] == One(IsLeaf(nodes, route, IsFileLink))
  {
    if nodes != [] {
      LinkedCount(nodes[..|nodes| - 1], route);
      LeafNext(nodes, route, IsFileLink);
    }
  }

  // The route goes into, or ends at, a directory or (links) a link to one, and has an entry.
  ghost predicate GoesInto(nodes: seq<Node>, links: bool, route: Route) {
    route != [] && route[0] < |nodes| && GoesOn(nodes[route[0]], links, route[1..])
  }

  ghost predicate GoesOn(n: Node, links: bool, rest: Route) {
    && n.name.Named? && n.kind.Link? == links && Entered(n.kind).Some?
    && (rest == [] || Counts(Entered(n.kind).value, rest))
  }

  lemma {:induction false} BelowCount(nodes: seq<Node>, links: bool, route: Route)
    ensures multiset(BelowRoutes(nodes, links))[route] == One(GoesInto(nodes, links, route))
    decreases nodes, 0
  {
    if nodes != [] {
      var (k, n) := (|nodes| - 1, nodes[|nodes| - 1]);
      BelowCount(nodes[..k], links, route);
      BelowOneCount(k, n, links, route);
      if route != [] && route[0] < k { assert nodes[..k][route[0]] == nodes[route[0]]; }
    }
  }

  lemma {:induction false} BelowOneCount(k: nat, n: Node, links: bool, route: Route)
    ensures multiset(BelowOneRoutes(k, n, links))[route] ==
            One(route != [] && route[0] == k && GoesOn(n, links, route[1..]))
    decreases n, 1
  {
    if Visible(n) && n.kind.Link? == links && Entered(n.kind).Some? {
      var d := Entered(n.kind).value;
      if route != [] { RoutesCount(d, route[1..]); }
      DownCount(k, d, route);
      assert BelowOneRoutes(k, n, links) == [[k]] + Prefixed(k, Routes(d));
    }
  }

  lemma {:induction false} DownCount(k: nat, d: Listing, route: Route)
    requires route != [] ==> multiset(Routes(d))[route[1..]] == One(Counts(d, route[1..]))
    ensures multiset([[k]] + Prefixed(k, Routes(d)))[route] ==
            One(route != [] && route[0] == k && (route[1..] == [] || Counts(d, route[1..])))
  {
    PrefixedCount(k, Routes(d), route);
    if route != [] && route[0] == k && route[1..] == [] { assert route == [k]; }
  }

  // Every place that has an entry, once; no other.
  lemma {:induction false} RoutesCount(d: Listing, route: Route)
    ensures multiset(Routes(d))[route] == One(Counts(d, route))
    decreases d, 0
  {
    if d.Readable? {
      PlainCount(d.nodes, route);
      LinkedCount(d.nodes, route);
      BelowCount(d.nodes, true, route);
      BelowCount(d.nodes, false, route);
      CountsByKind(d, route);
      FourCounts(PlainRoutes(d.nodes), LinkedRoutes(d.nodes), BelowRoutes(d.nodes, true), BelowRoutes(d.nodes, false),
                 route);
    }
  }

  lemma {:induction false} FourCounts(a: seq<Route>, b: seq<Route>, c: seq<Route>, e: seq<Route>, route: Route)
    ensures multiset(a + b + (c + e))[route] ==
            multiset(a)[route] + multiset(b)[route] + multiset(c)[route] + multiset(e)[route]
  {
  }

  lemma {:induction false} CountsByKind(d: Listing, route: Route)
    requires d.Readable?
    ensures One(Counts(d, route)) ==
            One(IsLeaf(d.nodes, route, IsPlain)) + One(IsLeaf(d.nodes, route, IsFileLink)) +
            One(GoesInto(d.nodes, true, route)) + One(GoesInto(d.nodes, false, route))
  {
    if route != [] && route[0] < |d.nodes| && d.nodes[route[0]].name.Named? {
      assert route[1..] == [] <==> |route| == 1;
      match d.nodes[route[0]].kind
      case File(_, _) =>
      case Odd(_, _) =>
      case Dir(_) =>
      case Link(StatFails) =>
      case Link(ToFile) =>
      case Link(ToDir(_)) =>
    }
  }

  // ----- The entries of the list are those of the places -----

  lemma {:induction false} MatchesConcat(l: Path, r: Path, d: Listing, a: seq<Entry>, ra: seq<Route>, b: seq<Entry>, rb: seq<Route>)
    requires Matches(l, r, d, a, ra) && Matches(l, r, d, b, rb)
    ensures Matches(l, r, d, a + b, ra + rb)
  {
  }

  // A place one directory down.
  lemma {:induction false} OneDown(l: Path, r: Path, d: Listing, k: nat, route: Route)
    requires d.Readable? && k < |d.nodes| && d.nodes[k].name.Named? && Entered(d.nodes[k].kind).Some?
    requires Leads(Entered(d.nodes[k].kind).value, route)
    ensures
      var (n, sub) := (d.nodes[k], Entered(d.nodes[k].kind).value);
      Leads(d, [k] + route) && EntryAt(l, r, d, [k] + route) == EntryAt(l + [n.name], r + [n.name], sub, route)
  {
    var (n, sub) := (d.nodes[k], Entered(d.nodes[k].kind).value);
    assert ([k] + route)[1..] == route;
    var p := PathOf(sub, route);
    assert PathOf(d, [k] + route) == [n.name] + p;
    Assoc(l, [n.name], p);
    Assoc(r, [n.name], p);
  }

  lemma {:induction false} DownMatches(l: Path, r: Path, d: Listing, k: nat, list: seq<Entry>, routes: seq<Route>)
    requires d.Readable? && k < |d.nodes| && d.nodes[k].name.Named? && Entered(d.nodes[k].kind).Some?
    requires
      var (n, sub) := (d.nodes[k], Entered(d.nodes[k].kind).value);
      Matches(l + [n.name], r + [n.name], sub, list, routes)
    ensures Matches(l, r, d, list, Prefixed(k, routes))
  {
    forall i | 0 <= i < |routes|
      ensures Leads(d, Prefixed(k, routes)[i]) && list[i] == EntryAt(l, r, d, Prefixed(k, routes)[i])
    {
      OneDown(l, r, d, k, routes[i]);
    }
  }

  lemma {:induction false} LeafMatches(l: Path, r: Path, d: Listing, k: nat)
    requires d.Readable? && k < |d.nodes| && d.nodes[k].name.Named?
    ensures Leads(d, [k]) && EntryAt(l, r, d, [k]) == EntryFor(l, r, [d.nodes[k].name], d.nodes[k].kind)
  {
  }

  lemma {:induction false} LeavesMatch(l: Path, r: Path, d: Listing, n: nat)
    requires d.Readable? && n <= |d.nodes|
    ensures Matches(l, r, d, Plain(l, r, d.nodes[..n]), PlainRoutes(d.nodes[..n]))
    ensures Matches(l, r, d, Linked(l, r, d.nodes[..n]), LinkedRoutes(d.nodes[..n]))
  {
    if n > 0 {
      LeavesMatch(l, r, d, n - 1);
      var (ns, x) := (d.nodes[..n - 1], d.nodes[n - 1]);
      assert d.nodes[..n][..n - 1] == ns && d.nodes[..n][n - 1] == x;
      LeafMatch(l, r, d, n - 1);
      var (p, q) := (Visible(x) && (x.kind.File? || x.kind.Odd?), Visible(x) && x.kind == Link(ToFile));
      MatchesConcat(l, r, d, Plain(l, r, ns), PlainRoutes(ns), PlainOne(l, r, x), if p then [[n - 1]] else []);
      MatchesConcat(l, r, d, Linked(l, r, ns), LinkedRoutes(ns), LinkedOne(l, r, x), if q then [[n - 1]] else []);
    }
  }

  lemma {:induction false} LeafMatch(l: Path, r: Path, d: Listing, k: nat)
    requires d.Readable? && k < |d.nodes|
    ensures
      var x := d.nodes[k];
      && Matches(l, r, d, PlainOne(l, r, x), if Visible(x) && (x.kind.File? || x.kind.Odd?) then [[k]] else [])
      && Matches(l, r, d, LinkedOne(l, r, x), if Visible(x) && x.kind == Link(ToFile) then [[k]] else [])
  {
    if Visible(d.nodes[k]) { LeafMatches(l, r, d, k); }
  }

  // The list begins with the directory itself.
  lemma {:induction false} OwnIsFirst(l: Path, r: Path, d: Listing)
    ensures Build(l, r, d) != [] && Build(l, r, d)[0] == Own(l, r)
  {
  }

  lemma {:induction false} BelowMatches(l: Path, r: Path, d: Listing, n: nat, links: bool)
    requires d.Readable? && n <= |d.nodes|
    ensures Matches(l, r, d, Below(l, r, d.nodes[..n], links), BelowRoutes(d.nodes[..n], links))
    decreases d, 0, n
  {
    if n > 0 {
      BelowMatches(l, r, d, n - 1, links);
      assert d.nodes[..n][..n - 1] == d.nodes[..n - 1] && d.nodes[..n][n - 1] == d.nodes[n - 1];
      NodeMatches(l, r, d, n - 1, links);
      MatchesConcat(l, r, d, BelowOne(l, r, d.nodes[n - 1], links), BelowOneRoutes(n - 1, d.nodes[n - 1], links),
                    Below(l, r, d.nodes[..n - 1], links), BelowRoutes(d.nodes[..n - 1], links));
    }
  }

  lemma {:induction false} OneBelow(l: Path, r: Path, k: nat, n: Node, links: bool)
    requires Visible(n) && n.kind.Link? == links && Entered(n.kind).Some?
    ensures
      var (sub, l', r') := (Entered(n.kind).value, l + [n.name], r + [n.name]);
      && BelowOne(l, r, n, links) == [Own(l', r')] + Build(l', r', sub)[1..]
      && BelowOneRoutes(k, n, links) == [[k]] + Prefixed(k, Routes(sub))
  {
    OwnIsFirst(l + [n.name], r + [n.name], Entered(n.kind).value);
  }

  lemma {:induction false} NodeMatches(l: Path, r: Path, d: Listing, k: nat, links: bool)
    requires d.Readable? && k < |d.nodes|
    ensures Matches(l, r, d, BelowOne(l, r, d.nodes[k], links), BelowOneRoutes(k, d.nodes[k], links))
    decreases d, 0, k
  {
    var n := d.nodes[k];
    if Visible(n) && n.kind.Link? == links && Entered(n.kind).Some? {
      var (sub, l', r') := (Entered(n.kind).value, l + [n.name], r + [n.name]);
      ListMatches(l', r', sub);
      LeafMatches(l, r, d, k);
      DownMatches(l, r, d, k, Build(l', r', sub)[1..], Routes(sub));
      OwnIsFirst(l', r', sub);
      OneBelow(l, r, k, n, links);
      assert Own(l', r') == EntryAt(l, r, d, [k]);
      MatchesConcat(l, r, d, [Own(l', r')], [[k]], Build(l', r', sub)[1..], Prefixed(k, Routes(sub)));
    }
  }

  lemma {:induction false} BehindOwn(l: Path, r: Path, d: Listing)
    requires d.Readable?
    ensures Build(l, r, d)[1..] ==
            Plain(l, r, d.nodes) + Linked(l, r, d.nodes) + (Below(l, r, d.nodes, true) + Below(l, r, d.nodes, false))
  {
    var (a, b, c) := (Plain(l, r, d.nodes), Linked(l, r, d.nodes), Below(l, r, d.nodes, true) + Below(l, r, d.nodes, false));
    assert Build(l, r, d) == [Own(l, r)] + a + b + c;
    assert ([Own(l, r)] + a + b + c)[1..] == a + b + c;
  }

  lemma {:induction false} ListMatches(l: Path, r: Path, d: Listing)
    ensures Build(l, r, d) != [] && Build(l, r, d)[0] == Own(l, r)
    ensures Matches(l, r, d, Build(l, r, d)[1..], Routes(d))
    decreases d, 1
  {
    if d.Readable? {
      var ns := d.nodes;
      assert ns[..|ns|] == ns;
      LeavesMatch(l, r, d, |ns|);
      BelowMatches(l, r, d, |ns|, true);
      BelowMatches(l, r, d, |ns|, false);
      var (a, b, u, v) := (Plain(l, r, ns), Linked(l, r, ns), Below(l, r, ns, true), Below(l, r, ns, false));
      MatchesConcat(l, r, d, a, PlainRoutes(ns), b, LinkedRoutes(ns));
      MatchesConcat(l, r, d, u, BelowRoutes(ns, true), v, BelowRoutes(ns, false));
      MatchesConcat(l, r, d, a + b, PlainRoutes(ns) + LinkedRoutes(ns), u + v,
                    BelowRoutes(ns, true) + BelowRoutes(ns, false));
      BehindOwn(l, r, d);
    }
    OwnIsFirst(l, r, d);
  }

  // ----- Main results -----

  // Behind the entry of the directory itself, the list holds one entry for each place that can be reached, with the
  // path, the size, the time and the skip flag of what is there, except links whose stat fails; and nothing else.
  lemma {:induction false} ListIsComplete(l: Path, r: Path, d: Listing)
    ensures Build(l, r, d)[0].lpath == l && Build(l, r, d)[0].isDir && !Build(l, r, d)[0].skip
    ensures Matches(l, r, d, Build(l, r, d)[1..], Routes(d))
    ensures forall route :: multiset(Routes(d))[route] == One(Counts(d, route))
  {
    ListMatches(l, r, d);
    forall route ensures multiset(Routes(d))[route] == One(Counts(d, route)) { RoutesCount(d, route); }
  }

  // The tree can be listed exactly when the directory and every directory that can be reached can be read.
  ghost predicate EveryDirectoryReads(d: Listing) {
    && d.Readable?
    && forall route :: Leads(d, route) && Entered(NodeAt(d, route).kind).Some? ==>
         Entered(NodeAt(d, route).kind).value.Readable?
  }

  lemma {:induction false} ListableMeans(d: Listing)
    ensures Listable(d) <==> EveryDirectoryReads(d)
    decreases d, 1
  {
    if d.Readable? {
      assert d.nodes[..|d.nodes|] == d.nodes;
      ListableNodes(d, |d.nodes|);
    }
  }

  // The same for the places that begin at one of the first n nodes.
  ghost predicate ReadsFrom(d: Listing, n: nat) {
    forall route :: Leads(d, route) && route[0] < n && Entered(NodeAt(d, route).kind).Some? ==>
      Entered(NodeAt(d, route).kind).value.Readable?
  }

  lemma {:induction false} ListableNodes(d: Listing, n: nat)
    requires d.Readable? && n <= |d.nodes|
    ensures ListableBelow(d.nodes[..n]) <==> ReadsFrom(d, n)
    decreases d, 0, n
  {
    if n > 0 {
      var (k, node) := (n - 1, d.nodes[n - 1]);
      ListableNodes(d, k);
      assert d.nodes[..n][..k] == d.nodes[..k] && d.nodes[..n][k] == node;
      if Visible(node) && Entered(node.kind).Some? {
        var sub := Entered(node.kind).value;
        ListableMeans(sub);
        SubReads(d, k);
      } else {
        forall route | Leads(d, route) && route[0] == k ensures Entered(NodeAt(d, route).kind).None? {
          assert |route| == 1;
        }
      }
    }
  }

  lemma {:induction false} SubReads(d: Listing, k: nat)
    requires d.Readable? && k < |d.nodes| && d.nodes[k].name.Named? && Entered(d.nodes[k].kind).Some?
    ensures ReadsFrom(d, k + 1) <==> ReadsFrom(d, k) && EveryDirectoryReads(Entered(d.nodes[k].kind).value)
  {
    var sub := Entered(d.nodes[k].kind).value;
    if ReadsFrom(d, k + 1) {
      LeafMatches([], [], d, k);
      assert NodeAt(d, [k]) == d.nodes[k];
      forall route | Leads(sub, route) && Entered(NodeAt(sub, route).kind).Some?
        ensures Entered(NodeAt(sub, route).kind).value.Readable?
      {
        OneDown([], [], d, k, route);
        assert ([k] + route)[1..] == route;
        assert NodeAt(d, [k] + route) == NodeAt(sub, route);
      }
    }
    if ReadsFrom(d, k) && EveryDirectoryReads(sub) {
      forall route | Leads(d, route) && route[0] == k && Entered(NodeAt(d, route).kind).Some?
        ensures Entered(NodeAt(d, route).kind).value.Readable?
      {
        if |route| > 1 { assert Leads(sub, route[1..]) && NodeAt(d, route) == NodeAt(sub, route[1..]); }
      }
    }
  }
}
