// remote_build_list as a method on the list of files being built (porting/adb/client/file_sync_client.cpp).
module RemoteList {
  import opened Base
  import opened RemoteTree
  import opened RemoteRoutes

  // ----- The lists that the code keeps -----

  // linklist
  function Links(nodes: seq<Node>): seq<Node> {
    if nodes == [] then []
    else
      var n := nodes[|nodes| - 1];
      Links(nodes[..|nodes| - 1]) + if Visible(n) && n.kind.Link? then [n] else []
  }

  // dirlist: the directories, or the links to directories.
  function Subs(l: Path, r: Path, nodes: seq<Node>, links: bool): seq<Sub> {
    if nodes == [] then [] else Subs(l, r, nodes[..|nodes| - 1], links) + SubsOne(l, r, nodes[|nodes| - 1], links)
  }

  function SubsOne(l: Path, r: Path, n: Node, links: bool): seq<Sub> {
    if !Visible(n) then []
    else match n.kind
      case Dir(d) => if links then [] else [Sub(l + [n.name], r + [n.name], d)]
      case Link(ToDir(d)) => if links then [Sub(l + [n.name], r + [n.name], d)] else []
      case _ => []
  }

  lemma {:induction false} LinksSuffice(l: Path, r: Path, nodes: seq<Node>)
    ensures Linked(l, r, Links(nodes)) == Linked(l, r, nodes)
    ensures Subs(l, r, Links(nodes), true) == Subs(l, r, nodes, true)
  {
    if nodes != [] {
      var k := |nodes| - 1;
      LinksSuffice(l, r, nodes[..k]);
      if Visible(nodes[k]) && nodes[k].kind.Link? {
        assert Links(nodes)[..|Links(nodes)| - 1] == Links(nodes[..k]);
      } else {
        assert Links(nodes) == Links(nodes[..k]);
      }
    }
  }

  // What popping a list of directories from its back appends.
  function Popped(subs: seq<Sub>): seq<Entry> {
    if subs == [] then []
    else
      var s := subs[|subs| - 1];
      Build(s.lpath, s.rpath, s.dir) + Popped(subs[..|subs| - 1])
  }

  predicate AllListable(subs: seq<Sub>) {
    forall i :: 0 <= i < |subs| ==> Listable(subs[i].dir)
  }

  lemma {:induction false} PoppedConcat(a: seq<Sub>, b: seq<Sub>)
    ensures Popped(a + b) == Popped(b) + Popped(a)
  {
    if b == [] {
      assert a + b == a;
    } else {
      var s := b[|b| - 1];
      assert (a + b)[..|a + b| - 1] == a + b[..|b| - 1];
      PoppedConcat(a, b[..|b| - 1]);
    }
  }

  lemma {:induction false} SubsArePopped(l: Path, r: Path, nodes: seq<Node>, links: bool)
    ensures Popped(Subs(l, r, nodes, links)) == Below(l, r, nodes, links)
  {
    if nodes != [] {
      var (k, n) := (|nodes| - 1, nodes[|nodes| - 1]);
      SubsArePopped(l, r, nodes[..k], links);
      var (a, b) := (Subs(l, r, nodes[..k], links), SubsOne(l, r, n, links));
      assert Subs(l, r, nodes, links) == a + b;
      PoppedConcat(a, b);
      SubIsPopped(l, r, n, links);
    }
  }

  lemma SubIsPopped(l: Path, r: Path, n: Node, links: bool)
    ensures Popped(SubsOne(l, r, n, links)) == BelowOne(l, r, n, links)
  {
    if SubsOne(l, r, n, links) != [] {
      var s := SubsOne(l, r, n, links)[0];
      assert SubsOne(l, r, n, links)[..0] == [];
      assert Popped(SubsOne(l, r, n, links)) == Build(s.lpath, s.rpath, s.dir) + [];
    }
  }

  lemma {:induction false} SubsListable(l: Path, r: Path, nodes: seq<Node>)
    ensures ListableBelow(nodes) <==> AllListable(Subs(l, r, nodes, false)) && AllListable(Subs(l, r, nodes, true))
  {
    if nodes != [] {
      var k := |nodes| - 1;
      SubsListable(l, r, nodes[..k]);
      AllListableConcat(Subs(l, r, nodes[..k], false), SubsOne(l, r, nodes[k], false));
      AllListableConcat(Subs(l, r, nodes[..k], true), SubsOne(l, r, nodes[k], true));
      var n := nodes[k];
      if Visible(n) && n.kind.Dir? {
        assert SubsOne(l, r, n, false)[0].dir == n.kind.dir;
      } else if Visible(n) && n.kind.Link? && n.kind.target.ToDir? {
        assert SubsOne(l, r, n, true)[0].dir == n.kind.target.dir;
      }
    }
  }

  lemma AllListableConcat(a: seq<Sub>, b: seq<Sub>)
    ensures AllListable(a + b) <==> AllListable(a) && AllListable(b)
  {
    if AllListable(a + b) {
      forall i | 0 <= i < |a| ensures Listable(a[i].dir) { assert (a + b)[i] == a[i]; }
      forall i | 0 <= i < |b| ensures Listable(b[i].dir) { assert (a + b)[|a| + i] == b[i]; }
    }
  }

  ghost predicate Inside(subs: seq<Sub>, d: Listing) {
    forall i :: 0 <= i < |subs| ==> subs[i].dir < d
  }

  lemma {:induction false} SubsAreInside(l: Path, r: Path, d: Listing, k: nat, links: bool)
    requires d.Readable? && k <= |d.nodes|
    ensures Inside(Subs(l, r, d.nodes[..k], links), d)
  {
    if k > 0 {
      SubsAreInside(l, r, d, k - 1, links);
      assert d.nodes[..k][..k - 1] == d.nodes[..k - 1] && d.nodes[..k][k - 1] == d.nodes[k - 1];
    }
  }

  // What a finished list adds: the entry of the directory, then one for each place that can be reached.
  ghost predicate Completed(before: seq<Entry>, after: seq<Entry>, l: Path, r: Path, d: Listing, routes: seq<Route>) {
    && before < after
    && (var own := after[|before|]; own.lpath == l && own.isDir && !own.skip)
    && Matches(l, r, d, after[|before| + 1..], routes)
    && forall route :: multiset(routes)[route] == if Counts(d, route) then 1 else 0
  }

  lemma {:induction false} ListCompletes(before: seq<Entry>, l: Path, r: Path, d: Listing)
    ensures Completed(before, before + Build(l, r, d), l, r, d, Routes(d))
  {
    ListIsComplete(l, r, d);
    assert (before + Build(l, r, d))[|before| + 1..] == Build(l, r, d)[1..];
  }

  // The state of a list of files being built.
  class FileList {
    var entries: seq<Entry>

    constructor ()
      ensures entries == []
    {
      entries := [];
    }

    // The callback of remote_build_list, for all entries of a listing.
    method TakeListing(l: Path, r: Path, nodes: seq<Node>) returns (dirs: seq<Sub>, links: seq<Node>)
      modifies this
      ensures entries == old(entries) + Plain(l, r, nodes)
      ensures dirs == Subs(l, r, nodes, false) && links == Links(nodes)
    {
      dirs, links := [], [];
      for i := 0 to |nodes|
        invariant entries == old(entries) + Plain(l, r, nodes[..i])
        invariant dirs == Subs(l, r, nodes[..i], false) && links == Links(nodes[..i])
      {
        var n := nodes[i];
        assert nodes[..i + 1][..i] == nodes[..i];
        if Visible(n) {
          match n.kind
          case Dir(d) => dirs := dirs + [Sub(l + [n.name], r + [n.name], d)];
          case Link(_) => links := links + [n];
          case File(size, time) =>
            entries := entries + [Entry(l + [n.name], r + [n.name], false, size, time, false)];
          case Odd(size, time) =>
            entries := entries + [Entry(l + [n.name], r + [n.name], false, size, time, true)];
        }
      }
      assert nodes[..|nodes|] == nodes;
    }

    // Each symbolic link is a file or a directory.
    method TakeLinks(l: Path, r: Path, links: seq<Node>) returns (dirs: seq<Sub>)
      requires forall n :: n in links ==> Visible(n) && n.kind.Link?
      modifies this
      ensures entries == old(entries) + Linked(l, r, links) && dirs == Subs(l, r, links, true)
    {
      dirs := [];
      for i := 0 to |links|
        invariant entries == old(entries) + Linked(l, r, links[..i]) && dirs == Subs(l, r, links[..i], true)
      {
        var n := links[i];
        assert links[..i + 1][..i] == links[..i];
        match n.kind.target
        case StatFails =>
        case ToDir(d) => dirs := dirs + [Sub(l + [n.name], r + [n.name], d)];
        case ToFile => entries := entries + [Entry(l + [n.name], r + [n.name], false, 0, 0, false)];
      }
      assert links[..|links|] == links;
    }

    // remote_build_list.  `routes`: the places whose entries follow that of the directory itself.
    method RemoteBuildList(l: Path, r: Path, d: Listing) returns (ok: bool, ghost routes: seq<Route>)
      modifies this
      ensures ok == Listable(d) && (ok <==> EveryDirectoryReads(d))
      ensures ok ==> entries == old(entries) + Build(l, r, d)
      ensures ok ==> Completed(old(entries), entries, l, r, d, routes)
      decreases d, 1
    {
      routes := Routes(d);
      ListableMeans(d);
      ListCompletes(entries, l, r, d);
      entries := entries + [Own(l, r)];
      if d.Unreadable? {
        return false, routes;
      }
      var dirs, links := TakeListing(l, r, d.nodes);
      OnlyLinks(d.nodes);
      var more := TakeLinks(l, r, links);
      DirsToVisit(old(entries), l, r, d);
      ok := Visit(dirs + more, d);
    }

    // The loop of remote_build_list that empties the list of directories.
    method Visit(subs: seq<Sub>, ghost d: Listing) returns (ok: bool)
      requires Inside(subs, d)
      modifies this
      ensures ok == AllListable(subs)
      ensures ok ==> entries == old(entries) + Popped(subs)
      decreases d, 0
    {
      var dirs := subs;
      while dirs != []
        invariant |dirs| <= |subs| && dirs == subs[..|dirs|]
        invariant AllListable(subs) == AllListable(dirs)
        invariant entries + Popped(dirs) == old(entries) + Popped(subs)
        decreases |dirs|
      {
        var current := dirs[|dirs| - 1];
        PopLast(dirs);
        Assoc(entries, Build(current.lpath, current.rpath, current.dir), Popped(dirs[..|dirs| - 1]));
        dirs := dirs[..|dirs| - 1];
        ghost var routes;
        ok, routes := RemoteBuildList(current.lpath, current.rpath, current.dir);
        if !ok {
          return;
        }
      }
      return true;
    }
  }

  lemma {:induction false} OnlyLinks(nodes: seq<Node>)
    ensures forall n :: n in Links(nodes) ==> Visible(n) && n.kind.Link?
  {
    if nodes != [] {
      OnlyLinks(nodes[..|nodes| - 1]);
    }
  }

  lemma PopLast(dirs: seq<Sub>)
    requires dirs != []
    ensures AllListable(dirs) <==> Listable(dirs[|dirs| - 1].dir) && AllListable(dirs[..|dirs| - 1])
  {
    var k := |dirs| - 1;
    if AllListable(dirs[..k]) && Listable(dirs[k].dir) {
      forall i | 0 <= i < |dirs| ensures Listable(dirs[i].dir) {
        if i < k { assert dirs[..k][i] == dirs[i]; }
      }
    }
  }

  lemma Assoc4<T>(a: seq<T>, b: seq<T>, c: seq<T>, d: seq<T>, e: seq<T>)
    ensures a + (b + c + d + e) == a + b + c + d + e
  {
  }

  lemma DirsToVisit(done: seq<Entry>, l: Path, r: Path, d: Listing)
    requires d.Readable?
    ensures
      var (ns, links) := (d.nodes, Links(d.nodes));
      var dirs := Subs(l, r, ns, false) + Subs(l, r, links, true);
      && Inside(dirs, d) && (Listable(d) <==> AllListable(dirs))
      && done + [Own(l, r)] + Plain(l, r, ns) + Linked(l, r, links) + Popped(dirs) == done + Build(l, r, d)
  {
    var (a, b) := (Subs(l, r, d.nodes, false), Subs(l, r, d.nodes, true));
    LinksSuffice(l, r, d.nodes);
    AllInside(l, r, d);
    SubsListable(l, r, d.nodes);
    AllListableConcat(a, b);
    assert Popped(a + b) == Below(l, r, d.nodes, true) + Below(l, r, d.nodes, false) by {
      PoppedConcat(a, b);
      SubsArePopped(l, r, d.nodes, false);
      SubsArePopped(l, r, d.nodes, true);
    }
    Assoc4(done, [Own(l, r)], Plain(l, r, d.nodes), Linked(l, r, d.nodes), Popped(a + b));
  }

  lemma AllInside(l: Path, r: Path, d: Listing)
    requires d.Readable?
    ensures Inside(Subs(l, r, d.nodes, false) + Subs(l, r, d.nodes, true), d)
  {
    SubsAreInside(l, r, d, |d.nodes|, false);
    SubsAreInside(l, r, d, |d.nodes|, true);
    assert d.nodes[..|d.nodes|] == d.nodes;
  }
}
