// remote_build_list and copy_remote_dir_local (porting/adb/client/file_sync_client.cpp).  A remote directory
// is a finite tree, a path a sequence of components.
module RemoteTree {
  import opened Base

  datatype Name = Dot | DotDot | Named(name: string)

  type Path = seq<Name>

  datatype Node = Node(name: Name, kind: Kind)

  // File: what should_pull_file accepts; Odd: other special files.
  datatype Kind = File(size: nat, time: int) | Odd(size: nat, time: int) | Link(target: Target) | Dir(dir: Listing)

  // What stat finds behind a symbolic link.
  datatype Target = StatFails | ToFile | ToDir(dir: Listing)

  // The answer to ID_LIST.
  datatype Listing = Unreadable | Readable(nodes: seq<Node>)

  // copyinfo
  datatype Entry = Entry(lpath: Path, rpath: Path, isDir: bool, size: nat, time: int, skip: bool)

  datatype Sub = Sub(lpath: Path, rpath: Path, dir: Listing)

  function Parent(p: Path): Path {
    if p == [] then [] else p[..|p| - 1]
  }

  // The entry of a directory itself: its remote path is given the last component of the local one.
  function Own(l: Path, r: Path): Entry {
    Entry(l, Parent(r) + (if l == [] then [] else [l[|l| - 1]]), true, 0, 0, false)
  }

  predicate Visible(n: Node) {
    n.name.Named?
  }

  // ----- The list in the order of the code -----

  // Files and special files, in the order of the listing.
  function Plain(l: Path, r: Path, nodes: seq<Node>): seq<Entry> {
    if nodes == [] then [] else Plain(l, r, nodes[..|nodes| - 1]) + PlainOne(l, r, nodes[|nodes| - 1])
  }

  function PlainOne(l: Path, r: Path, n: Node): seq<Entry> {
    if !Visible(n) then []
    else match n.kind
      case File(size, time) => [Entry(l + [n.name], r + [n.name], false, size, time, false)]
      case Odd(size, time) => [Entry(l + [n.name], r + [n.name], false, size, time, true)]
      case _ => []
  }

  // Links to files.
  function Linked(l: Path, r: Path, nodes: seq<Node>): seq<Entry> {
    if nodes == [] then [] else Linked(l, r, nodes[..|nodes| - 1]) + LinkedOne(l, r, nodes[|nodes| - 1])
  }

  function LinkedOne(l: Path, r: Path, n: Node): seq<Entry> {
    if Visible(n) && n.kind == Link(ToFile) then [Entry(l + [n.name], r + [n.name], false, 0, 0, false)] else []
  }

  // What is below the directories, or below the links to directories; the last one comes first.
  function Below(l: Path, r: Path, nodes: seq<Node>, links: bool): seq<Entry>
    decreases nodes, 0
  {
    if nodes == [] then []
    else BelowOne(l, r, nodes[|nodes| - 1], links) + Below(l, r, nodes[..|nodes| - 1], links)
  }

  function BelowOne(l: Path, r: Path, n: Node, links: bool): seq<Entry>
    decreases n, 1
  {
    if !Visible(n) then []
    else match n.kind
      case Dir(d) => if links then [] else Build(l + [n.name], r + [n.name], d)
      case Link(ToDir(d)) => if links then Build(l + [n.name], r + [n.name], d) else []
      case _ => []
  }

  function Build(l: Path, r: Path, d: Listing): seq<Entry>
    decreases d, 0
  {
    match d
    case Unreadable => [Own(l, r)]
    case Readable(nodes) =>
      [Own(l, r)] + Plain(l, r, nodes) + Linked(l, r, nodes) + (Below(l, r, nodes, true) + Below(l, r, nodes, false))
  }

  // Can the directory and everything that is a directory inside be listed?
  predicate Listable(d: Listing)
    decreases d, 0
  {
    d.Readable? && ListableBelow(d.nodes)
  }

  predicate ListableBelow(nodes: seq<Node>)
    decreases nodes, 0
  {
    nodes == [] || (ListableBelow(nodes[..|nodes| - 1]) && ListableAt(nodes[|nodes| - 1]))
  }

  predicate ListableAt(n: Node)
    decreases n, 1
  {
    Visible(n) ==> match n.kind
                   case Dir(d) => Listable(d)
                   case Link(ToDir(d)) => Listable(d)
                   case _ => true
  }

  // ----- The order of the list -----

  // Every entry comes after the entry of the directory it is in, or is directly in `base`.
  ghost predicate ParentsFirst(list: seq<Entry>, base: Path) {
    forall i :: 0 <= i < |list| ==> ParentListed(list, i) || Parent(list[i].lpath) == base
  }

  ghost predicate ParentListed(list: seq<Entry>, i: nat)
    requires i < |list|
  {
    Listed(list[..i], Parent(list[i].lpath))
  }

  // The list creates the directory.
  ghost predicate Listed(list: seq<Entry>, dir: Path) {
    exists j :: 0 <= j < |list| && list[j].isDir && !list[j].skip && list[j].lpath == dir
  }

  // All entries but the first come after the entry of the directory that they are in.
  ghost predicate Rooted(list: seq<Entry>) {
    forall i :: 1 <= i < |list| ==> ParentListed(list, i)
  }

  lemma ParentsFirstAppend(a: seq<Entry>, b: seq<Entry>, base: Path)
    requires ParentsFirst(a, base) && ParentsFirst(b, base)
    ensures ParentsFirst(a + b, base)
  {
    forall i | 0 <= i < |a + b| && Parent((a + b)[i].lpath) != base
      ensures ParentListed(a + b, i)
    {
      if i < |a| {
        assert ParentListed(a, i);
        assert (a + b)[..i] == a[..i];
      } else {
        var k := i - |a|;
        assert ParentListed(b, k);
        var j :| 0 <= j < k && b[j].isDir && !b[j].skip && b[j].lpath == Parent(b[k].lpath);
        assert (a + b)[..i][|a| + j] == b[j];
      }
    }
  }

  lemma ListedBehind(own: Entry, list: seq<Entry>, dir: Path)
    requires Listed(list, dir)
    ensures Listed([own] + list, dir)
  {
    var j :| 0 <= j < |list| && list[j].isDir && !list[j].skip && list[j].lpath == dir;
    assert ([own] + list)[j + 1] == list[j];
  }

  // The directory's own entry supplies the base.
  lemma ParentsFirstUnder(own: Entry, list: seq<Entry>)
    requires own.isDir && !own.skip && ParentsFirst(list, own.lpath)
    ensures Rooted([own] + list) && ParentsFirst([own] + list, Parent(own.lpath))
  {
    var all := [own] + list;
    forall i | 1 <= i < |all| ensures ParentListed(all, i) {
      var dir := Parent(list[i - 1].lpath);
      if dir == own.lpath {
        assert all[..i][0] == own;
      } else {
        assert ParentListed(list, i - 1);
        assert all[..i] == [own] + list[..i - 1];
        ListedBehind(own, list[..i - 1], dir);
      }
    }
  }

  // Every directory's entry comes before the entries of everything in it.
  lemma {:induction false} DirectoriesComeFirst(l: Path, r: Path, d: Listing)
    ensures Build(l, r, d)[0] == Own(l, r) && Rooted(Build(l, r, d))
    ensures ParentsFirst(Build(l, r, d), Parent(l))
    decreases d, 0
  {
    if d.Readable? {
      var ns := d.nodes;
      FilesAreInside(l, r, ns);
      BelowComesFirst(l, r, ns, true);
      BelowComesFirst(l, r, ns, false);
      var (a, b) := (Plain(l, r, ns) + Linked(l, r, ns), Below(l, r, ns, true) + Below(l, r, ns, false));
      ParentsFirstAppend(Below(l, r, ns, true), Below(l, r, ns, false), l);
      ParentsFirstAppend(a, b, l);
      ParentsFirstUnder(Own(l, r), a + b);
      assert Build(l, r, d) == [Own(l, r)] + (a + b);
    } else {
      assert Build(l, r, d) == [Own(l, r)];
    }
  }

  lemma {:induction false} FilesAreInside(l: Path, r: Path, nodes: seq<Node>)
    ensures ParentsFirst(Plain(l, r, nodes) + Linked(l, r, nodes), l)
    ensures forall e :: e in Plain(l, r, nodes) + Linked(l, r, nodes) ==> Parent(e.lpath) == l
  {
    if nodes != [] {
      FilesAreInside(l, r, nodes[..|nodes| - 1]);
    }
  }

  lemma {:induction false} BelowComesFirst(l: Path, r: Path, nodes: seq<Node>, links: bool)
    ensures ParentsFirst(Below(l, r, nodes, links), l)
    decreases nodes, 0
  {
    if nodes != [] {
      var n := nodes[|nodes| - 1];
      BelowComesFirst(l, r, nodes[..|nodes| - 1], links);
      NodeComesFirst(l, r, n, links);
      ParentsFirstAppend(BelowOne(l, r, n, links), Below(l, r, nodes[..|nodes| - 1], links), l);
    }
  }

  lemma {:induction false} NodeComesFirst(l: Path, r: Path, n: Node, links: bool)
    ensures ParentsFirst(BelowOne(l, r, n, links), l)
    decreases n, 1
  {
    assert Parent(l + [n.name]) == l;
    match n.kind
    case Dir(d) => DirectoriesComeFirst(l + [n.name], r + [n.name], d);
    case Link(ToDir(d)) => DirectoriesComeFirst(l + [n.name], r + [n.name], d);
    case _ =>
  }
}
