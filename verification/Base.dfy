// Small vocabulary shared by the other modules.
module Base {

  datatype Option<+T> = None | Some(value: T)

  // std::list::remove: drops every occurrence of x and keeps the order of the rest.
  function Remove<T(==)>(xs: seq<T>, x: T): seq<T> {
    if xs == [] then []
    else if xs[0] == x then Remove(xs[1..], x)
    else [xs[0]] + Remove(xs[1..], x)
  }

  lemma {:induction false} RemoveCount<T>(xs: seq<T>, x: T)
    ensures multiset(Remove(xs, x)) == multiset(xs)[x := 0]
  {
    if xs != [] {
      assert xs == [xs[0]] + xs[1..];
      RemoveCount(xs[1..], x);
    }
  }

  lemma {:induction false} RemoveMember<T>(xs: seq<T>, x: T, y: T)
    ensures y in Remove(xs, x) <==> y in xs && y != x
  {
    if xs != [] { RemoveMember(xs[1..], x, y); }
  }

  // A number as printf and std::to_string write it.
  function Dec(n: nat): (s: string)
    ensures s != ""
  {
    (if n < 10 then "" else Dec(n / 10)) + [('0' as int + n % 10) as char]
  }

  // Concatenation of a sequence of pieces.
  function Flatten<T>(xss: seq<seq<T>>): seq<T> {
    if xss == [] then [] else xss[0] + Flatten(xss[1..])
  }

  lemma {:induction false} FlattenAppend<T>(a: seq<seq<T>>, b: seq<seq<T>>)
    ensures Flatten(a + b) == Flatten(a) + Flatten(b)
  {
    if a == [] {
      assert a + b == b;
    } else {
      assert (a + b)[1..] == a[1..] + b;
      FlattenAppend(a[1..], b);
    }
  }

  // Erasing the first element after a prefix, and extending the prefix by it.
  lemma SplitAt<T>(done: seq<T>, rest: seq<T>)
    requires rest != []
    ensures
      var q := done + rest;
      && q[|done|] == rest[0]
      && q[..|done|] + q[|done| + 1..] == done + rest[1..]
      && q == done + [rest[0]] + rest[1..]
  {
  }

  lemma TakeConcat<T>(a: seq<T>, b: seq<T>, n: nat)
    requires n <= |a| + |b|
    ensures (a + b)[..n] == if n <= |a| then a[..n] else a + b[..n - |a|]
    ensures n == |a| ==> (a + b)[..n] == a + b[..0]
  {
  }

  lemma TakeNext<T>(xs: seq<T>, i: nat)
    requires i < |xs|
    ensures xs[..i + 1] == xs[..i] + [xs[i]]
  {
  }

  lemma Assoc<T>(a: seq<T>, b: seq<T>, c: seq<T>)
    ensures a + (b + c) == a + b + c
  {
  }
}
