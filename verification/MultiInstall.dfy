// install_multi_package (porting/adb/client/adb_install.cpp) against an arbitrary device.
module MultiInstall {
  import opened Base

  // ----- The status line -----

  const SUCCESS := "Success"
  const LONG_MAX := 0x7fff_ffff_ffff_ffff
  const INT_RANGE := 0x1_0000_0000

  // strrchr
  function LastIndex(s: string, c: char): (r: Option<nat>)
    ensures r.Some? ==> r.value < |s| && s[r.value] == c && c !in s[r.value + 1..]
    ensures r.None? ==> c !in s
  {
    if s == "" then None
    else if s[|s| - 1] == c then Some(|s| - 1)
    else LastIndex(s[..|s| - 1], c)
  }

  predicate IsSpace(c: char) {
    c == ' ' || '\t' <= c <= '\r'
  }

  predicate IsDigit(c: char) {
    '0' <= c <= '9'
  }

  // The number that the leading digits stand for, on top of n.
  function Digits(s: string, n: nat): nat {
    if s == "" || !IsDigit(s[0]) then n else Digits(s[1..], 10 * n + (s[0] as int - '0' as int))
  }

  // strtol with base 10.
  function Strtol(s: string): int {
    if s != "" && IsSpace(s[0]) then Strtol(s[1..])
    else if s != "" && s[0] == '-' then
      var n: int := -(Digits(s[1..], 0) as int);
      if n < -LONG_MAX - 1 then -LONG_MAX - 1 else n
    else
      var n := Digits(if s != "" && s[0] == '+' then s[1..] else s, 0);
      if n > LONG_MAX then LONG_MAX else n
  }

  // The conversion from long to int.
  function Truncated(n: int): int {
    var m := n % INT_RANGE;
    if m >= INT_RANGE / 2 then m - INT_RANGE else m
  }

  // The text from the last opening bracket to the last closing one, or to the end if that comes first.
  function Bracketed(line: string): Option<string> {
    match (LastIndex(line, '['), LastIndex(line, ']'))
    case (Some(a), Some(b)) => Some(if a < b then line[a + 1..b] else line[a + 1..])
    case _ => None
  }

  // The session that a status line names; -1 if it names none.
  function SessionId(line: string): int {
    if !(SUCCESS <= line) then -1
    else match Bracketed(line)
      case Some(text) => Truncated(Strtol(text))
      case None => -1
  }

  lemma {:induction false} DigitsOfDec(n: nat, m: nat, rest: string)
    requires m == 0
    ensures Digits(Dec(n) + rest, m) == Digits(rest, n)
    ensures IsDigit(Dec(n)[0])
  {
    var last := ('0' as int + n % 10) as char;
    if n < 10 {
      assert Dec(n) + rest == [last] + rest && ([last] + rest)[1..] == rest;
    } else {
      DigitsOfDec(n / 10, 0, [last] + rest);
      assert Dec(n) + rest == Dec(n / 10) + ([last] + rest) && ([last] + rest)[1..] == rest;
    }
  }

  lemma {:induction false} LastIndexIs(a: string, c: char, b: string)
    requires c !in b
    ensures LastIndex(a + [c] + b, c) == Some(|a|)
  {
    if b != "" {
      assert (a + [c] + b)[..|a| + |b|] == a + [c] + b[..|b| - 1];
      LastIndexIs(a, c, b[..|b| - 1]);
    }
  }

  lemma {:induction false} DecIsDigits(n: nat)
    ensures '[' !in Dec(n) && ']' !in Dec(n)
    ensures forall c :: c in Dec(n) ==> IsDigit(c)
  {
    if n >= 10 { DecIsDigits(n / 10); }
  }

  lemma StrtolOfDec(n: nat)
    ensures Strtol(Dec(n)) == if n <= LONG_MAX then n else LONG_MAX
  {
    DigitsOfDec(n, 0, "");
    assert Dec(n) + "" == Dec(n);
  }

  lemma BracketsAreFound(head: string, d: string)
    requires '[' !in d && ']' !in d
    ensures Bracketed(head + "[" + d + "]") == Some(d)
  {
    var line := head + "[" + d + "]";
    assert line == head + ['['] + (d + "]") && line == (head + "[" + d) + [']'] + "";
    LastIndexIs(head, '[', d + "]");
    LastIndexIs(head + "[" + d, ']', "");
    assert line[|head| + 1..|head| + 1 + |d|] == d;
  }

  // A session number in brackets is read back, whatever stands between it and the word Success, exactly when
  // it fits an int.
  lemma SessionIsRead(head: string, n: nat)
    requires SUCCESS <= head
    ensures SessionId(head + "[" + Dec(n) + "]") == n <==> n < INT_RANGE / 2
  {
    DecIsDigits(n);
    var line := head + "[" + Dec(n) + "]";
    assert head <= line;
    PrefixOfPrefix(SUCCESS, head, line);
    BracketsAreFound(head, Dec(n));
    StrtolOfDec(n);
    TruncatedIsInt(n);
  }

  lemma PrefixOfPrefix(a: string, b: string, c: string)
    requires a <= b <= c
    ensures a <= c
  {
  }

  lemma TruncatedIsInt(n: nat)
    ensures Truncated(if n <= LONG_MAX then n else LONG_MAX) == n <==> n < INT_RANGE / 2
  {
  }

  // ----- The transaction -----

  // A split: its size (None: stat fails), whether it can be opened and its contents be copied.
  datatype Split = Split(name: string, size: Option<nat>, opens: bool, copies: bool)
  datatype Package = Package(apex: bool, splits: seq<Split>)

  // Commands, with the session they name; those that create name none.
  datatype Command =
    | CreateParent
    | CreateChild(apex: bool)
    | Write(session: int, size: nat, index: nat, name: string, copies: bool)
    | AddSession(parent: int, children: seq<int>)
    | Commit(session: int)
    | Abandon(session: int)

  // NoConnect: send_command fails.
  datatype Reply = NoConnect | Line(text: string)

  predicate Succeeded(c: Command, r: Reply) {
    && r.Line?
    && (if c.CreateParent? || c.CreateChild? then SessionId(r.text) >= 0 else SUCCESS <= r.text)
    && (c.Write? ==> c.copies)
  }

  // The session that a reply names.
  function SessionOf(r: Reply): int {
    if r.Line? then SessionId(r.text) else -1
  }

  // How many commands the packages before number i need: a create each, and a write for each split.
  function Offset(packages: seq<Package>, i: nat): nat
    requires i <= |packages|
  {
    if i == 0 then 0 else Offset(packages, i - 1) + 1 + |packages[i - 1].splits|
  }

  lemma {:induction false} OffsetGrows(packages: seq<Package>, i: nat, k: nat)
    requires i < k <= |packages|
    ensures Offset(packages, i) + 1 + |packages[i].splits| <= Offset(packages, k)
  {
    if i < k - 1 { OffsetGrows(packages, i, k - 1); }
  }

  // What was sent from `at` on are the writes of the splits, in order, as far as it goes.
  ghost predicate SplitsSent(log: seq<Command>, at: nat, id: int, index: nat, splits: seq<Split>) {
    forall j :: 0 <= j < |splits| && at + j < |log| ==>
      && splits[j].size.Some? && splits[j].opens
      && log[at + j] == Write(id, splits[j].size.value, index, splits[j].name, splits[j].copies)
  }

  // What was sent from `at` on creates a session for the package and writes its splits to that session.
  ghost predicate PackageSent(log: seq<Command>, replies: nat -> Reply, at: nat, p: Package, index: nat) {
    at < |log| ==> log[at] == CreateChild(p.apex) && SplitsSent(log, at + 1, SessionOf(replies(at)), index, p.splits)
  }

  // So for package i, whose place follows from the packages before it.  first: the number that the splits of the
  // first package carry.
  ghost predicate NthSent(log: seq<Command>, replies: nat -> Reply, from: nat, packages: seq<Package>, first: nat, i: nat)
    requires i < |packages|
  {
    PackageSent(log, replies, from + Offset(packages, i), packages[i], first + i)
  }

  ghost predicate AllSent(log: seq<Command>, replies: nat -> Reply, from: nat, packages: seq<Package>, first: nat,
                          n: nat)
    requires n <= |packages|
  {
    forall i :: 0 <= i < n ==> NthSent(log, replies, from, packages, first, i)
  }

  // The session of package i.
  ghost function SessionAt(replies: nat -> Reply, from: nat, packages: seq<Package>, i: nat): int
    requires i < |packages|
  {
    SessionOf(replies(from + Offset(packages, i)))
  }

  ghost function Sessions(replies: nat -> Reply, from: nat, packages: seq<Package>): seq<int> {
    seq(|packages|, i requires 0 <= i < |packages| => SessionAt(replies, from, packages, i))
  }

  ghost predicate Begun(log: seq<Command>, from: nat, packages: seq<Package>, i: nat)
    requires i < |packages|
  {
    from + Offset(packages, i) < |log|
  }

  ghost predicate HasSession(replies: nat -> Reply, from: nat, packages: seq<Package>, k: nat)
    requires k < |packages|
  {
    SessionAt(replies, from, packages, k) >= 0
  }

  // Sessions were created for the first m packages and for no other.
  ghost predicate Made(log: seq<Command>, replies: nat -> Reply, from: nat, packages: seq<Package>, m: nat) {
    && m <= |packages|
    && forall i :: 0 <= i < |packages| ==>
         (i < m <==> Begun(log, from, packages, i) && HasSession(replies, from, packages, i))
  }

  ghost predicate Went(log: seq<Command>, replies: nat -> Reply, k: nat)
    requires k < |log|
  {
    Succeeded(log[k], replies(k))
  }

  ghost predicate AllSucceeded(log: seq<Command>, replies: nat -> Reply, from: nat) {
    forall k :: from <= k < |log| ==> Went(log, replies, k)
  }

  // Nothing more is sent after a failure.
  ghost predicate StopsAtFailure(log: seq<Command>, replies: nat -> Reply, from: nat) {
    forall k :: from <= k < |log| - 1 ==> Went(log, replies, k)
  }

  ghost predicate LastFailed(log: seq<Command>, replies: nat -> Reply, from: nat) {
    from < |log| && !Went(log, replies, |log| - 1)
  }

  // The next split to be written cannot be examined or opened.
  ghost predicate Unusable(splits: seq<Split>, j: int) {
    0 <= j < |splits| && (splits[j].size == None || !splits[j].opens)
  }

  // Why the work stopped before its end.
  ghost predicate Stopped(log: seq<Command>, replies: nat -> Reply, from: nat, packages: seq<Package>) {
    || LastFailed(log, replies, from)
    || exists i :: 0 <= i < |packages| && StoppedAt(log, from, packages, i)
  }

  ghost predicate StoppedAt(log: seq<Command>, from: nat, packages: seq<Package>, i: nat)
    requires i < |packages|
  {
    Unusable(packages[i].splits, |log| - (from + Offset(packages, i) + 1))
  }

  lemma {:induction false} SucceededThen(mid: seq<Command>, log: seq<Command>, replies: nat -> Reply, from: nat)
    requires mid <= log && from <= |mid| && AllSucceeded(mid, replies, from)
    ensures StopsAtFailure(log, replies, |mid|) ==> StopsAtFailure(log, replies, from)
    ensures AllSucceeded(log, replies, |mid|) ==> AllSucceeded(log, replies, from)
  {
    forall k | from <= k < |mid| ensures Went(log, replies, k) {
      assert Went(mid, replies, k) && log[k] == mid[k];
    }
  }

  lemma {:induction false} SentStays(mid: seq<Command>, log: seq<Command>, replies: nat -> Reply, at: nat, p: Package,
                                     index: nat)
    requires mid <= log && at + 1 + |p.splits| <= |mid| && PackageSent(mid, replies, at, p, index)
    ensures PackageSent(log, replies, at, p, index)
  {
    forall j | 0 <= j < |p.splits| && at + 1 + j < |log|
      ensures p.splits[j].size.Some? && p.splits[j].opens
      ensures log[at + 1 + j] ==
              Write(SessionOf(replies(at)), p.splits[j].size.value, index, p.splits[j].name, p.splits[j].copies)
    {
      assert log[at + 1 + j] == mid[at + 1 + j];
    }
  }

  lemma {:induction false} NthStays(mid: seq<Command>, log: seq<Command>, replies: nat -> Reply, from: nat,
                                    packages: seq<Package>, first: nat, k: nat, i: nat)
    requires k < i <= |packages| && mid <= log && |mid| == from + Offset(packages, i)
    requires NthSent(mid, replies, from, packages, first, k)
    ensures NthSent(log, replies, from, packages, first, k) && Begun(log, from, packages, k)
  {
    OffsetGrows(packages, k, i);
    SentStays(mid, log, replies, from + Offset(packages, k), packages[k], first + k);
  }

  lemma {:induction false} NotBegun(log: seq<Command>, replies: nat -> Reply, from: nat, packages: seq<Package>,
                                    first: nat, i: nat, k: nat)
    requires i < k < |packages| && |log| <= from + Offset(packages, i) + 1 + |packages[i].splits|
    ensures NthSent(log, replies, from, packages, first, k) && !Begun(log, from, packages, k)
  {
    OffsetGrows(packages, i, k);
  }

  // The packages that were sent completely stay so, and the next one joins them.
  lemma {:induction false} PackageJoins(mid: seq<Command>, log: seq<Command>, replies: nat -> Reply, from: nat,
                                        packages: seq<Package>, first: nat, i: nat)
    requires i < |packages| && mid <= log && |mid| == from + Offset(packages, i)
    requires |log| <= |mid| + 1 + |packages[i].splits|
    requires AllSent(mid, replies, from, packages, first, i)
    requires PackageSent(log, replies, |mid|, packages[i], first + i)
    ensures AllSent(log, replies, from, packages, first, |packages|)
  {
    assert NthSent(log, replies, from, packages, first, i);
    forall k | 0 <= k < |packages| ensures NthSent(log, replies, from, packages, first, k) {
      if k < i {
        NthStays(mid, log, replies, from, packages, first, k, i);
      } else if i < k {
        NotBegun(log, replies, from, packages, first, i, k);
      }
    }
  }

  // Which sessions there are after package number i, the last one that was begun.
  lemma {:induction false} MadeAfter(log: seq<Command>, replies: nat -> Reply, from: nat, packages: seq<Package>,
                                     i: nat, m: nat)
    requires i < |packages| && from + Offset(packages, i) < |log| <= from + Offset(packages, i) + 1 + |packages[i].splits|
    requires AllNamed(replies, from, packages, i)
    requires m == if SessionAt(replies, from, packages, i) >= 0 then i + 1 else i
    ensures Made(log, replies, from, packages, m)
  {
    forall k | 0 <= k < |packages| && k != i ensures Begun(log, from, packages, k) <==> k < i {
      if k < i {
        OffsetGrows(packages, k, i);
      } else {
        NotBegun(log, replies, from, packages, 0, i, k);
      }
    }
  }

  // One package: its session (negative: none) and whether all its splits were written.
  ghost predicate PackageResult(start: seq<Command>, log: seq<Command>, replies: nat -> Reply, p: Package, index: nat,
                                ok: bool, id: int)
  {
    && start < log && |log| <= |start| + 1 + |p.splits|
    && PackageSent(log, replies, |start|, p, index) && id == SessionOf(replies(|start|))
    && StopsAtFailure(log, replies, |start|)
    && (ok ==> id >= 0 && |log| == |start| + 1 + |p.splits| && AllSucceeded(log, replies, |start|))
    && (!ok ==> LastFailed(log, replies, |start|) || Unusable(p.splits, |log| - (|start| + 1)))
  }

  // All packages: the sessions created and whether all splits were written.
  ghost predicate StreamResult(log: seq<Command>, replies: nat -> Reply, from: nat, packages: seq<Package>, first: nat,
                               ok: bool, ids: seq<int>)
  {
    && |log| <= from + Offset(packages, |packages|)
    && AllSent(log, replies, from, packages, first, |packages|) && StopsAtFailure(log, replies, from)
    && Made(log, replies, from, packages, |ids|) && ids == Sessions(replies, from, packages)[..|ids|]
    && (ok ==>
          && |log| == from + Offset(packages, |packages|) && |ids| == |packages|
          && AllSucceeded(log, replies, from))
    && (!ok ==> Stopped(log, replies, from, packages))
  }

  // The first i packages were streamed, and their sessions are `ids`.
  ghost predicate Streamed(log: seq<Command>, replies: nat -> Reply, from: nat, packages: seq<Package>, first: nat,
                           i: nat, ids: seq<int>)
    requires i <= |packages|
  {
    && |log| == from + Offset(packages, i)
    && AllSent(log, replies, from, packages, first, i) && AllSucceeded(log, replies, from)
    && |ids| == i && ids == Sessions(replies, from, packages)[..i]
    && AllNamed(replies, from, packages, i)
  }

  // Each of the first i packages has a session.
  ghost predicate AllNamed(replies: nat -> Reply, from: nat, packages: seq<Package>, i: nat)
    requires i <= |packages|
  {
    forall k :: 0 <= k < i ==> HasSession(replies, from, packages, k)
  }

  lemma {:induction false} NamedNext(replies: nat -> Reply, from: nat, packages: seq<Package>, i: nat, at: nat, id: int)
    requires i < |packages| && AllNamed(replies, from, packages, i)
    requires at == from + Offset(packages, i) && id == SessionOf(replies(at)) && id >= 0
    ensures SessionAt(replies, from, packages, i) == id && AllNamed(replies, from, packages, i + 1)
  {
    assert HasSession(replies, from, packages, i);
  }

  // What StreamPackage adds to them.
  lemma {:induction false} PackageEnds(mid: seq<Command>, log: seq<Command>, replies: nat -> Reply, from: nat,
                                       packages: seq<Package>, first: nat, i: nat, before: seq<int>, ok: bool, id: int)
    requires i < |packages| && Streamed(mid, replies, from, packages, first, i, before)
    requires PackageResult(mid, log, replies, packages[i], first + i, ok, id)
    ensures
      var ids := if id >= 0 then before + [id] else before;
      && (ok ==> Streamed(log, replies, from, packages, first, i + 1, ids))
      && (!ok ==> StreamResult(log, replies, from, packages, first, ok, ids))
  {
    if ok {
      PackageDone(mid, log, replies, from, packages, first, i, before, id);
    } else {
      PackageStops(mid, log, replies, from, packages, first, i, before, id);
    }
  }

  lemma {:induction false} PackageDone(mid: seq<Command>, log: seq<Command>, replies: nat -> Reply, from: nat,
                                       packages: seq<Package>, first: nat, i: nat, before: seq<int>, id: int)
    requires i < |packages| && Streamed(mid, replies, from, packages, first, i, before)
    requires PackageResult(mid, log, replies, packages[i], first + i, true, id)
    ensures Streamed(log, replies, from, packages, first, i + 1, before + [id])
  {
    DoneSent(mid, log, replies, from, packages, first, i, before, id);
    NamedNext(replies, from, packages, i, |mid|, id);
    SessionsSoFar(replies, from, packages, i, before, id);
  }

  lemma {:induction false} DoneSent(mid: seq<Command>, log: seq<Command>, replies: nat -> Reply, from: nat,
                                    packages: seq<Package>, first: nat, i: nat, before: seq<int>, id: int)
    requires i < |packages| && Streamed(mid, replies, from, packages, first, i, before)
    requires PackageResult(mid, log, replies, packages[i], first + i, true, id)
    ensures |log| == from + Offset(packages, i + 1)
    ensures AllSent(log, replies, from, packages, first, i + 1) && AllSucceeded(log, replies, from)
  {
    PackageJoins(mid, log, replies, from, packages, first, i);
    SucceededThen(mid, log, replies, from);
    FewerSent(log, replies, from, packages, first, i + 1);
  }

  lemma {:induction false} FewerSent(log: seq<Command>, replies: nat -> Reply, from: nat, packages: seq<Package>,
                                     first: nat, n: nat)
    requires n <= |packages| && AllSent(log, replies, from, packages, first, |packages|)
    ensures AllSent(log, replies, from, packages, first, n)
  {
  }

  lemma {:induction false} PackageStops(mid: seq<Command>, log: seq<Command>, replies: nat -> Reply, from: nat,
                                        packages: seq<Package>, first: nat, i: nat, before: seq<int>, id: int)
    requires i < |packages| && Streamed(mid, replies, from, packages, first, i, before)
    requires PackageResult(mid, log, replies, packages[i], first + i, false, id)
    ensures StreamResult(log, replies, from, packages, first, false, if id >= 0 then before + [id] else before)
  {
    PackageJoins(mid, log, replies, from, packages, first, i);
    SucceededThen(mid, log, replies, from);
    WhyStopped(mid, log, replies, from, packages, i);
    EndReached(packages, i);
    StoppedWith(mid, log, replies, from, packages, first, i, before, id);
  }

  lemma {:induction false} WhyStopped(mid: seq<Command>, log: seq<Command>, replies: nat -> Reply, from: nat,
                                      packages: seq<Package>, i: nat)
    requires i < |packages| && from <= |mid| == from + Offset(packages, i)
    requires LastFailed(log, replies, |mid|) || Unusable(packages[i].splits, |log| - (|mid| + 1))
    ensures Stopped(log, replies, from, packages)
  {
    if !LastFailed(log, replies, |mid|) { assert StoppedAt(log, from, packages, i); }
  }

  // The sessions after the package.
  lemma {:induction false} StoppedWith(mid: seq<Command>, log: seq<Command>, replies: nat -> Reply, from: nat,
                                       packages: seq<Package>, first: nat, i: nat, before: seq<int>, id: int)
    requires i < |packages| && Streamed(mid, replies, from, packages, first, i, before)
    requires mid < log && |log| <= |mid| + 1 + |packages[i].splits| && id == SessionOf(replies(|mid|))
    ensures
      var ids := if id >= 0 then before + [id] else before;
      Made(log, replies, from, packages, |ids|) && ids == Sessions(replies, from, packages)[..|ids|]
  {
    assert SessionAt(replies, from, packages, i) == id;
    MadeAfter(log, replies, from, packages, i, if id >= 0 then i + 1 else i);
    SessionsSoFar(replies, from, packages, i, before, id);
  }

  lemma {:induction false} SessionsSoFar(replies: nat -> Reply, from: nat, packages: seq<Package>, i: nat,
                                         before: seq<int>, id: int)
    requires i < |packages| && |before| == i && before == Sessions(replies, from, packages)[..i]
    requires id == SessionAt(replies, from, packages, i)
    ensures
      var ids := if id >= 0 then before + [id] else before;
      ids == Sessions(replies, from, packages)[..|ids|]
  {
    SessionsNext(replies, from, packages, i);
  }

  lemma {:induction false} StreamEnds(log: seq<Command>, replies: nat -> Reply, from: nat, packages: seq<Package>,
                                      first: nat, ids: seq<int>)
    requires Streamed(log, replies, from, packages, first, |packages|, ids)
    ensures StreamResult(log, replies, from, packages, first, true, ids)
  {
    forall k | 0 <= k < |packages| ensures Begun(log, from, packages, k) { OffsetGrows(packages, k, |packages|); }
  }

  lemma {:induction false} SessionsNext(replies: nat -> Reply, from: nat, packages: seq<Package>, i: nat)
    requires i < |packages|
    ensures Sessions(replies, from, packages)[..i + 1] ==
            Sessions(replies, from, packages)[..i] + [SessionAt(replies, from, packages, i)]
  {
  }

  // The last package was written to its end.
  lemma {:induction false} EndReached(packages: seq<Package>, i: nat)
    requires i < |packages|
    ensures Offset(packages, i + 1) == Offset(packages, i) + 1 + |packages[i].splits| <= Offset(packages, |packages|)
  {
    OffsetGrows(packages, i, |packages|);
  }

  class Installer {
    const replies: nat -> Reply       // the reply to the n-th command
    var log: seq<Command>             // the commands that were sent, or attempted

    method Send(c: Command) returns (r: Reply)
      modifies this
      ensures log == old(log) + [c] && r == replies(|old(log)|)
    {
      r := replies(|log|);
      log := log + [c];
    }

    // install-create for one package.
    method CreateChildSession(apex: bool) returns (id: int)
      modifies this
      ensures log == old(log) + [CreateChild(apex)] && id == SessionOf(replies(|old(log)|))
      ensures id >= 0 <==> Succeeded(CreateChild(apex), replies(|old(log)|))
    {
      var r := Send(CreateChild(apex));
      if r == NoConnect {
        return -1;
      }
      id := SessionId(r.text);
    }

    // install-write for one split.
    method WriteSplit(id: int, index: nat, s: Split) returns (ok: bool)
      modifies this
      ensures log == old(log) + if s.size.Some? && s.opens then [Write(id, s.size.value, index, s.name, s.copies)] else []
      ensures ok <==>
                && s.size.Some? && s.opens && s.copies
                && replies(|old(log)|).Line? && SUCCESS <= replies(|old(log)|).text
    {
      if s.size == None || !s.opens {
        return false;
      }
      var r := Send(Write(id, s.size.value, index, s.name, s.copies));
      return r != NoConnect && s.copies && SUCCESS <= r.text;
    }

    // The splits of one package.
    method WriteSplits(id: int, index: nat, splits: seq<Split>) returns (ok: bool)
      modifies this
      ensures old(log) <= log && |log| <= |old(log)| + |splits| && SplitsSent(log, |old(log)|, id, index, splits)
      ensures StopsAtFailure(log, replies, |old(log)|)
      ensures ok ==> |log| == |old(log)| + |splits| && AllSucceeded(log, replies, |old(log)|)
      ensures !ok ==> LastFailed(log, replies, |old(log)|) || Unusable(splits, |log| - |old(log)|)
    {
      for i := 0 to |splits|
        invariant old(log) <= log && |log| == |old(log)| + i && SplitsSent(log, |old(log)|, id, index, splits)
        invariant AllSucceeded(log, replies, |old(log)|)
      {
        ghost var mid := log;
        ok := WriteSplit(id, index, splits[i]);
        SucceededThen(mid, log, replies, |old(log)|);
        if !ok {
          return;
        }
      }
      return true;
    }

    // One package: its session (negative: none) and whether all its splits were written.
    method StreamPackage(p: Package, index: nat) returns (ok: bool, id: int)
      modifies this
      ensures PackageResult(old(log), log, replies, p, index, ok, id)
    {
      id := CreateChildSession(p.apex);
      if id < 0 {
        return false, id;
      }
      ghost var mid := log;
      ok := WriteSplits(id, index, p.splits);
      SucceededThen(mid, log, replies, |old(log)|);
    }

    // Creates, fills and collects the child sessions.
    method StreamPackages(packages: seq<Package>, first: nat) returns (ok: bool, ids: seq<int>)
      modifies this
      ensures old(log) <= log && StreamResult(log, replies, |old(log)|, packages, first, ok, ids)
    {
      ids := [];
      for i := 0 to |packages|
        invariant old(log) <= log && Streamed(log, replies, |old(log)|, packages, first, i, ids)
      {
        ghost var (mid, before) := (log, ids);
        var id;
        ok, id := StreamPackage(packages[i], first + i);
        if id >= 0 {
          ids := ids + [id];
        }
        PackageEnds(mid, log, replies, |old(log)|, packages, first, i, before, ok, id);
        if !ok {
          return;
        }
      }
      StreamEnds(log, replies, |old(log)|, packages, first, ids);
      return true, ids;
    }

    // install-add-session, after all packages were streamed.
    method StreamAndLink(packages: seq<Package>, first: nat, parent: int) returns (success: bool, ids: seq<int>)
      modifies this
      ensures old(log) <= log && Worked(packages, first, replies, |old(log)|, log, parent, success)
      ensures Made(log, replies, |old(log)|, packages, |ids|)
      ensures ids == Sessions(replies, |old(log)|, packages)[..|ids|]
    {
      success, ids := StreamPackages(packages, first);
      if !success {
        return;
      }
      ghost var mid := log;
      var r := Send(AddSession(parent, ids));
      success := r != NoConnect && SUCCESS <= r.text;
      SucceededThen(mid, log, replies, |old(log)|);
      Linked(mid, log, replies, |old(log)|, packages, first, parent, ids);
    }

    // The last loop: abandons all sessions, whatever the replies.
    method AbandonAll(ids: seq<int>)
      modifies this
      ensures log == old(log) + Abandons(ids)
    {
      for i := 0 to |ids|
        invariant log == old(log) + Abandons(ids)[..i]
      {
        var r := Send(Abandon(ids[i]));
      }
    }

    // The finalising command and what follows it.
    method Finalize(success: bool, parent: int, ids: seq<int>) returns (code: nat)
      modifies this
      ensures
        var (last, r) := (if success then Commit(parent) else Abandon(parent), replies(|old(log)|));
        var done := r == NoConnect || (success && SUCCESS <= r.text);
        && log == old(log) + [last] + (if done then [] else Abandons(ids + [parent]))
        && (code == 0 <==> success && r != NoConnect && SUCCESS <= r.text)
    {
      var r := Send(if success then Commit(parent) else Abandon(parent));
      if r == NoConnect {
        return 1;
      }
      if SUCCESS <= r.text {
        if success {
          return 0;
        }
      }
      AbandonAll(ids + [parent]);
      return 1;
    }

    // install_multi_package, once the arguments are known; the packages are the arguments from number `first` on.
    // `fin` is the number of the finalising command, `made` the number of sessions created.
    method InstallMultiPackage(packages: seq<Package>, first: nat) returns (code: nat, ghost fin: nat, ghost made: nat)
      modifies this
      ensures Transaction(packages, first, replies, old(log), log, code, fin, made)
    {
      fin, made := 0, 0;
      var r := Send(CreateParent);
      var parent := if r == NoConnect then -1 else SessionId(r.text);
      if parent < 0 {
        return 1, 0, 0;
      }
      var success, ids := StreamAndLink(packages, first, parent);
      fin, made := |log|, |ids|;
      ghost var work := log;
      code := Finalize(success, parent, ids);
      assert log[..fin] == work;
    }
  }

  function Abandons(ids: seq<int>): seq<Command> {
    seq(|ids|, i requires 0 <= i < |ids| => Abandon(ids[i]))
  }

  // The work between the creation of the parent and the finalising command: each package's create and writes, in
  // order, then the link that names all sessions in order.  It is a success exactly when the link was sent and
  // succeeded; otherwise it stopped at a failed command or at a split that cannot be examined or opened.
  ghost predicate Worked(packages: seq<Package>, first: nat, replies: nat -> Reply, from: nat, work: seq<Command>,
                         parent: int, success: bool) {
    var end := from + Offset(packages, |packages|);
    && from <= |work| <= end + 1
    && AllSent(work, replies, from, packages, first, |packages|) && StopsAtFailure(work, replies, from)
    && (|work| == end + 1 ==> work[end] == AddSession(parent, Sessions(replies, from, packages)))
    && (success <==> |work| == end + 1 && replies(end).Line? && SUCCESS <= replies(end).text)
    && (!success ==> Stopped(work, replies, from, packages))
  }

  // What a run of install_multi_package sends and returns.  Past the creation of the parent exactly one
  // finalising command is attempted.  It is the commit if and only if the work succeeded.  The code is 0 if and
  // only if the commit succeeded.  If it did not, and a reply was read, all children and the parent are abandoned.
  ghost predicate Transaction(packages: seq<Package>, first: nat, replies: nat -> Reply, before: seq<Command>,
                              log: seq<Command>, code: nat, fin: nat, made: nat) {
    var (parent, from) := (SessionOf(replies(|before|)), |before| + 1);
    if parent < 0 then log == before + [CreateParent] && code != 0
    else
      && from <= fin < |log| && before + [CreateParent] <= log
      && (log[fin] == Commit(parent) || log[fin] == Abandon(parent))
      && (var (work, r) := (log[..fin], replies(fin));
          && Worked(packages, first, replies, from, work, parent, log[fin].Commit?)
          && (code == 0 <==> log[fin].Commit? && r != NoConnect && SUCCESS <= r.text)
          && Made(work, replies, from, packages, made)
          && log[fin + 1..] == if r == NoConnect || code == 0 then []
                               else Abandons(Sessions(replies, from, packages)[..made] + [parent]))
  }

  lemma {:induction false} MadeStays(mid: seq<Command>, log: seq<Command>, replies: nat -> Reply, from: nat,
                                     packages: seq<Package>)
    requires mid <= log && Made(mid, replies, from, packages, |packages|)
    ensures Made(log, replies, from, packages, |packages|)
  {
    forall i | 0 <= i < |packages| ensures Begun(log, from, packages, i) && HasSession(replies, from, packages, i) {
      assert Begun(mid, from, packages, i);
    }
  }

  // With the link, everything before it stays as it was.
  lemma {:induction false} Linked(mid: seq<Command>, log: seq<Command>, replies: nat -> Reply, from: nat,
                                  packages: seq<Package>, first: nat, parent: int, ids: seq<int>)
    requires from <= |mid| == from + Offset(packages, |packages|) && log == mid + [AddSession(parent, ids)]
    requires AllSent(mid, replies, from, packages, first, |packages|) && AllSucceeded(mid, replies, from)
    requires Made(mid, replies, from, packages, |packages|)
    requires ids == Sessions(replies, from, packages)
    ensures Worked(packages, first, replies, from, log, parent, Succeeded(AddSession(parent, ids), replies(|mid|)))
    ensures Made(log, replies, from, packages, |packages|)
  {
    forall i | 0 <= i < |packages| ensures NthSent(log, replies, from, packages, first, i) {
      NthStays(mid, log, replies, from, packages, first, i, |packages|);
    }
    MadeStays(mid, log, replies, from, packages);
    SucceededThen(mid, log, replies, from);
  }

  // Where a command of the work stands: it creates the session of a package, or writes one of its splits.
  lemma {:induction false} EachHasAPlace(packages: seq<Package>, n: nat, d: nat) returns (i: nat)
    requires n <= |packages| && d < Offset(packages, n)
    ensures i < n && Offset(packages, i) <= d <= Offset(packages, i) + |packages[i].splits|
  {
    i := n - 1;
    if d < Offset(packages, i) { i := EachHasAPlace(packages, i, d); }
  }

  // After a commit: every split of every package was written once, to the session created for its package, after
  // that session was created and before the next one, in order; and nothing else was written.
  lemma {:induction false} CommitWritesEverything(packages: seq<Package>, first: nat, replies: nat -> Reply,
                                                  before: seq<Command>, log: seq<Command>, code: nat, fin: nat,
                                                  made: nat)
    requires Transaction(packages, first, replies, before, log, code, fin, made)
    requires fin < |log| && log[fin].Commit? && SessionOf(replies(|before|)) >= 0
    ensures WroteEverything(packages, first, replies, |before| + 1, log, fin)
  {
    var parent := SessionOf(replies(|before|));
    assert Worked(packages, first, replies, |before| + 1, log[..fin], parent, true);
    WorkWritesEverything(packages, first, replies, |before| + 1, log[..fin], log, parent);
  }

  // Command k abandons the session that command `made` created.
  ghost predicate Abandoned(log: seq<Command>, replies: nat -> Reply, k: nat, made: nat) {
    k < |log| && log[k] == Abandon(SessionOf(replies(made)))
  }

  // Behind the finalising command, the sessions of the first `made` packages and then the parent are abandoned, and
  // nothing else is sent.
  ghost predicate AllAbandoned(packages: seq<Package>, replies: nat -> Reply, parent: nat, log: seq<Command>, fin: nat,
                               made: nat) {
    && made <= |packages| && |log| == fin + 1 + made + 1
    && (forall i :: 0 <= i < made ==> Abandoned(log, replies, fin + 1 + i, parent + 1 + Offset(packages, i)))
    && Abandoned(log, replies, |log| - 1, parent)
  }

  // That happens unless the commit succeeded or the finalising command could not be sent.
  lemma {:induction false} FailureAbandonsEverything(packages: seq<Package>, first: nat, replies: nat -> Reply,
                                                     before: seq<Command>, log: seq<Command>, code: nat, fin: nat,
                                                     made: nat)
    requires Transaction(packages, first, replies, before, log, code, fin, made)
    requires SessionOf(replies(|before|)) >= 0 && replies(fin) != NoConnect && code != 0
    ensures AllAbandoned(packages, replies, |before|, log, fin, made)
  {
    TailAbandons(packages, replies, |before|, log, fin, made);
  }

  lemma {:induction false} TailAbandons(packages: seq<Package>, replies: nat -> Reply, parent: nat, log: seq<Command>,
                                        fin: nat, made: nat)
    requires made <= |packages| && fin < |log|
    requires log[fin + 1..] == Abandons(Sessions(replies, parent + 1, packages)[..made] + [SessionOf(replies(parent))])
    ensures AllAbandoned(packages, replies, parent, log, fin, made)
  {
    var (tail, ids) := (log[fin + 1..], Sessions(replies, parent + 1, packages)[..made] + [SessionOf(replies(parent))]);
    assert |tail| == made + 1;
    forall i | 0 <= i < made ensures Abandoned(log, replies, fin + 1 + i, parent + 1 + Offset(packages, i)) {
      assert log[fin + 1 + i] == tail[i] && ids[i] == SessionAt(replies, parent + 1, packages, i);
    }
    assert log[|log| - 1] == tail[made] && ids[made] == SessionOf(replies(parent));
  }

  ghost predicate WroteEverything(packages: seq<Package>, first: nat, replies: nat -> Reply, from: nat,
                                  log: seq<Command>, fin: nat)
    requires fin <= |log|
  {
    && from + Offset(packages, |packages|) == fin - 1
    && (forall k :: from <= k < fin ==> Went(log, replies, k))
    && (forall i :: 0 <= i < |packages| ==> WrittenWhole(log, replies, from, packages, first, i))
    && (forall k :: from <= k < fin && log[k].Write? ==> HasAPlace(packages, k - from))
  }

  lemma {:induction false} WorkWritesEverything(packages: seq<Package>, first: nat, replies: nat -> Reply, from: nat,
                                                work: seq<Command>, log: seq<Command>, parent: int)
    requires Worked(packages, first, replies, from, work, parent, true) && work < log
    ensures WroteEverything(packages, first, replies, from, log, |work|)
  {
    WorkSucceeded(work, log, replies, from);
    forall i | 0 <= i < |packages| ensures WrittenWhole(log, replies, from, packages, first, i) {
      NthWritten(work, log, replies, from, packages, first, i);
    }
    forall k | from <= k < |work| && log[k].Write? ensures HasAPlace(packages, k - from) {
      assert work[k] == log[k];
      WriteHasAPlace(work, replies, from, packages, first, k);
    }
  }

  lemma {:induction false} WriteHasAPlace(work: seq<Command>, replies: nat -> Reply, from: nat, packages: seq<Package>,
                                          first: nat, k: nat)
    requires AllSent(work, replies, from, packages, first, |packages|)
    requires from <= k < |work| == from + Offset(packages, |packages|) + 1 && work[k].Write?
    requires work[|work| - 1].AddSession?
    ensures HasAPlace(packages, k - from)
  {
    var i := EachHasAPlace(packages, |packages|, k - from);
    assert NthSent(work, replies, from, packages, first, i);
    assert InPackage(packages, i, k - from);
  }

  lemma {:induction false} WorkSucceeded(work: seq<Command>, log: seq<Command>, replies: nat -> Reply, from: nat)
    requires work <= log && StopsAtFailure(work, replies, from)
    requires from < |work| ==> Went(work, replies, |work| - 1)
    ensures forall k :: from <= k < |work| ==> Went(log, replies, k)
  {
    forall k | from <= k < |work| ensures Went(log, replies, k) {
      assert Went(work, replies, k) && work[k] == log[k];
    }
  }

  // The d-th command is the place of a split.
  ghost predicate HasAPlace(packages: seq<Package>, d: int) {
    exists i :: 0 <= i < |packages| && InPackage(packages, i, d)
  }

  ghost predicate InPackage(packages: seq<Package>, i: nat, d: int)
    requires i < |packages|
  {
    Offset(packages, i) < d <= Offset(packages, i) + |packages[i].splits|
  }

  // Package i: its session was created, its splits written to that session, in order, before the next package.
  ghost predicate WrittenWhole(log: seq<Command>, replies: nat -> Reply, from: nat, packages: seq<Package>, first: nat,
                               i: nat)
    requires i < |packages|
  {
    var at := from + Offset(packages, i);
    && at + 1 + |packages[i].splits| == from + Offset(packages, i + 1)
    && Written(log, replies, at, packages[i], first + i)
  }

  ghost predicate Written(log: seq<Command>, replies: nat -> Reply, at: nat, p: Package, index: nat) {
    && at + 1 + |p.splits| < |log| && log[at] == CreateChild(p.apex) && SessionOf(replies(at)) >= 0
    && forall j :: 0 <= j < |p.splits| ==>
         && p.splits[j].size.Some? && p.splits[j].opens && p.splits[j].copies
         && log[at + 1 + j] == Write(SessionOf(replies(at)), p.splits[j].size.value, index, p.splits[j].name, true)
  }

  lemma {:induction false} NthWritten(work: seq<Command>, log: seq<Command>, replies: nat -> Reply, from: nat,
                                      packages: seq<Package>, first: nat, i: nat)
    requires i < |packages| && work <= log && |work| == from + Offset(packages, |packages|) + 1
    requires NthSent(work, replies, from, packages, first, i)
    requires forall k :: from <= k < |work| ==> Went(log, replies, k)
    ensures WrittenWhole(log, replies, from, packages, first, i)
  {
    EndReached(packages, i);
    SplitsWritten(work, log, replies, from + Offset(packages, i), packages[i], first + i);
  }

  lemma {:induction false} SplitsWritten(work: seq<Command>, log: seq<Command>, replies: nat -> Reply, at: nat,
                                         p: Package, index: nat)
    requires work <= log && at + 1 + |p.splits| < |work| && PackageSent(work, replies, at, p, index)
    requires forall k :: at <= k < |work| ==> Went(log, replies, k)
    ensures Written(log, replies, at, p, index)
  {
    assert log[at] == work[at] && Went(log, replies, at);
    forall j | 0 <= j < |p.splits|
      ensures p.splits[j].size.Some? && p.splits[j].opens && p.splits[j].copies
      ensures log[at + 1 + j] ==
              Write(SessionOf(replies(at)), p.splits[j].size.value, index, p.splits[j].name, true)
    {
      assert Went(log, replies, at + 1 + j);
      OneWritten(work, log, replies, at + 1, SessionOf(replies(at)), index, p.splits, j);
    }
  }

  lemma {:induction false} OneWritten(work: seq<Command>, log: seq<Command>, replies: nat -> Reply, at: nat, id: int,
                                      index: nat, splits: seq<Split>, j: nat)
    requires work <= log && j < |splits| && at + j < |work| && SplitsSent(work, at, id, index, splits)
    requires Succeeded(log[at + j], replies(at + j))
    ensures splits[j].size.Some? && splits[j].opens && splits[j].copies
    ensures log[at + j] == Write(id, splits[j].size.value, index, splits[j].name, true)
  {
  }

  // A line names no session without the word Success at its head, and without brackets.
  lemma NoSession(line: string)
    requires !(SUCCESS <= line) || '[' !in line || ']' !in line
    ensures SessionId(line) == -1
  {
  }
}
