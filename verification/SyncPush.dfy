// Pushing files: sync_send, copy_local_dir_remote, do_sync_push and the two transfer ledgers
// (porting/adb/client/file_sync_client.cpp).  Local files and replies to stat requests are parameters.
module SyncPush {
  import opened Base
  import opened SyncAcks

  const MAX_PATH := 1024

  // The counters of TransferLedger.
  datatype Ledger = Ledger(files: nat, skipped: nat, bytes: nat)

  const NO_TRANSFER := Ledger(0, 0, 0)

  function Add(a: Ledger, b: Ledger): Ledger {
    Ledger(a.files + b.files, a.skipped + b.skipped, a.bytes + b.bytes)
  }

  // What b counts beyond a.
  ghost predicate Grown(a: Ledger, files: nat, skipped: nat, bytes: nat, b: Ledger) {
    b.files == a.files + files && b.skipped == a.skipped + skipped && b.bytes == a.bytes + bytes
  }

  function Sum(ls: seq<Ledger>): Ledger {
    if ls == [] then NO_TRANSFER else Add(ls[0], Sum(ls[1..]))
  }

  lemma {:induction false} SumAppend(ls: seq<Ledger>, l: Ledger)
    ensures Sum(ls + [l]) == Add(Sum(ls), l)
  {
    if ls == [] {
      assert ls + [l] == [l];
    } else {
      assert (ls + [l])[1..] == ls[1..] + [l];
      SumAppend(ls[1..], l);
    }
  }

  // copyinfo of a local file.  `sendable`: reading it locally and writing it to the daemon succeed;
  // `bytes`: what is counted as transferred then.
  datatype Item = Item(from: string, to: string, size: int, mtime: int, special: bool, sendable: bool, bytes: nat)

  // The reply to a stat request.
  datatype Reply = NoFile | Stat(size: int, mtime: int)

  // The n-th stat reply that the daemon sends, and how many stat requests the connection takes before a
  // write of one fails.
  datatype Peer = Peer(replies: nat -> Reply, room: nat)

  // The stat requests sent, and how many replies were read.
  datatype Wire = Wire(asked: seq<string>, replied: nat)

  // An argument of the push: stat fails; a special file; a file; a directory whose list of files is built
  // (None: it cannot be opened), with the outcome of the mkdir workaround.
  datatype Source = Missing | Special | Plain(item: Item) | Directory(items: Option<seq<Item>>, dirsMade: bool)

  // The destination: stat fails otherwise; does not exist; a file; a directory.
  datatype Target = Unknown | Absent | ExistingFile | ExistingDir

  // Which items does the timestamp check skip?
  function Skips(items: seq<Item>, replies: nat -> Reply, first: nat): seq<bool> {
    seq(|items|, i requires 0 <= i < |items| =>
      items[i].special || replies(first + i) == Stat(items[i].size, items[i].mtime))
  }

  lemma SkipsAre(items: seq<Item>, replies: nat -> Reply, first: nat)
    ensures forall i :: 0 <= i < |items| ==>
              (Skips(items, replies, first)[i] <==>
                items[i].special || replies(first + i) == Stat(items[i].size, items[i].mtime))
  {
  }

  function Specials(items: seq<Item>): seq<bool> {
    seq(|items|, i requires 0 <= i < |items| => items[i].special)
  }

  function Trues(bs: seq<bool>): nat {
    if bs == [] then 0 else (if bs[0] then 1 else 0) + Trues(bs[1..])
  }

  // Can the request for a path be sent after n others?
  predicate Fits(path: string, n: nat, peer: Peer) {
    |path| <= MAX_PATH && n < peer.room
  }

  predicate AllFit(items: seq<Item>, n: nat, peer: Peer) {
    forall i :: 0 <= i < |items| ==> Fits(items[i].to, n + i, peer)
  }

  // Every path has at most 1024 bytes, and the connection takes this many requests after n others.
  ghost predicate RequestsFit(items: seq<Item>, n: nat, room: nat) {
    (forall i :: 0 <= i < |items| ==> |items[i].to| <= 1024) && (items == [] || n + |items| <= room)
  }

  lemma AllFitMeans(items: seq<Item>, n: nat, peer: Peer)
    ensures AllFit(items, n, peer) <==> RequestsFit(items, n, peer.room)
  {
    if AllFit(items, n, peer) {
      forall i | 0 <= i < |items| ensures |items[i].to| <= 1024 && n + i < peer.room {
        assert Fits(items[i].to, n + i, peer);
      }
      if items != [] { assert Fits(items[|items| - 1].to, n + (|items| - 1), peer); }
    }
  }

  // Does sync_send with timestamp check skip the file?
  predicate TimestampMatches(item: Item, w: Wire, peer: Peer) {
    && Fits(item.to, |w.asked|, peer)
    && var reply := peer.replies(w.replied);
       reply.Stat? && reply.mtime == item.mtime
  }

  // The requests for the items go out up to the first that cannot be sent.
  function Requested(asked: seq<string>, items: seq<Item>, peer: Peer): seq<string>
    decreases |items|
  {
    if items == [] || !Fits(items[0].to, |asked|, peer) then asked
    else Requested(asked + [items[0].to], items[1..], peer)
  }

  // Is some reply read for a path other than the one it answers?
  predicate Misread(asked: seq<string>, first: nat, items: seq<Item>)
    requires first + |items| <= |asked|
  {
    exists i :: 0 <= i < |items| && asked[first + i] != items[i].to
  }

  class SyncSession {
    const acks: SyncConnection
    const peer: Peer
    var asked: seq<string>               // paths of the stat requests, in order
    var replied: nat                     // stat replies read so far
    var current: Ledger
    var global: Ledger
    ghost var finished: seq<Ledger>      // the ledgers of earlier transfers
    ghost var failed: bool               // a step of the protocol has failed
    ghost var crossed: bool              // a stat reply was read for the wrong path or before an acknowledgement
    ghost var peak: nat                  // the largest number of outstanding files

    // The global ledger is the sum of the ledgers of all transfers.
    ghost predicate Balanced()
      reads this
    {
      var past := Sum(finished);
      && global.files == past.files + current.files
      && global.skipped == past.skipped + current.skipped
      && global.bytes == past.bytes + current.bytes
    }

    // As long as no step has failed, at most n files are outstanding and never were there more than 128,
    // every acknowledgement so far was ID_OKAY, and every stat reply has been read.
    ghost predicate Clean(n: nat)
      reads this, acks
    {
      && |acks.deferred| <= n && peak <= MAX_DEFERRED
      && replied == |asked|
      && AllOkay(acks.past.answers)
    }

    ghost predicate Holds(n: nat)
      reads this, acks
    {
      && acks.Valid() && Balanced()
      && replied <= |asked| && |acks.deferred| <= peak
      && (!failed ==> Clean(n))
    }

    ghost predicate Valid()
      reads this, acks
    {
      Holds(MAX_DEFERRED - 1)
    }

    // No acknowledgement is outstanding and no stat reply is on its way.
    ghost predicate Settled()
      reads this, acks
    {
      acks.deferred == [] && replied == |asked|
    }

    // The files that the global ledger has counted.
    ghost function Handled(): int
      reads this
    {
      global.files + global.skipped
    }

    // The state of the stat requests.
    ghost function Sent(): Wire
      reads this
    {
      Wire(asked, replied)
    }

    ghost function Done(): Sofar
      reads this, acks
    {
      Sofar(Handled(), Sent(), acks.past.sent)
    }

    constructor (acks: SyncConnection, peer: Peer)
      requires acks.Valid() && acks.deferred == [] && acks.past.answers == []
      ensures Valid() && Settled() && !failed && !crossed && this.acks == acks && this.peer == peer
      ensures Sent() == Wire([], 0)
      ensures global == NO_TRANSFER
    {
      this.acks, this.peer := acks, peer;
      replied, current, global := 0, NO_TRANSFER, NO_TRANSFER;
      finished, asked, failed, crossed, peak := [], [], false, false, 0;
    }

    // NewTransfer
    method NewTransfer()
      requires Balanced()
      modifies this`current, this`finished
      ensures Balanced() && current == NO_TRANSFER
    {
      SumAppend(finished, current);
      finished := finished + [current];
      current := NO_TRANSFER;
    }

    // RecordBytesTransferred, RecordFilesTransferred and RecordFilesSkipped.
    method Record(l: Ledger)
      requires Balanced()
      modifies this`current, this`global
      ensures Balanced() && Grown(old(current), l.files, l.skipped, l.bytes, current)
      ensures Grown(old(global), l.files, l.skipped, l.bytes, global)
    {
      current := Add(current, l);
      global := Add(global, l);
    }

    // SendLstat
    method SendLstat(path: string) returns (ok: bool)
      modifies this`asked
      ensures ok == Fits(path, |old(asked)|, peer) && asked == if ok then old(asked) + [path] else old(asked)
      ensures ok <==> |path| <= 1024 && |old(asked)| < peer.room
    {
      if |path| > MAX_PATH {
        return false;
      }
      if |asked| >= peer.room {
        return false;
      }
      asked := asked + [path];
      return true;
    }

    // FinishStat on behalf of `path`: the daemon answers its requests in order.
    method FinishStat(path: string) returns (r: Reply)
      requires replied < |asked|
      modifies this`replied, this`crossed
      ensures r == peer.replies(old(replied)) && replied == old(replied) + 1
      ensures crossed == (old(crossed) || acks.deferred != [] || asked[old(replied)] != path)
    {
      crossed := crossed || acks.deferred != [] || asked[replied] != path;
      r := peer.replies(replied);
      replied := replied + 1;
    }

    // ReadAcknowledgements
    method ReadAcks(readAll: bool) returns (ok: bool)
      requires Holds(MAX_DEFERRED)
      modifies this`failed, acks
      ensures Extends(old(acks.past), acks.past)
      ensures Valid()
      ensures failed == (old(failed) || !ok)
      ensures ok && readAll ==> acks.deferred == []
      ensures acks.past.sent == old(acks.past.sent)
    {
      ok := acks.ReadAcknowledgements(readAll);
      failed := failed || !ok;
      if !failed {
        OkayAppended(old(acks.View()), acks.View());
      }
    }

    // The part of sync_send that puts the file on the wire.
    method SendFile(item: Item) returns (ok: bool)
      requires Valid()
      modifies this`current, this`global, this`failed, this`peak, acks
      ensures Extends(old(acks.past), acks.past)
      ensures Holds(MAX_DEFERRED)
      ensures ok == item.sendable && failed == (old(failed) || !ok)
      ensures Grown(old(current), if ok then 1 else 0, 0, if ok then item.bytes else 0, current)
      ensures Grown(old(global), if ok then 1 else 0, 0, if ok then item.bytes else 0, global)
      ensures acks.past.sent == old(acks.past.sent) + (if ok then [SentFile(item.from, item.to)] else [])
    {
      if !item.sendable {
        failed := true;
        return false;
      }
      Record(Ledger(1, 0, item.bytes));
      acks.RecordFileSent(SentFile(item.from, item.to));
      peak := if |acks.deferred| > peak then |acks.deferred| else peak;
      return true;
    }

    // sync_send after its timestamp check.
    method SendNow(item: Item, sync: bool) returns (ok: bool)
      requires Valid()
      modifies this`current, this`global, this`failed, this`peak, acks
      ensures Extends(old(acks.past), acks.past)
      ensures Valid() && failed == (old(failed) || !ok) && (ok && sync ==> acks.deferred == [])
      ensures ok ==> current.files == old(current.files) + 1 && current.skipped == old(current.skipped)
      ensures ok ==> acks.past.sent == old(acks.past.sent) + [SentFile(item.from, item.to)]
    {
      ok := SendFile(item);
      if !ok {
        return false;
      }
      ok := ReadAcks(sync);
    }

    // The timestamp check of sync_send.
    method UpToDate(item: Item) returns (same: bool)
      requires Valid() && (!failed ==> Settled())
      modifies this`asked, this`replied, this`crossed
      ensures Valid() && (!failed ==> Settled())
      ensures same == TimestampMatches(item, old(Sent()), peer)
      ensures same <==>
                && |item.to| <= 1024 && |old(asked)| < peer.room
                && peer.replies(old(replied)).Stat? && peer.replies(old(replied)).mtime == item.mtime
      ensures Sent() == After(old(Sent()), Plain(item), true, peer)
      ensures crossed == (old(crossed) || Crosses(old(Sent()), Plain(item), true, peer, acks.deferred != []))
    {
      var sent := SendLstat(item.to);
      if !sent {
        return false;
      }
      MisreadOne(asked, replied, item);
      var r := FinishStat(item.to);
      return r.Stat? && r.mtime == item.mtime;
    }

    // sync_send
    method SyncSend(item: Item, sync: bool) returns (ok: bool)
      requires Valid() && (sync && !failed ==> Settled())
      modifies this, acks
      ensures Extends(old(acks.past), acks.past)
      ensures Valid() && (sync && !failed ==> Settled())
      ensures failed == (old(failed) || !ok)
      ensures Sent() == After(old(Sent()), Plain(item), sync, peer)
      ensures crossed == (old(crossed) || Crosses(old(Sent()), Plain(item), sync, peer, old(acks.deferred) != []))
      ensures ok ==> current.files + current.skipped == old(current.files + current.skipped) + 1
      ensures ok ==> Handled() == old(Handled()) + 1
      ensures ok ==>
                var skip := sync && TimestampMatches(item, old(Sent()), peer);
                && current.skipped == old(current.skipped) + (if skip then 1 else 0)
                && acks.past.sent == old(acks.past.sent) + if skip then [] else [SentFile(item.from, item.to)]
      ensures ok ==>
                acks.past.sent == old(acks.past.sent) +
                if && sync && |item.to| <= 1024 && |old(asked)| < peer.room
                   && peer.replies(old(replied)).Stat? && peer.replies(old(replied)).mtime == item.mtime
                then [] else [SentFile(item.from, item.to)]
    {
      if sync {
        var same := UpToDate(item);
        if same {
          Record(Ledger(0, 1, 0));
          return true;
        }
      }
      ok := SendNow(item, sync);
    }

    // The requests of the timestamp check of copy_local_dir_remote.
    method SendRequests(items: seq<Item>) returns (ok: bool)
      modifies this`asked
      ensures ok == AllFit(items, |old(asked)|, peer)
      ensures asked == Requested(old(asked), items, peer)
      ensures ok ==> asked == old(asked) + Paths(items)
      ensures |old(asked)| <= |asked|
    {
      for i := 0 to |items|
        invariant AllFit(items[..i], |old(asked)|, peer) && asked == old(asked) + Paths(items[..i])
        invariant Requested(old(asked), items, peer) == Requested(asked, items[i..], peer)
      {
        assert items[i..][1..] == items[i + 1..];
        ok := SendLstat(items[i].to);
        if !ok {
          return false;
        }
      }
      assert items[..|items|] == items;
      return true;
    }

    // The answers: the i-th decides about the i-th item.
    method FinishStats(items: seq<Item>) returns (skip: seq<bool>)
      requires replied + |items| <= |asked|
      modifies this`replied, this`crossed
      ensures skip == Skips(items, peer.replies, old(replied)) && replied == old(replied) + |items|
      ensures |skip| == |items|
      ensures forall i :: 0 <= i < |items| ==>
                (skip[i] <==> items[i].special || peer.replies(old(replied) + i) == Stat(items[i].size, items[i].mtime))
      ensures crossed == (old(crossed) || (items != [] && (acks.deferred != [] || Misread(asked, old(replied), items))))
    {
      skip := [];
      for i := 0 to |items|
        invariant skip == Skips(items, peer.replies, old(replied))[..i] && replied == old(replied) + i
        invariant crossed == (old(crossed) || (i > 0 && acks.deferred != [])
                              || exists j :: 0 <= j < i && asked[old(replied) + j] != items[j].to)
      {
        var r := FinishStat(items[i].to);
        skip := skip + [items[i].special || r == Stat(items[i].size, items[i].mtime)];
      }
      SkipsAre(items, peer.replies, old(replied));
    }

    // The timestamp check.  A request that cannot be sent leaves the replies to the earlier ones unread.
    method CheckTimestamps(items: seq<Item>) returns (ok: bool, skip: seq<bool>)
      requires Valid()
      modifies this`asked, this`replied, this`crossed, this`failed
      ensures Valid() && ok == AllFit(items, |old(asked)|, peer) && failed == (old(failed) || !ok)
      ensures ok <==> RequestsFit(items, |old(asked)|, peer.room)
      ensures ok ==> skip == Skips(items, peer.replies, old(replied)) && |skip| == |items|
      ensures ok ==> forall i :: 0 <= i < |items| ==>
                (skip[i] <==> items[i].special || peer.replies(old(replied) + i) == Stat(items[i].size, items[i].mtime))
      ensures ok ==> asked == old(asked) + Paths(items) && replied == old(replied) + |items|
      ensures Sent() == After(old(Sent()), Directory(Some(items), true), true, peer)
      ensures crossed == (old(crossed) ||
                          Crosses(old(Sent()), Directory(Some(items), true), true, peer, acks.deferred != []))
    {
      skip := [];
      ok := SendRequests(items);
      AllFitMeans(items, |old(asked)|, peer);
      if !ok {
        failed := true;
        return;
      }
      skip := FinishStats(items);
    }

    // What copy_local_dir_remote does with one item: sync_send without timestamp check unless it is skipped or
    // only listed.
    method SendItem(item: Item, skip: bool, listOnly: bool) returns (ok: bool)
      requires Valid()
      modifies this`current, this`global, this`failed, this`peak, acks
      ensures Extends(old(acks.past), acks.past)
      ensures Valid() && failed == (old(failed) || !ok)
      ensures ok ==> current.skipped == old(current.skipped)
      ensures ok ==> current.files == old(current.files) + if skip || listOnly then 0 else 1
      ensures ok ==> acks.past.sent == old(acks.past.sent) +
                                         if skip || listOnly then [] else [SentFile(item.from, item.to)]
    {
      if skip || listOnly {
        return true;
      }
      ok := SendNow(item, false);
    }

    // The loop of copy_local_dir_remote that sends or lists what is not skipped.
    method SendItems(items: seq<Item>, skip: seq<bool>, listOnly: bool) returns (ok: bool, skipped: nat)
      requires Valid() && |skip| == |items|
      modifies this`current, this`global, this`failed, this`peak, acks
      ensures Extends(old(acks.past), acks.past)
      ensures Valid() && failed == (old(failed) || !ok)
      ensures ok ==> skipped == Trues(skip) && current.skipped == old(current.skipped)
      ensures ok ==> current.files == old(current.files) + if listOnly then 0 else |items| - skipped
      ensures ok ==> acks.past.sent == old(acks.past.sent) + if listOnly then [] else Chosen(items, skip)
    {
      skipped := 0;
      for i := 0 to |items|
        invariant Valid() && failed == old(failed) && skipped <= i && Extends(old(acks.past), acks.past)
        invariant skipped == Trues(skip[..i]) && current.skipped == old(current.skipped)
        invariant current.files == old(current.files) + if listOnly then 0 else i - skipped
        invariant acks.past.sent == old(acks.past.sent) + if listOnly then [] else Chosen(items[..i], skip[..i])
      {
        ChosenNext(items, skip, i);
        ghost var (before, at) := (if listOnly then [] else Chosen(items[..i], skip[..i]), acks.past);
        ok := SendItem(items[i], skip[i], listOnly);
        ExtendsOn(old(acks.past), at, acks.past);
        if !ok {
          return;
        }
        Assoc(old(acks.past.sent), before,
              if skip[i] || listOnly then [] else [SentFile(items[i].from, items[i].to)]);
        if skip[i] {
          skipped := skipped + 1;
        }
      }
      assert items[..|items|] == items && skip[..|items|] == skip;
      return true, skipped;
    }

    // The end of copy_local_dir_remote, once it is known what to skip.
    method SendRest(items: seq<Item>, skip: seq<bool>, listOnly: bool) returns (ok: bool)
      requires Valid() && |skip| == |items| && current == NO_TRANSFER
      modifies this`current, this`global, this`failed, this`peak, acks
      ensures Extends(old(acks.past), acks.past)
      ensures Valid() && failed == (old(failed) || !ok)
      ensures ok ==> acks.deferred == [] && current.skipped == Trues(skip)
      ensures ok ==> current.files == if listOnly then 0 else |items| - current.skipped
      ensures ok && !listOnly ==> acks.past.sent == old(acks.past.sent) + Chosen(items, skip)
    {
      var skipped;
      ok, skipped := SendItems(items, skip, listOnly);
      if !ok {
        return;
      }
      Record(Ledger(0, skipped, 0));
      ok := ReadAcks(true);
    }

    // copy_local_dir_remote up to what it skips: see CopyLocalDirRemote.
    method CopyDir(list: Option<seq<Item>>, dirsMade: bool, check: bool, listOnly: bool)
      returns (ok: bool)
      requires Valid() && (check && !failed ==> Settled())
      modifies this, acks
      ensures Extends(old(acks.past), acks.past)
      ensures Valid() && failed == (old(failed) || !ok)
      ensures !failed ==> Settled()
      ensures Sent() == After(old(Sent()), Directory(list, dirsMade), check, peer)
      ensures crossed == (old(crossed) ||
                          Crosses(old(Sent()), Directory(list, dirsMade), check, peer, old(acks.deferred) != []))
      ensures ok ==> list.Some? && dirsMade
      ensures ok ==> current.skipped == Trues(SkipFlags(list.value, check, peer.replies, old(replied)))
      ensures ok ==> current.files == if listOnly then 0 else |list.value| - current.skipped
      ensures ok && !listOnly ==>
                Handled() == old(Handled()) + |list.value|
      ensures ok && !listOnly ==>
                acks.past.sent == old(acks.past.sent) +
                Chosen(list.value, SkipFlags(list.value, check, peer.replies, old(replied)))
    {
      NewTransfer();
      if list == None || !dirsMade {
        failed := true;
        return false;
      }
      var items := list.value;
      var skip := Specials(items);
      if check {
        ok, skip := CheckTimestamps(items);
        if !ok {
          return;
        }
      }
      ok := SendRest(items, skip, listOnly);
    }

    // copy_local_dir_remote, after the local file list was built (None: it was not).
    // `picked`: the items that are sent or listed.
    method CopyLocalDirRemote(list: Option<seq<Item>>, dirsMade: bool, check: bool, listOnly: bool)
      returns (ok: bool, ghost picked: seq<nat>)
      requires Valid() && (check && !failed ==> Settled())
      modifies this, acks
      ensures Extends(old(acks.past), acks.past)
      ensures Valid() && failed == (old(failed) || !ok)
      ensures !failed ==> Settled()
      ensures Sent() == After(old(Sent()), Directory(list, dirsMade), check, peer)
      ensures crossed == (old(crossed) ||
                          Crosses(old(Sent()), Directory(list, dirsMade), check, peer, old(acks.deferred) != []))
      ensures ok ==> list.Some? && dirsMade
      ensures ok ==> current.skipped == Trues(SkipFlags(list.value, check, peer.replies, old(replied)))
      ensures ok ==> current.files == if listOnly then 0 else |list.value| - current.skipped
      ensures ok && !listOnly ==>
                Handled() == old(Handled()) + |list.value|
      ensures ok && !listOnly ==>
                acks.past.sent == old(acks.past.sent) +
                Chosen(list.value, SkipFlags(list.value, check, peer.replies, old(replied)))
      ensures ok ==> PicksDiffering(list.value, check, peer, old(replied), picked)
      ensures ok ==> current.skipped == |list.value| - |picked|
      ensures ok && !listOnly ==> acks.past.sent == old(acks.past.sent) + FilesAt(list.value, picked)
    {
      picked := [];
      ok := CopyDir(list, dirsMade, check, listOnly);
      if ok {
        picked := CopiedItems(list.value, check, listOnly, peer, old(replied), current.skipped, old(acks.past.sent),
                              acks.past.sent);
      }
    }

    // One argument of the push; `stop`: the whole push ends here.
    method PushSource(src: Source, target: Target, sync: bool) returns (ok: bool, stop: bool)
      requires Valid() && (sync && !failed ==> Settled())
      modifies this, acks
      ensures Extends(old(acks.past), acks.past)
      ensures Valid() && (sync && !failed ==> Settled()) && (!failed ==> !old(failed) && crossed == old(crossed))
      ensures ok ==> failed == old(failed) && !stop && src != Missing
      ensures ok ==> Done() == Advanced(old(Done()), src, sync, peer)
      ensures stop == Ends(src, target)
      ensures !stop ==> Sent() == After(old(Sent()), src, sync, peer)
      ensures crossed == (old(crossed) ||
                          (!stop && Crosses(old(Sent()), src, sync, peer, old(acks.deferred) != [])))
    {
      if !failed && sync {
        SettledNoCross(Sent(), src, sync, peer);
      }
      match src
      case Missing => return false, false;
      case Directory(items, dirsMade) =>
        if target == ExistingFile {
          return false, true;
        }
        ghost var picked;
        ok, picked := CopyLocalDirRemote(items, dirsMade, sync, false);
        return ok, false;
      case Special => return true, false;
      case Plain(item) =>
        NewTransfer();
        ok := SyncSend(item, sync);
        return ok, false;
    }

    // The turn of argument i, after the turns recorded.
    method TakeTurn(srcs: seq<Source>, i: nat, target: Target, sync: bool, ghost turns: seq<Turn>,
                    ghost first: AckState, ghost start: Wire, ghost before: bool)
      returns (done: bool, stop: bool, ghost more: seq<Turn>)
      requires Valid() && (sync && !failed ==> Settled()) && (AllDone(turns) ==> !failed)
      requires i < |srcs| && Crossing(srcs, i, target, sync, peer, start, Sent(), Waiting(turns), before, crossed)
      requires Recorded(turns, sync, first, acks.View()) && (i == 0 ==> acks.View() == first)
      modifies this, acks
      ensures Valid() && (sync && !failed ==> Settled()) && (!failed ==> !old(failed) && crossed == old(crossed))
      ensures done ==> failed == old(failed) && !stop && srcs[i] != Missing
      ensures done ==> Done() == Advanced(old(Done()), srcs[i], sync, peer)
      ensures Recorded(more, sync, first, acks.View())
      ensures stop ==> more == turns && |turns| == Reached(srcs, target) && crossed == old(crossed)
      ensures !stop ==>
                Crossing(srcs, i + 1, target, sync, peer, start, Sent(), Waiting(more), before, crossed)
                && (AllDone(more) <==> AllDone(turns) && done)
    {
      ghost var (wire, at) := (Sent(), acks.View());
      done, stop := PushSource(srcs[i], target, sync);
      more := turns;
      RecordedOn(turns, sync, first, at, acks.View());
      if stop {
        CrossingEnds(srcs, i, target, sync, peer, start, wire, Waiting(turns), before, old(crossed));
      } else {
        CrossingNext(srcs, i, target, sync, peer, start, wire, Waiting(turns), before, old(crossed),
                     at.deferred != []);
        RecordedNext(turns, sync, first, at, done, acks.View());
        more := turns + [Turn(at, done)];
      }
    }

    // The loop of do_sync_push.  `turns` records, for each argument up to the one that ends the push, the
    // acknowledgements when its turn comes and whether it succeeds.
    method PushAll(srcs: seq<Source>, target: Target, sync: bool)
      returns (success: bool, stop: bool, ghost turns: seq<Turn>)
      requires Valid() && (sync ==> Settled()) && !failed
      modifies this, acks
      ensures Valid() && (success ==> !failed && !stop) && (stop <==> |turns| < |srcs|)
      ensures |turns| == Reached(srcs, target) && Recorded(turns, sync, old(acks.View()), acks.View())
      ensures success <==> !stop && AllDone(turns)
      ensures !failed ==> crossed == old(crossed)
      ensures crossed == (old(crossed) || SomeCross(srcs, old(Sent()), sync, peer, Waiting(turns)))
      ensures success ==> Handled() == old(Handled()) + AllEntries(srcs)
      ensures success ==> Missing !in srcs
      ensures success ==> acks.past.sent == old(acks.past.sent) + Pushed(srcs, sync, peer, old(Sent()))
    {
      success, stop, turns := true, false, [];
      ghost var (start, now, before, first) := (Done(), Done(), crossed, acks.View());
      PushingNone(srcs, sync, peer, start);
      for i := 0 to |srcs|
        invariant Valid() && (sync && !failed ==> Settled()) && (success ==> !failed)
        invariant Crossing(srcs, i, target, sync, peer, start.wire, Sent(), Waiting(turns), before, crossed)
        invariant Recorded(turns, sync, first, acks.View()) && (success <==> AllDone(turns))
        invariant i == 0 ==> acks.View() == first
        invariant !failed ==> crossed == before
        invariant success ==> now == Done() && Pushing(srcs, i, sync, peer, start, now)
      {
        var done;
        done, stop, turns := TakeTurn(srcs, i, target, sync, turns, first, start.wire, before);
        if stop {
          return false, true, turns;
        }
        success := success && done;
        if success {
          PushingNext(srcs, i, sync, peer, start, now);
          now := Advanced(now, srcs[i], sync, peer);
        }
      }
      ReachedAll(srcs, target);
      if success {
        PushingAll(srcs, sync, peer, start, now);
      }
    }

    // do_sync_push up to what it picks: see DoSyncPush.
    method Push(srcs: seq<Source>, target: Target, dstEndsInSlash: bool, sync: bool)
      returns (ok: bool, ghost turns: seq<Turn>)
      requires Valid() && Settled() && !failed && !crossed
      modifies this, acks
      ensures Valid()
      ensures |turns| == Turns(srcs, target, dstEndsInSlash)
      ensures Recorded(turns, sync, old(acks.View()), acks.View())
      ensures crossed <==> SomeCross(srcs, old(Sent()), sync, peer, Waiting(turns))
      ensures SomeCross(srcs, old(Sent()), sync, peer, Always(|turns|, false)) ==> crossed
      ensures crossed ==> failed && SomeCross(srcs, old(Sent()), sync, peer, Always(|turns|, true))
      ensures !failed ==> peak <= MAX_DEFERRED
      ensures ok ==> !failed && acks.deferred == [] && AllDone(turns)
      ensures ok ==> AllOkay(acks.past.answers) && Files(acks.past.answers) == acks.past.sent
      ensures ok ==> acks.past.sent == old(acks.past.sent) + Pushed(srcs, sync, peer, old(Sent()))
      ensures ok ==> Handled() == old(Handled()) + AllEntries(srcs)
      ensures ok <==> |turns| == |srcs| && !Refused(srcs, target, dstEndsInSlash) && AllDone(turns) && !failed
      ensures ok ==> Missing !in srcs
    {
      turns := [];
      NoTurns(srcs, old(Sent()), sync, peer, acks.View());
      if target == Unknown {
        return false, turns;
      }
      if target != ExistingDir {
        if |srcs| > 1 || (dstEndsInSlash && target != Absent) {
          return false, turns;
        }
      }
      var success, stop;
      success, stop, turns := PushAll(srcs, target, sync);
      CrossBounds(srcs, old(Sent()), sync, peer, Waiting(turns));
      if stop {
        return false, turns;
      }
      ghost var mid := acks.View();
      var done := ReadAcks(true);
      RecordedOn(turns, sync, old(acks.View()), mid, acks.View());
      AllAnswered(acks.View());
      ok := success && done;
    }
    // do_sync_push.  `picked`: the arguments and items that are sent, if it succeeds.
    method DoSyncPush(srcs: seq<Source>, target: Target, dstEndsInSlash: bool, sync: bool)
      returns (ok: bool, ghost turns: seq<Turn>, ghost picked: seq<(nat, nat)>)
      requires Valid() && Settled() && !failed && !crossed
      modifies this, acks
      ensures Valid()
      ensures |turns| == Turns(srcs, target, dstEndsInSlash)
      ensures Recorded(turns, sync, old(acks.View()), acks.View())
      ensures crossed <==> SomeCross(srcs, old(Sent()), sync, peer, Waiting(turns))
      ensures SomeCross(srcs, old(Sent()), sync, peer, Always(|turns|, false)) ==> crossed
      ensures crossed ==> failed && SomeCross(srcs, old(Sent()), sync, peer, Always(|turns|, true))
      ensures !failed ==> peak <= MAX_DEFERRED
      ensures ok ==> !failed && acks.deferred == [] && AllDone(turns)
      ensures ok ==> AllOkay(acks.past.answers) && Files(acks.past.answers) == acks.past.sent
      ensures ok ==> acks.past.sent == old(acks.past.sent) + Pushed(srcs, sync, peer, old(Sent()))
      ensures ok ==> Handled() == old(Handled()) + AllEntries(srcs)
      ensures TurnsTaken(srcs, target, dstEndsInSlash, |turns|)
      ensures ok <==> |turns| == |srcs| && !Refused(srcs, target, dstEndsInSlash) && AllDone(turns) && !failed
      ensures ok ==> Missing !in srcs
      ensures ok ==> PicksChanged(srcs, sync, peer, old(Sent()), picked)
      ensures ok ==> acks.past.sent == old(acks.past.sent) + FilesOf(srcs, picked)
    {
      picked := [];
      TurnsAreTaken(srcs, target, dstEndsInSlash);
      ok, turns := Push(srcs, target, dstEndsInSlash, sync);
      if ok {
        picked := PickedFiles(srcs, sync, peer, old(Sent()));
      }
    }
  }

  // The whole push is refused.
  predicate Refused(srcs: seq<Source>, target: Target, dstEndsInSlash: bool) {
    target == Unknown || (target != ExistingDir && (|srcs| > 1 || (dstEndsInSlash && target != Absent)))
  }

  lemma ExtendsOn(s: AckState, t: AckState, u: AckState)
    requires Extends(s, t) && Extends(t, u)
    ensures Extends(s, u)
  {
  }

  // How many arguments have their turn?
  function Turns(srcs: seq<Source>, target: Target, dstEndsInSlash: bool): (n: nat)
    ensures n <= |srcs|
  {
    if Refused(srcs, target, dstEndsInSlash) then 0 else Reached(srcs, target)
  }

  // Nothing has its turn if the destination is unknown, if it is no directory for several arguments, or if it is
  // a file whose name ends in a slash.  Otherwise all arguments have theirs, up to a directory that would
  // replace a file.
  ghost predicate TurnsTaken(srcs: seq<Source>, target: Target, dstEndsInSlash: bool, n: nat) {
    if target == Unknown || (target != ExistingDir && |srcs| > 1) || (target == ExistingFile && dstEndsInSlash) then
      n == 0
    else
      n <= |srcs|
      && (target == ExistingFile ==> forall k :: 0 <= k < n ==> !srcs[k].Directory?)
      && (n < |srcs| ==> target == ExistingFile && srcs[n].Directory?)
  }

  lemma {:induction false} TurnsAreTaken(srcs: seq<Source>, target: Target, dstEndsInSlash: bool)
    ensures TurnsTaken(srcs, target, dstEndsInSlash, Turns(srcs, target, dstEndsInSlash))
  {
    ReachedMeans(srcs, target);
  }

  lemma {:induction false} ReachedMeans(srcs: seq<Source>, target: Target)
    ensures
      var n := Reached(srcs, target);
      && (forall k :: 0 <= k < n ==> !Ends(srcs[k], target))
      && (n < |srcs| ==> Ends(srcs[n], target))
  {
    if srcs != [] && !Ends(srcs[0], target) { ReachedMeans(srcs[1..], target); }
  }

  // One argument of a push: the acknowledgements when its turn comes, and whether it succeeds.
  datatype Turn = Turn(at: AckState, done: bool)

  // At which turns are acknowledgements outstanding?
  function Waiting(turns: seq<Turn>): seq<bool> {
    seq(|turns|, i requires 0 <= i < |turns| => turns[i].at.deferred != [])
  }

  predicate AllDone(turns: seq<Turn>) {
    turns == [] || (AllDone(turns[..|turns| - 1]) && turns[|turns| - 1].done)
  }

  // The acknowledgements at the turns: the first is the state before the push, the bytes read, the files sent
  // and the answers only grow, up to the state after it, and with timestamp checks they are outstanding only
  // after an argument that failed.
  ghost predicate Recorded(turns: seq<Turn>, sync: bool, first: AckState, last: AckState) {
    if turns == [] then Extends(first, last)
    else
      var (k, t) := (|turns| - 1, turns[|turns| - 1]);
      && (k == 0 ==> t.at == first) && AckInv(t.at)
      && Recorded(turns[..k], sync, first, t.at) && Extends(t.at, last)
      && (sync && t.at.deferred != [] ==> !AllDone(turns[..k]))
  }

  lemma RecordedOn(turns: seq<Turn>, sync: bool, first: AckState, mid: AckState, last: AckState)
    requires Recorded(turns, sync, first, mid) && Extends(mid, last)
    ensures Recorded(turns, sync, first, last)
  {
  }

  lemma RecordedNext(turns: seq<Turn>, sync: bool, first: AckState, at: AckState, done: bool, last: AckState)
    requires Recorded(turns, sync, first, at) && Extends(at, last) && AckInv(at)
    requires (turns == [] ==> at == first) && (sync && at.deferred != [] ==> !AllDone(turns))
    ensures Recorded(turns + [Turn(at, done)], sync, first, last)
    ensures AllDone(turns + [Turn(at, done)]) <==> AllDone(turns) && done
    ensures Waiting(turns + [Turn(at, done)]) == Waiting(turns) + [at.deferred != []]
  {
    assert (turns + [Turn(at, done)])[..|turns|] == turns;
  }

  // What the record says about one turn: with timestamp checks acknowledgements are outstanding only if an
  // argument before has failed.
  lemma {:induction false} RecordedTurn(turns: seq<Turn>, sync: bool, first: AckState, last: AckState, i: nat)
    requires i < |turns| && Recorded(turns, sync, first, last)
    ensures AckInv(turns[i].at) && (i == 0 ==> turns[i].at == first)
    ensures sync && turns[i].at.deferred != [] ==> exists j :: 0 <= j < i && !turns[j].done
  {
    var (k, rest) := (|turns| - 1, turns[..|turns| - 1]);
    if i < k {
      RecordedTurn(rest, sync, first, turns[k].at, i);
    } else if !AllDone(rest) {
      var j := NotDone(rest);
      assert rest[j] == turns[j];
    }
  }

  lemma {:induction false} RecordedGrows(turns: seq<Turn>, sync: bool, first: AckState, last: AckState, i: nat)
    requires i < |turns| && Recorded(turns, sync, first, last)
    ensures Extends(first, turns[i].at) && Extends(turns[i].at, last)
  {
    var (k, rest) := (|turns| - 1, turns[..|turns| - 1]);
    if i < k {
      RecordedGrows(rest, sync, first, turns[k].at, i);
      ExtendsOn(turns[i].at, turns[k].at, last);
    } else {
      RecordedExtends(rest, sync, first, turns[k].at);
    }
  }

  // Acknowledgements are outstanding exactly when more files were sent than responses settled.
  lemma OutstandingMeans(s: AckState)
    requires AckInv(s)
    ensures s.deferred != [] <==> |s.sent| > |Settling(Responses(s.consumed))|
  {
    VerdictCount(s.answers);
    FileCount(s.answers);
  }

  lemma {:induction false} RecordedExtends(turns: seq<Turn>, sync: bool, first: AckState, last: AckState)
    requires Recorded(turns, sync, first, last)
    ensures Extends(first, last)
  {
    if turns != [] { RecordedExtends(turns[..|turns| - 1], sync, first, turns[|turns| - 1].at); }
  }

  lemma {:induction false} NotDone(turns: seq<Turn>) returns (j: nat)
    requires !AllDone(turns)
    ensures j < |turns| && !turns[j].done
  {
    j := |turns| - 1;
    if turns[j].done { j := NotDone(turns[..j]); }
  }

  function Always(n: nat, b: bool): seq<bool> {
    seq(n, _ => b)
  }

  // A directory cannot be pushed onto a file: the push ends there.
  predicate Ends(src: Source, target: Target) {
    src.Directory? && target == ExistingFile
  }

  // How many arguments have their turn before one ends the push?
  function Reached(srcs: seq<Source>, target: Target): (n: nat)
    ensures n <= |srcs|
  {
    if srcs == [] || Ends(srcs[0], target) then 0 else 1 + Reached(srcs[1..], target)
  }

  predicate NoneEnds(srcs: seq<Source>, n: nat, target: Target)
    requires n <= |srcs|
  {
    forall k :: 0 <= k < n ==> !Ends(srcs[k], target)
  }

  lemma {:induction false} ReachedAt(srcs: seq<Source>, i: nat, target: Target)
    requires i < |srcs| && NoneEnds(srcs, i, target)
    ensures Ends(srcs[i], target) ==> Reached(srcs, target) == i
  {
    if i > 0 {
      assert !Ends(srcs[0], target);
      ReachedAt(srcs[1..], i - 1, target);
    }
  }

  lemma {:induction false} ReachedAll(srcs: seq<Source>, target: Target)
    requires NoneEnds(srcs, |srcs|, target)
    ensures Reached(srcs, target) == |srcs|
  {
    if srcs != [] { ReachedAll(srcs[1..], target); }
  }

  // ----- Stat replies that are read for the wrong path, or before an acknowledgement -----

  // What an argument does to the requests and replies.
  function After(w: Wire, src: Source, sync: bool, peer: Peer): Wire {
    if !sync then w
    else match src
      case Plain(item) => if Fits(item.to, |w.asked|, peer) then Wire(w.asked + [item.to], w.replied + 1) else w
      case Directory(Some(items), true) =>
        Wire(Requested(w.asked, items, peer), w.replied + if AllFit(items, |w.asked|, peer) then |items| else 0)
      case _ => w
  }

  // Does an argument read a stat reply for another path than the one it answers, or one before an outstanding
  // acknowledgement (`busy`)?
  predicate Crosses(w: Wire, src: Source, sync: bool, peer: Peer, busy: bool) {
    && sync && w.replied <= |w.asked|
    && match src
       case Plain(item) =>
         && Fits(item.to, |w.asked|, peer)
         && (busy || Misread(w.asked + [item.to], w.replied, [item]))
       case Directory(Some(items), true) =>
         && items != [] && AllFit(items, |w.asked|, peer)
         && (busy || Misread(w.asked + Paths(items), w.replied, items))
       case _ => false
  }

  lemma MisreadOne(asked: seq<string>, first: nat, item: Item)
    requires first < |asked|
    ensures Misread(asked, first, [item]) <==> asked[first] != item.to
  {
    assert [item][0] == item;
  }

  // With nothing outstanding and every reply read, no reply is crossed.
  lemma SettledNoCross(w: Wire, src: Source, sync: bool, peer: Peer)
    requires w.replied == |w.asked|
    ensures !Crosses(w, src, sync, peer, false)
  {
  }

  // The requests and replies before argument k, which depend on the arguments alone.
  function WireAt(srcs: seq<Source>, k: nat, w: Wire, sync: bool, peer: Peer): Wire
    requires k <= |srcs|
  {
    if k == 0 then w else After(WireAt(srcs, k - 1, w, sync, peer), srcs[k - 1], sync, peer)
  }

  predicate CrossesAt(srcs: seq<Source>, w: Wire, sync: bool, peer: Peer, k: nat, busy: bool)
    requires k < |srcs|
  {
    Crosses(WireAt(srcs, k, w, sync, peer), srcs[k], sync, peer, busy)
  }

  ghost predicate SomeCross(srcs: seq<Source>, w: Wire, sync: bool, peer: Peer, busy: seq<bool>)
    requires |busy| <= |srcs|
  {
    exists k :: 0 <= k < |busy| && CrossesAt(srcs, w, sync, peer, k, busy[k])
  }

  // More acknowledgements outstanding never cross fewer replies.
  lemma CrossBounds(srcs: seq<Source>, w: Wire, sync: bool, peer: Peer, busy: seq<bool>)
    requires |busy| <= |srcs|
    ensures SomeCross(srcs, w, sync, peer, Always(|busy|, false)) ==> SomeCross(srcs, w, sync, peer, busy)
    ensures SomeCross(srcs, w, sync, peer, busy) ==> SomeCross(srcs, w, sync, peer, Always(|busy|, true))
  {
    var (none, all) := (Always(|busy|, false), Always(|busy|, true));
    if SomeCross(srcs, w, sync, peer, none) {
      var k :| 0 <= k < |none| && CrossesAt(srcs, w, sync, peer, k, none[k]);
      assert CrossesAt(srcs, w, sync, peer, k, busy[k]);
    }
    if SomeCross(srcs, w, sync, peer, busy) {
      var k :| 0 <= k < |busy| && CrossesAt(srcs, w, sync, peer, k, busy[k]);
      assert CrossesAt(srcs, w, sync, peer, k, all[k]);
    }
  }

  lemma NoTurns(srcs: seq<Source>, w: Wire, sync: bool, peer: Peer, s: AckState)
    ensures Recorded([], sync, s, s) && AllDone([]) && Waiting([]) == [] == Always(0, false) == Always(0, true)
    ensures !SomeCross(srcs, w, sync, peer, [])
  {
  }

  lemma AllAnswered(s: AckState)
    requires AckInv(s)
    ensures s.deferred == [] ==> Files(s.answers) == s.sent
  {
  }

  // What is known about the requests and the crossed replies when argument i has its turn.
  ghost predicate Crossing(srcs: seq<Source>, i: nat, target: Target, sync: bool, peer: Peer, start: Wire, w: Wire,
                           busy: seq<bool>, before: bool, crossed: bool)
    requires i <= |srcs|
  {
    && |busy| == i && NoneEnds(srcs, i, target)
    && w == WireAt(srcs, i, start, sync, peer)
    && crossed == (before || SomeCross(srcs, start, sync, peer, busy))
  }

  lemma CrossingNext(srcs: seq<Source>, i: nat, target: Target, sync: bool, peer: Peer, start: Wire, w: Wire,
                     busy: seq<bool>, before: bool, crossed: bool, next: bool)
    requires i < |srcs| && Crossing(srcs, i, target, sync, peer, start, w, busy, before, crossed)
    requires !Ends(srcs[i], target)
    ensures Crossing(srcs, i + 1, target, sync, peer, start, After(w, srcs[i], sync, peer), busy + [next], before,
                     crossed || Crosses(w, srcs[i], sync, peer, next))
  {
    var all := busy + [next];
    if SomeCross(srcs, start, sync, peer, busy) {
      var k :| 0 <= k < |busy| && CrossesAt(srcs, start, sync, peer, k, busy[k]);
      assert CrossesAt(srcs, start, sync, peer, k, all[k]);
    }
    if CrossesAt(srcs, start, sync, peer, i, next) {
      assert CrossesAt(srcs, start, sync, peer, i, all[i]);
    }
  }

  lemma CrossingEnds(srcs: seq<Source>, i: nat, target: Target, sync: bool, peer: Peer, start: Wire, w: Wire,
                     busy: seq<bool>, before: bool, crossed: bool)
    requires i < |srcs| && Crossing(srcs, i, target, sync, peer, start, w, busy, before, crossed)
    requires Ends(srcs[i], target)
    ensures |busy| == Reached(srcs, target)
  {
    ReachedAt(srcs, i, target);
  }

  // Does the check of a directory leave replies unread?  It does if its requests stop after the first.
  predicate LeavesUnread(w: Wire, src: Source, sync: bool, peer: Peer) {
    && sync && src.Directory? && src.items.Some? && src.dirsMade
    && var items := src.items.value;
       && !AllFit(items, |w.asked|, peer)
       && items != [] && Fits(items[0].to, |w.asked|, peer)
  }

  lemma {:induction false} RequestedLength(asked: seq<string>, items: seq<Item>, peer: Peer)
    ensures |Requested(asked, items, peer)| <= |asked| + |items|
    ensures |Requested(asked, items, peer)| == |asked| + |items| <==> AllFit(items, |asked|, peer)
    ensures asked <= Requested(asked, items, peer)
    decreases |items|
  {
    if items != [] && Fits(items[0].to, |asked|, peer) {
      RequestedLength(asked + [items[0].to], items[1..], peer);
      FitsRest(items, |asked|, peer);
    }
  }

  lemma FitsRest(items: seq<Item>, n: nat, peer: Peer)
    requires items != [] && Fits(items[0].to, n, peer)
    ensures AllFit(items, n, peer) <==> AllFit(items[1..], n + 1, peer)
  {
    if AllFit(items[1..], n + 1, peer) {
      forall i | 0 <= i < |items| ensures Fits(items[i].to, n + i, peer) {
        if i > 0 { assert Fits(items[1..][i - 1].to, n + 1 + (i - 1), peer); }
      }
    }
    if AllFit(items, n, peer) {
      forall i | 0 <= i < |items[1..]| ensures Fits(items[1..][i].to, n + 1 + i, peer) {
        assert Fits(items[i + 1].to, n + (i + 1), peer);
      }
    }
  }

  // An argument leaves replies unread exactly then.
  lemma UnreadAfter(w: Wire, src: Source, sync: bool, peer: Peer)
    requires w.replied == |w.asked|
    ensures After(w, src, sync, peer).replied <= |After(w, src, sync, peer).asked|
    ensures After(w, src, sync, peer).replied < |After(w, src, sync, peer).asked| <==>
            LeavesUnread(w, src, sync, peer)
  {
    if sync && src.Directory? && src.items.Some? && src.dirsMade {
      var items := src.items.value;
      RequestedLength(w.asked, items, peer);
      if items != [] && Fits(items[0].to, |w.asked|, peer) {
        RequestedLength(w.asked + [items[0].to], items[1..], peer);
      }
    }
  }

  // With no acknowledgement outstanding at any turn, replies are crossed only after an argument that left
  // some unread.
  lemma CrossedAfterUnread(srcs: seq<Source>, w: Wire, sync: bool, peer: Peer, busy: seq<bool>)
    requires |busy| <= |srcs| && true !in busy && w.replied == |w.asked|
    requires forall j :: 0 <= j < |busy| ==> !LeavesUnread(WireAt(srcs, j, w, sync, peer), srcs[j], sync, peer)
    ensures !SomeCross(srcs, w, sync, peer, busy)
  {
    forall k | 0 <= k < |busy| ensures !CrossesAt(srcs, w, sync, peer, k, busy[k]) {
      StillSettled(srcs, k, w, sync, peer);
      assert busy[k] in busy;
      SettledNoCross(WireAt(srcs, k, w, sync, peer), srcs[k], sync, peer);
    }
  }

  lemma {:induction false} StillSettled(srcs: seq<Source>, k: nat, w: Wire, sync: bool, peer: Peer)
    requires k <= |srcs| && w.replied == |w.asked|
    requires forall j :: 0 <= j < k ==> !LeavesUnread(WireAt(srcs, j, w, sync, peer), srcs[j], sync, peer)
    ensures WireAt(srcs, k, w, sync, peer).replied == |WireAt(srcs, k, w, sync, peer).asked|
  {
    if k > 0 {
      StillSettled(srcs, k - 1, w, sync, peer);
      UnreadAfter(WireAt(srcs, k - 1, w, sync, peer), srcs[k - 1], sync, peer);
    }
  }

  // Such a push: the first directory holds a path that is too long behind one that is not, so the second one
  // is checked against the reply for the first, whether or not acknowledgements are outstanding.
  lemma CrossedPush(a: Item, long: Item, b: Item, peer: Peer, busy: seq<bool>)
    requires |a.to| <= MAX_PATH && |b.to| <= MAX_PATH && |long.to| > MAX_PATH && a.to != b.to && peer.room >= 2
    requires |busy| == 2
    ensures
      var srcs := [Directory(Some([a, long]), true), Directory(Some([b]), true)];
      Reached(srcs, ExistingDir) == 2 && SomeCross(srcs, Wire([], 0), true, peer, busy)
  {
    var srcs := [Directory(Some([a, long]), true), Directory(Some([b]), true)];
    var start := Wire([], 0);
    assert srcs[1..] == [srcs[1]] && srcs[1..][1..] == [];
    assert [a, long][1..] == [long] && [a, long][0] == a && [long][0] == long && [b][0] == b;
    assert !Fits([a, long][1].to, 1, peer) && !AllFit([a, long], 0, peer);
    assert Requested([], [a, long], peer) == Requested([a.to], [long], peer) == [a.to];
    assert WireAt(srcs, 0, start, true, peer) == start;
    assert WireAt(srcs, 1, start, true, peer) == Wire([a.to], 0);
    assert ([a.to] + Paths([b]))[0] == a.to;
    assert CrossesAt(srcs, start, true, peer, 1, busy[1]);
  }

  function Paths(items: seq<Item>): seq<string> {
    seq(|items|, i requires 0 <= i < |items| => items[i].to)
  }

  lemma {:induction false} TruesAppend(a: seq<bool>, b: bool)
    ensures Trues(a + [b]) == Trues(a) + if b then 1 else 0
  {
    if a == [] {
      assert a + [b] == [b];
    } else {
      assert (a + [b])[1..] == a[1..] + [b];
      TruesAppend(a[1..], b);
    }
  }

  lemma {:induction false} ChosenAppend(items: seq<Item>, skip: seq<bool>, item: Item, b: bool)
    requires |skip| == |items|
    ensures Chosen(items + [item], skip + [b]) ==
            Chosen(items, skip) + if b then [] else [SentFile(item.from, item.to)]
  {
    if items == [] {
      assert items + [item] == [item] && skip + [b] == [b];
    } else {
      assert (items + [item])[1..] == items[1..] + [item] && (skip + [b])[1..] == skip[1..] + [b];
      ChosenAppend(items[1..], skip[1..], item, b);
    }
  }

  lemma ChosenNext(items: seq<Item>, skip: seq<bool>, i: nat)
    requires i < |items| == |skip|
    ensures Trues(skip[..i + 1]) == Trues(skip[..i]) + if skip[i] then 1 else 0
    ensures Chosen(items[..i + 1], skip[..i + 1]) ==
            Chosen(items[..i], skip[..i]) + if skip[i] then [] else [SentFile(items[i].from, items[i].to)]
  {
    assert items[..i + 1] == items[..i] + [items[i]] && skip[..i + 1] == skip[..i] + [skip[i]];
    TruesAppend(skip[..i], skip[i]);
    ChosenAppend(items[..i], skip[..i], items[i], skip[i]);
  }

  // The files of the items that are not skipped, in order.
  function Chosen(items: seq<Item>, skip: seq<bool>): seq<SentFile>
    requires |skip| == |items|
  {
    if items == [] then []
    else (if skip[0] then [] else [SentFile(items[0].from, items[0].to)]) + Chosen(items[1..], skip[1..])
  }

  // Increasing indices of items.
  ghost predicate PicksFrom(items: seq<Item>, picked: seq<nat>) {
    && (forall x :: 0 <= x < |picked| ==> picked[x] < |items|)
    && (forall x, y :: 0 <= x < y < |picked| ==> picked[x] < picked[y])
  }

  ghost function FilesAt(items: seq<Item>, picked: seq<nat>): seq<SentFile>
    requires PicksFrom(items, picked)
  {
    seq(|picked|, x requires 0 <= x < |picked| => SentFile(items[picked[x]].from, items[picked[x]].to))
  }

  // The items that are not skipped.
  lemma {:induction false} PickedItems(items: seq<Item>, skip: seq<bool>) returns (picked: seq<nat>)
    requires |skip| == |items|
    ensures Trues(skip) == |items| - |picked|
    ensures PicksFrom(items, picked) && Chosen(items, skip) == FilesAt(items, picked)
    ensures forall i :: 0 <= i < |items| ==> (i in picked <==> !skip[i])
    decreases |items|
  {
    if items == [] {
      return [];
    }
    var k := |items| - 1;
    var rest := PickedItems(items[..k], skip[..k]);
    picked := if skip[k] then rest else rest + [k];
    AllButLast(items);
    AllButLast(skip);
    TruesAppend(skip[..k], skip[k]);
    ChosenAppend(items[..k], skip[..k], items[k], skip[k]);
    LastFile(items, rest);
    LastPicked(items, skip, rest, picked);
  }

  lemma AllButLast<T>(xs: seq<T>)
    requires xs != []
    ensures xs[..|xs| - 1] + [xs[|xs| - 1]] == xs
  {
  }

  lemma LastFile(items: seq<Item>, rest: seq<nat>)
    requires items != [] && PicksFrom(items[..|items| - 1], rest)
    ensures
      var k := |items| - 1;
      && PicksFrom(items, rest) && PicksFrom(items, rest + [k])
      && FilesAt(items, rest) == FilesAt(items[..k], rest)
      && FilesAt(items, rest + [k]) == FilesAt(items[..k], rest) + [SentFile(items[k].from, items[k].to)]
  {
  }

  lemma LastPicked(items: seq<Item>, skip: seq<bool>, rest: seq<nat>, picked: seq<nat>)
    requires items != [] && |skip| == |items| && PicksFrom(items[..|items| - 1], rest)
    requires forall i :: 0 <= i < |items| - 1 ==> (i in rest <==> !skip[..|items| - 1][i])
    requires picked == if skip[|items| - 1] then rest else rest + [|items| - 1]
    ensures forall i :: 0 <= i < |items| ==> (i in picked <==> !skip[i])
  {
  }

  // They are all items but the special ones and, with a check, those whose reply has their size and time.
  ghost predicate PicksDiffering(items: seq<Item>, check: bool, peer: Peer, first: nat, picked: seq<nat>) {
    && PicksFrom(items, picked)
    && forall i :: 0 <= i < |items| ==>
         (i !in picked <==>
           items[i].special || (check && peer.replies(first + i) == Stat(items[i].size, items[i].mtime)))
  }

  lemma PickedUnchanged(items: seq<Item>, check: bool, peer: Peer, first: nat) returns (picked: seq<nat>)
    ensures
      var skip := SkipFlags(items, check, peer.replies, first);
      PicksFrom(items, picked) && Chosen(items, skip) == FilesAt(items, picked) && Trues(skip) == |items| - |picked|
    ensures forall i :: 0 <= i < |items| ==>
              (i !in picked <==>
                items[i].special || (check && peer.replies(first + i) == Stat(items[i].size, items[i].mtime)))
  {
    picked := PickedItems(items, SkipFlags(items, check, peer.replies, first));
  }

  // The same about what a copy has done: how many items were skipped, and the files sent before and after.
  lemma CopiedItems(items: seq<Item>, check: bool, listOnly: bool, peer: Peer, first: nat, skipped: nat,
                    before: seq<SentFile>, after: seq<SentFile>)
    returns (picked: seq<nat>)
    requires skipped == Trues(SkipFlags(items, check, peer.replies, first))
    requires !listOnly ==> after == before + Chosen(items, SkipFlags(items, check, peer.replies, first))
    ensures PicksDiffering(items, check, peer, first, picked) && skipped == |items| - |picked|
    ensures !listOnly ==> after == before + FilesAt(items, picked)
  {
    picked := PickedUnchanged(items, check, peer, first);
  }

  function SkipFlags(items: seq<Item>, check: bool, replies: nat -> Reply, first: nat): (skip: seq<bool>)
    ensures |skip| == |items|
  {
    if check then Skips(items, replies, first) else Specials(items)
  }

  // How many files an argument stands for.
  function Entries(src: Source): nat {
    match src
    case Plain(_) => 1
    case Directory(Some(items), _) => |items|
    case _ => 0
  }

  function AllEntries(srcs: seq<Source>): nat {
    if srcs == [] then 0 else Entries(srcs[0]) + AllEntries(srcs[1..])
  }

  // The files that a successful push of an argument sends.
  function PushedOne(src: Source, sync: bool, peer: Peer, w: Wire): seq<SentFile> {
    match src
    case Plain(item) => if sync && TimestampMatches(item, w, peer) then [] else [SentFile(item.from, item.to)]
    case Directory(Some(items), _) => Chosen(items, SkipFlags(items, sync, peer.replies, w.replied))
    case _ => []
  }

  function Pushed(srcs: seq<Source>, sync: bool, peer: Peer, w: Wire): seq<SentFile> {
    if srcs == [] then []
    else PushedOne(srcs[0], sync, peer, w) + Pushed(srcs[1..], sync, peer, After(w, srcs[0], sync, peer))
  }

  // ----- What a push sends, item by item -----

  function ItemsOf(src: Source): seq<Item> {
    match src
    case Plain(item) => [item]
    case Directory(Some(items), _) => items
    case _ => []
  }

  // Item j of an argument is left out: a special file in a directory, or one that the check finds unchanged.  w: the
  // requests and replies when the turn of the argument comes.  A single file is compared by its time alone.
  predicate LeftOut(src: Source, j: nat, sync: bool, peer: Peer, w: Wire)
    requires j < |ItemsOf(src)|
  {
    match src
    case Plain(item) =>
      && sync && |item.to| <= 1024 && |w.asked| < peer.room
      && peer.replies(w.replied).Stat? && peer.replies(w.replied).mtime == item.mtime
    case Directory(Some(items), _) =>
      items[j].special || (sync && peer.replies(w.replied + j) == Stat(items[j].size, items[j].mtime))
    case _ => true
  }

  predicate IsItem(srcs: seq<Source>, p: (nat, nat)) {
    p.0 < |srcs| && p.1 < |ItemsOf(srcs[p.0])|
  }

  predicate Earlier(p: (nat, nat), q: (nat, nat)) {
    p.0 < q.0 || (p.0 == q.0 && p.1 < q.1)
  }

  // `picked` are the items of the arguments from number i on that are not left out, in order.
  ghost predicate PicksFromTurn(srcs: seq<Source>, i: nat, sync: bool, peer: Peer, w: Wire, picked: seq<(nat, nat)>) {
    && (forall x :: 0 <= x < |picked| ==> IsItem(srcs, picked[x]) && picked[x].0 >= i)
    && (forall x, y :: 0 <= x < y < |picked| ==> Earlier(picked[x], picked[y]))
    && (forall p: (nat, nat) :: IsItem(srcs, p) && p.0 >= i ==>
          (p in picked <==> !LeftOut(srcs[p.0], p.1, sync, peer, WireAt(srcs, p.0, w, sync, peer))))
  }

  ghost predicate PicksChanged(srcs: seq<Source>, sync: bool, peer: Peer, w: Wire, picked: seq<(nat, nat)>) {
    PicksFromTurn(srcs, 0, sync, peer, w, picked)
  }

  function FileAt(srcs: seq<Source>, p: (nat, nat)): SentFile
    requires IsItem(srcs, p)
  {
    var item := ItemsOf(srcs[p.0])[p.1];
    SentFile(item.from, item.to)
  }

  ghost function FilesOf(srcs: seq<Source>, picked: seq<(nat, nat)>): seq<SentFile>
    requires forall x :: 0 <= x < |picked| ==> IsItem(srcs, picked[x])
  {
    seq(|picked|, x requires 0 <= x < |picked| => FileAt(srcs, picked[x]))
  }

  // The items of one argument that are sent.
  lemma PickedOfOne(src: Source, sync: bool, peer: Peer, w: Wire) returns (picked: seq<nat>)
    ensures PicksFrom(ItemsOf(src), picked) && PushedOne(src, sync, peer, w) == FilesAt(ItemsOf(src), picked)
    ensures forall j :: 0 <= j < |ItemsOf(src)| ==> (j in picked <==> !LeftOut(src, j, sync, peer, w))
  {
    match src
    case Plain(item) => picked := if sync && TimestampMatches(item, w, peer) then [] else [0];
    case Directory(Some(items), _) => picked := PickedUnchanged(items, sync, peer, w.replied);
    case _ => picked := [];
  }

  function Numbered(i: nat, js: seq<nat>): seq<(nat, nat)> {
    seq(|js|, x requires 0 <= x < |js| => (i, js[x]))
  }

  lemma {:induction false} PickedFrom(srcs: seq<Source>, i: nat, sync: bool, peer: Peer, w: Wire)
    returns (picked: seq<(nat, nat)>)
    requires i <= |srcs|
    ensures PicksFromTurn(srcs, i, sync, peer, w, picked)
    ensures Pushed(srcs[i..], sync, peer, WireAt(srcs, i, w, sync, peer)) == FilesOf(srcs, picked)
    decreases |srcs| - i
  {
    if i == |srcs| {
      return [];
    }
    var at := WireAt(srcs, i, w, sync, peer);
    assert srcs[i..][0] == srcs[i] && srcs[i..][1..] == srcs[i + 1..];
    var one := PickedOfOne(srcs[i], sync, peer, at);
    var rest := PickedFrom(srcs, i + 1, sync, peer, w);
    picked := Numbered(i, one) + rest;
    TurnPicked(srcs, i, sync, peer, w, one, rest);
    TurnFiles(srcs, i, one, rest);
  }

  lemma TurnFiles(srcs: seq<Source>, i: nat, one: seq<nat>, rest: seq<(nat, nat)>)
    requires i < |srcs| && PicksFrom(ItemsOf(srcs[i]), one)
    requires forall x :: 0 <= x < |rest| ==> IsItem(srcs, rest[x])
    requires forall x :: 0 <= x < |Numbered(i, one) + rest| ==> IsItem(srcs, (Numbered(i, one) + rest)[x])
    ensures FilesOf(srcs, Numbered(i, one) + rest) == FilesAt(ItemsOf(srcs[i]), one) + FilesOf(srcs, rest)
  {
  }

  lemma TurnPicked(srcs: seq<Source>, i: nat, sync: bool, peer: Peer, w: Wire, one: seq<nat>, rest: seq<(nat, nat)>)
    requires i < |srcs| && PicksFrom(ItemsOf(srcs[i]), one) && PicksFromTurn(srcs, i + 1, sync, peer, w, rest)
    requires forall j :: 0 <= j < |ItemsOf(srcs[i])| ==>
               (j in one <==> !LeftOut(srcs[i], j, sync, peer, WireAt(srcs, i, w, sync, peer)))
    ensures PicksFromTurn(srcs, i, sync, peer, w, Numbered(i, one) + rest)
  {
    var picked := Numbered(i, one) + rest;
    forall p: (nat, nat) | IsItem(srcs, p) && p.0 >= i
      ensures p in picked <==> !LeftOut(srcs[p.0], p.1, sync, peer, WireAt(srcs, p.0, w, sync, peer))
    {
      if p.0 == i {
        if p.1 in one {
          var x :| 0 <= x < |one| && one[x] == p.1;
          assert picked[x] == p;
        }
        assert p !in rest;
      } else {
        assert p !in Numbered(i, one);
      }
    }
  }

  lemma PickedFiles(srcs: seq<Source>, sync: bool, peer: Peer, w: Wire) returns (picked: seq<(nat, nat)>)
    ensures PicksChanged(srcs, sync, peer, w, picked)
    ensures Pushed(srcs, sync, peer, w) == FilesOf(srcs, picked)
  {
    picked := PickedFrom(srcs, 0, sync, peer, w);
    assert srcs[0..] == srcs;
  }

  lemma FirstPicked(srcs: seq<Source>, sync: bool, peer: Peer, w: Wire, picked: seq<(nat, nat)>)
    requires PicksChanged(srcs, sync, peer, w, picked)
    ensures picked != [] ==>
              var p := picked[0];
              IsItem(srcs, p) && !LeftOut(srcs[p.0], p.1, sync, peer, WireAt(srcs, p.0, w, sync, peer))
  {
    if picked != [] { assert IsItem(srcs, picked[0]) && picked[0] in picked; }
  }

  // If every reply is that of an unchanged file, nothing is sent; a file that is not special and whose reply differs is.
  lemma UnchangedIsNotSent(srcs: seq<Source>, peer: Peer, w: Wire, picked: seq<(nat, nat)>)
    requires PicksChanged(srcs, true, peer, w, picked)
    requires forall p: (nat, nat) :: IsItem(srcs, p) ==>
               var (item, at) := (ItemsOf(srcs[p.0])[p.1], WireAt(srcs, p.0, w, true, peer));
               |item.to| <= 1024 && |at.asked| < peer.room
               && peer.replies(at.replied + p.1) == Stat(item.size, item.mtime)
    ensures FilesOf(srcs, picked) == []
  {
    FirstPicked(srcs, true, peer, w, picked);
  }

  lemma ChangedIsSent(srcs: seq<Source>, peer: Peer, w: Wire, picked: seq<(nat, nat)>, p: (nat, nat))
    requires PicksChanged(srcs, true, peer, w, picked) && IsItem(srcs, p)
    requires
      var (item, r) := (ItemsOf(srcs[p.0])[p.1], peer.replies(WireAt(srcs, p.0, w, true, peer).replied + p.1));
      r == NoFile || r.mtime != item.mtime || (srcs[p.0].Directory? && r.size != item.size)
    requires srcs[p.0].Directory? ==> !ItemsOf(srcs[p.0])[p.1].special
    ensures FileAt(srcs, p) in FilesOf(srcs, picked)
  {
    assert p in picked;
    var x :| 0 <= x < |picked| && picked[x] == p;
    assert FilesOf(srcs, picked)[x] == FileAt(srcs, p);
  }

  function AllPaths(srcs: seq<Source>): seq<string> {
    if srcs == [] then [] else AllPaths(srcs[..|srcs| - 1]) + Paths(ItemsOf(srcs[|srcs| - 1]))
  }

  // As long as every path can be asked for, the replies of an argument follow those of the arguments before it.
  lemma {:induction false} EveryPathIsAsked(srcs: seq<Source>, k: nat, w: Wire, peer: Peer)
    requires k <= |srcs| && |w.asked| + |AllPaths(srcs[..k])| <= peer.room
    requires forall j :: 0 <= j < k && srcs[j].Directory? ==> srcs[j].dirsMade
    requires forall p: (nat, nat) :: IsItem(srcs, p) && p.0 < k ==> |ItemsOf(srcs[p.0])[p.1].to| <= 1024
    ensures WireAt(srcs, k, w, true, peer) ==
            Wire(w.asked + AllPaths(srcs[..k]), w.replied + |AllPaths(srcs[..k])|)
  {
    if k > 0 {
      var src := srcs[k - 1];
      assert srcs[..k][..k - 1] == srcs[..k - 1];
      EveryPathIsAsked(srcs, k - 1, w, peer);
      var at := WireAt(srcs, k - 1, w, true, peer);
      forall j | 0 <= j < |ItemsOf(src)| ensures |ItemsOf(src)[j].to| <= 1024 {
        assert IsItem(srcs, (k - 1, j));
      }
      AskedAll(at.asked, ItemsOf(src), peer);
      Assoc(w.asked, AllPaths(srcs[..k - 1]), Paths(ItemsOf(src)));
    }
  }

  lemma {:induction false} AskedAll(asked: seq<string>, items: seq<Item>, peer: Peer)
    requires AllFit(items, |asked|, peer)
    ensures Requested(asked, items, peer) == asked + Paths(items)
    decreases |items|
  {
    if items != [] {
      assert Fits(items[0].to, |asked| + 0, peer);
      FitsRest(items, |asked|, peer);
      AskedAll(asked + [items[0].to], items[1..], peer);
      assert Paths(items) == [items[0].to] + Paths(items[1..]);
    } else {
      assert Paths(items) == [];
    }
  }

  // What a push has done so far: files counted, stat requests and replies, files sent.
  datatype Sofar = Sofar(handled: int, wire: Wire, sent: seq<SentFile>)

  function Advanced(s: Sofar, src: Source, sync: bool, peer: Peer): Sofar {
    Sofar(s.handled + Entries(src), After(s.wire, src, sync, peer), s.sent + PushedOne(src, sync, peer, s.wire))
  }

  // The first i arguments led from s to t.
  ghost predicate Pushing(srcs: seq<Source>, i: nat, sync: bool, peer: Peer, s: Sofar, t: Sofar)
    requires i <= |srcs|
  {
    && t.handled + AllEntries(srcs[i..]) == s.handled + AllEntries(srcs)
    && t.sent + Pushed(srcs[i..], sync, peer, t.wire) == s.sent + Pushed(srcs, sync, peer, s.wire)
    && forall j :: 0 <= j < i ==> srcs[j] != Missing
  }

  lemma PushingNext(srcs: seq<Source>, i: nat, sync: bool, peer: Peer, s: Sofar, t: Sofar)
    requires i < |srcs| && Pushing(srcs, i, sync, peer, s, t) && srcs[i] != Missing
    ensures Pushing(srcs, i + 1, sync, peer, s, Advanced(t, srcs[i], sync, peer))
  {
    var more := Pushed(srcs[i + 1..], sync, peer, After(t.wire, srcs[i], sync, peer));
    assert srcs[i..][0] == srcs[i] && srcs[i..][1..] == srcs[i + 1..];
    assert Pushed(srcs[i..], sync, peer, t.wire) == PushedOne(srcs[i], sync, peer, t.wire) + more;
    Assoc(t.sent, PushedOne(srcs[i], sync, peer, t.wire), more);
  }

  lemma PushingAll(srcs: seq<Source>, sync: bool, peer: Peer, s: Sofar, t: Sofar)
    requires Pushing(srcs, |srcs|, sync, peer, s, t)
    ensures t.handled == s.handled + AllEntries(srcs)
    ensures t.sent == s.sent + Pushed(srcs, sync, peer, s.wire)
    ensures Missing !in srcs
  {
    assert srcs[|srcs|..] == [];
  }

  lemma PushingNone(srcs: seq<Source>, sync: bool, peer: Peer, s: Sofar)
    ensures Pushing(srcs, 0, sync, peer, s, s)
  {
    assert srcs[0..] == srcs;
  }

  // The OKAYs among the responses.
  function Okays(rs: seq<Response>): nat {
    if rs == [] then 0 else (if rs[0] == Okay then 1 else 0) + Okays(rs[1..])
  }

  // With all answers Okay and none outstanding, the daemon sent one OKAY for each file and no FAIL.
  lemma OneOkayEach(s: AckState)
    requires AckInv(s) && AllOkay(s.answers) && s.deferred == []
    ensures |s.sent| == Okays(Responses(s.consumed))
    ensures forall r :: r in Responses(s.consumed) ==> !r.Failed?
  {
    VerdictCount(s.answers);
    AllVerdicts(s.answers);
    SettlingOkays(Responses(s.consumed));
    FileCount(s.answers);
  }

  lemma {:induction false} FileCount(xs: seq<Answer>)
    ensures |Files(xs)| == |xs|
  {
    if xs != [] { FileCount(xs[1..]); }
  }

  lemma {:induction false} AllVerdicts(xs: seq<Answer>)
    requires AllOkay(xs)
    ensures forall r :: r in Verdicts(xs) ==> r == Okay
  {
    if xs != [] { AllVerdicts(xs[1..]); }
  }

  lemma {:induction false} SettlingOkays(rs: seq<Response>)
    requires forall r :: r in Settling(rs) ==> r == Okay
    ensures |Settling(rs)| == Okays(rs)
    ensures forall r :: r in rs ==> !r.Failed?
  {
    if rs != [] {
      var rest := Settling(rs[1..]);
      assert Settling(rs) == (if rs[0].BadOkay? then [] else [rs[0]]) + rest;
      assert forall r :: r in rest ==> r in Settling(rs);
      SettlingOkays(rs[1..]);
      if !rs[0].BadOkay? { assert rs[0] in Settling(rs); }
    }
  }

  lemma OkayAppended(s: AckState, t: AckState)
    requires AllOkay(s.answers) && Progress(s, t)
    ensures AllOkay(t.answers)
  {
    forall i | 0 <= i < |t.answers| ensures t.answers[i].r == Okay {
      if i >= |s.answers| { assert t.answers[i] == t.answers[|s.answers|..][i - |s.answers|]; }
    }
  }
}
