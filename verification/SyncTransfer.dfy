// File contents on the wire of the sync protocol: SendLargeFileLegacy, SendSmallFile and sync_recv_v1
// (porting/adb/client/file_sync_client.cpp).
module SyncTransfer {
  import opened Base
  import opened Bytes
  import SyncAcks

  const SYNC_DATA_MAX := SyncAcks.SYNC_DATA_MAX
  const ID_DATA: u32 := 0x4154_4144
  const ID_DONE: u32 := 0x454e_4f44
  const ID_SEND_V1: u32 := 0x444e_4553
  const REQUEST_SIZE := 8

  // SyncRequest and the data part of syncmsg: an id and a length, or an id and a time.
  function Header(id: u32, x: u32): (r: seq<byte>)
    ensures |r| == REQUEST_SIZE
  {
    Le32(id) + Le32(x)
  }

  function DataFrame(chunk: seq<byte>): seq<byte>
    requires |chunk| < 0x1_0000_0000
  {
    Header(ID_DATA, |chunk|) + chunk
  }

  predicate Sized(chunks: seq<seq<byte>>) {
    forall i :: 0 <= i < |chunks| ==> |chunks[i]| <= SYNC_DATA_MAX
  }

  // The frames of a file that was read in these chunks.
  function Frames(chunks: seq<seq<byte>>, mtime: u32): seq<byte>
    requires Sized(chunks)
  {
    if chunks == [] then Header(ID_DONE, mtime) else DataFrame(chunks[0]) + Frames(chunks[1..], mtime)
  }

  datatype Received = Complete(content: seq<byte>, rest: seq<byte>) | Truncated | Refused | TooLarge

  // What the receive loop of sync_recv_v1 makes of a byte stream.
  function Receive(bs: seq<byte>): Received
    decreases |bs|
  {
    if |bs| < REQUEST_SIZE then Truncated
    else
      var id, size, rest := Word(bs[..4]), Word(bs[4..8]), bs[REQUEST_SIZE..];
      if id == ID_DONE then Complete([], rest)
      else if id != ID_DATA then Refused
      else if size > SYNC_DATA_MAX then TooLarge
      else if |rest| < size then Truncated
      else
        match Receive(rest[size..])
        case Complete(content, tail) => Complete(rest[..size] + content, tail)
        case other => other
  }

  lemma HeaderWords(id: u32, x: u32, rest: seq<byte>)
    ensures
      var bs := Header(id, x) + rest;
      Word(bs[..4]) == id && Word(bs[4..8]) == x && bs[REQUEST_SIZE..] == rest
  {
    var bs := Header(id, x) + rest;
    assert bs[..4] == Le32(id) && bs[4..8] == Le32(x);
    WordOfLe32(id);
    WordOfLe32(x);
  }

  // The letters of the ids, and the order of the parts.
  lemma FrameBytes(chunk: seq<byte>, mtime: u32)
    requires |chunk| < 0x1_0000_0000
    ensures DataFrame(chunk) == [0x44, 0x41, 0x54, 0x41] + Le32(|chunk|) + chunk
    ensures Frames([], mtime) == [0x44, 0x4f, 0x4e, 0x45] + Le32(mtime)
    ensures Header(ID_SEND_V1, |chunk|) + chunk == [0x53, 0x45, 0x4e, 0x44] + Le32(|chunk|) + chunk
  {
    assert Le32(ID_DATA) == [0x44, 0x41, 0x54, 0x41] && Le32(ID_DONE) == [0x44, 0x4f, 0x4e, 0x45];
    assert Le32(ID_SEND_V1) == [0x53, 0x45, 0x4e, 0x44];
  }

  lemma ReceiveFrame(chunk: seq<byte>, rest: seq<byte>)
    requires |chunk| < 0x1_0000_0000
    ensures Receive(DataFrame(chunk) + rest) ==
      if |chunk| > SYNC_DATA_MAX then TooLarge
      else match Receive(rest)
           case Complete(content, tail) => Complete(chunk + content, tail)
           case other => other
  {
    var bs := DataFrame(chunk) + rest;
    assert bs == Header(ID_DATA, |chunk|) + (chunk + rest);
    HeaderWords(ID_DATA, |chunk|, chunk + rest);
    assert (chunk + rest)[..|chunk|] == chunk && (chunk + rest)[|chunk|..] == rest;
  }

  lemma ReceiveDone(mtime: u32, rest: seq<byte>)
    ensures Receive(Header(ID_DONE, mtime) + rest) == Complete([], rest)
  {
    HeaderWords(ID_DONE, mtime, rest);
  }

  // Whatever the chunks, the receiver gets back the content, and nothing is left over.
  lemma {:induction false} FramesRoundTrip(chunks: seq<seq<byte>>, mtime: u32, tail: seq<byte>)
    requires Sized(chunks)
    ensures Receive(Frames(chunks, mtime) + tail) == Complete(Flatten(chunks), tail)
  {
    if chunks == [] {
      ReceiveDone(mtime, tail);
    } else {
      var more := Frames(chunks[1..], mtime);
      assert Frames(chunks, mtime) + tail == DataFrame(chunks[0]) + (more + tail);
      ReceiveFrame(chunks[0], more + tail);
      FramesRoundTrip(chunks[1..], mtime, tail);
    }
  }

  lemma HeaderUnique(bs: seq<byte>)
    requires |bs| >= REQUEST_SIZE
    ensures bs == Header(Word(bs[..4]), Word(bs[4..8])) + bs[REQUEST_SIZE..]
  {
    Le32OfWord(bs[..4]);
    Le32OfWord(bs[4..8]);
  }

  lemma FramesCons(chunk: seq<byte>, chunks: seq<seq<byte>>, mtime: u32, tail: seq<byte>)
    requires |chunk| <= SYNC_DATA_MAX && Sized(chunks)
    ensures Sized([chunk] + chunks)
    ensures Header(ID_DATA, |chunk|) + (chunk + (Frames(chunks, mtime) + tail))
      == Frames([chunk] + chunks, mtime) + tail
    ensures Flatten([chunk] + chunks) == chunk + Flatten(chunks)
  {
    assert ([chunk] + chunks)[1..] == chunks;
  }

  // The chunks of an accepted stream and the time in its last frame.
  function Chunks(bs: seq<byte>): seq<seq<byte>>
    requires Receive(bs).Complete?
    decreases |bs|
  {
    var id, size, rest := Word(bs[..4]), Word(bs[4..8]), bs[REQUEST_SIZE..];
    if id == ID_DONE then [] else [rest[..size]] + Chunks(rest[size..])
  }

  function TimeOf(bs: seq<byte>): u32
    requires Receive(bs).Complete?
    decreases |bs|
  {
    var id, size, rest := Word(bs[..4]), Word(bs[4..8]), bs[REQUEST_SIZE..];
    if id == ID_DONE then size else TimeOf(rest[size..])
  }

  // The receiver finds these chunks and this time, and leaves `tail`.
  ghost predicate Finds(bs: seq<byte>, chunks: seq<seq<byte>>, mtime: u32, tail: seq<byte>) {
    Receive(bs).Complete? && Receive(bs).rest == tail && TimeOf(bs) == mtime && Chunks(bs) == chunks
  }

  lemma FindsNone(mtime: u32, tail: seq<byte>)
    ensures Finds(Header(ID_DONE, mtime) + tail, [], mtime, tail)
  {
    HeaderWords(ID_DONE, mtime, tail);
  }

  lemma FindsOneMore(chunk: seq<byte>, more: seq<byte>, chunks: seq<seq<byte>>, mtime: u32, tail: seq<byte>)
    requires |chunk| <= SYNC_DATA_MAX && Finds(more, chunks, mtime, tail)
    ensures Finds(DataFrame(chunk) + more, [chunk] + chunks, mtime, tail)
  {
    var bs := DataFrame(chunk) + more;
    ReceiveFrame(chunk, more);
    assert bs == Header(ID_DATA, |chunk|) + (chunk + more);
    HeaderWords(ID_DATA, |chunk|, chunk + more);
    assert (chunk + more)[..|chunk|] == chunk && (chunk + more)[|chunk|..] == more;
  }

  // The chunks and the time in the last frame are read back too.
  lemma {:induction false} TimeRoundTrip(chunks: seq<seq<byte>>, mtime: u32, tail: seq<byte>)
    requires Sized(chunks)
    ensures Finds(Frames(chunks, mtime) + tail, chunks, mtime, tail)
  {
    if chunks == [] {
      FindsNone(mtime, tail);
    } else {
      var more := Frames(chunks[1..], mtime);
      TimeRoundTrip(chunks[1..], mtime, tail);
      FindsOneMore(chunks[0], more + tail, chunks[1..], mtime, tail);
      Assoc(DataFrame(chunks[0]), more, tail);
      assert [chunks[0]] + chunks[1..] == chunks;
    }
  }

  // Conversely the receiver completes on nothing but the frames of some chunks of that content.
  lemma {:induction false} ReceivedWasFramed(bs: seq<byte>)
    requires Receive(bs).Complete?
    ensures Sized(Chunks(bs)) && bs == Frames(Chunks(bs), TimeOf(bs)) + Receive(bs).rest
    ensures Flatten(Chunks(bs)) == Receive(bs).content
    decreases |bs|
  {
    HeaderUnique(bs);
    var id, size, rest := Word(bs[..4]), Word(bs[4..8]), bs[REQUEST_SIZE..];
    if id != ID_DONE {
      var chunk, more := rest[..size], rest[size..];
      assert rest == chunk + more;
      ReceivedWasFramed(more);
      FramesCons(chunk, Chunks(more), TimeOf(more), Receive(more).rest);
    }
  }

  // ----- Sending -----

  // adb_read on the local file: at most `max` bytes per call, as many as `sizes` says (all of them when
  // it says nothing); None is a read error.
  class LocalFile {
    var left: seq<byte>
    var sizes: seq<Option<nat>>

    constructor (content: seq<byte>, sizes: seq<Option<nat>>)
      ensures left == content && this.sizes == sizes
    {
      this.left, this.sizes := content, sizes;
    }

    method Read(max: nat) returns (r: Option<seq<byte>>)
      requires max > 0
      modifies this
      ensures r.Some? ==> |r.value| <= max && r.value + left == old(left)
      ensures r.Some? ==> (r.value == [] <==> old(left) == [])
    {
      var n := |left|;
      if sizes != [] {
        if sizes[0].None? {
          sizes := sizes[1..];
          return None;
        }
        n := if sizes[0].value == 0 then 1 else sizes[0].value;
        sizes := sizes[1..];
      }
      n := if n > max then max else n;
      n := if n > |left| then |left| else n;
      r := Some(left[..n]);
      left := left[n..];
    }
  }

  // The loop of SendLargeFileLegacy and the closing frame.  `out` is what was written to the daemon.
  method SendLargeFileLegacy(file: LocalFile, mtime: u32)
    returns (ok: bool, out: seq<byte>, transferred: nat, ghost chunks: seq<seq<byte>>)
    modifies file
    ensures Sized(chunks) && forall i :: 0 <= i < |chunks| ==> chunks[i] != []
    ensures transferred == |Flatten(chunks)|
    ensures ok ==> out == Frames(chunks, mtime) && Flatten(chunks) == old(file.left)
    ensures ok ==> forall tail: seq<byte> :: Receive(out + tail) == Complete(old(file.left), tail)
  {
    out, transferred, chunks := [], 0, [];
    ghost var frames: seq<seq<byte>> := [];
    while true
      invariant Sized(chunks) && forall i :: 0 <= i < |chunks| ==> chunks[i] != []
      invariant Framed(chunks, frames) && out == Flatten(frames) && transferred == |Flatten(chunks)|
      invariant Flatten(chunks) + file.left == old(file.left)
      decreases |file.left|
    {
      var r := file.Read(SYNC_DATA_MAX);
      if r.None? {
        return false, out, transferred, chunks;
      }
      if r.value == [] {
        break;
      }
      FlattenOne(chunks, r.value);
      FlattenOne(frames, DataFrame(r.value));
      frames := frames + [DataFrame(r.value)];
      out := out + DataFrame(r.value);
      transferred := transferred + |r.value|;
      chunks := chunks + [r.value];
    }
    FramesAreFlat(chunks, frames, mtime);
    out := out + Header(ID_DONE, mtime);
    assert Flatten(chunks) == old(file.left);
    forall tail: seq<byte> ensures Receive(out + tail) == Complete(old(file.left), tail) {
      FramesRoundTrip(chunks, mtime, tail);
    }
    return true, out, transferred, chunks;
  }

  // frames[i] is the frame of chunks[i].
  ghost predicate Framed(chunks: seq<seq<byte>>, frames: seq<seq<byte>>) {
    Sized(chunks) && |frames| == |chunks| && forall i :: 0 <= i < |chunks| ==> frames[i] == DataFrame(chunks[i])
  }

  lemma {:induction false} FramesAreFlat(chunks: seq<seq<byte>>, frames: seq<seq<byte>>, mtime: u32)
    requires Framed(chunks, frames)
    ensures Frames(chunks, mtime) == Flatten(frames) + Header(ID_DONE, mtime)
  {
    if chunks != [] { FramesAreFlat(chunks[1..], frames[1..], mtime); }
  }

  lemma FlattenOne<T>(xss: seq<seq<T>>, xs: seq<T>)
    ensures Flatten(xss + [xs]) == Flatten(xss) + xs
  {
    FlattenAppend(xss, [xs]);
    assert Flatten([xs]) == xs + Flatten([]);
  }

  // ----- SendSmallFile -----

  // One write holds the request, the data and the closing frame.
  function SmallFile(pathAndMode: seq<byte>, data: seq<byte>, mtime: u32): seq<byte>
    requires |pathAndMode| < 0x1_0000_0000 && |data| < 0x1_0000_0000
  {
    Header(ID_SEND_V1, |pathAndMode|) + pathAndMode + DataFrame(data) + Header(ID_DONE, mtime)
  }

  // Copying a piece to position p of the buffer.
  method Put(buf: array<byte>, p: nat, piece: seq<byte>)
    requires p + |piece| <= buf.Length
    modifies buf
    ensures buf[..p + |piece|] == old(buf[..p]) + piece
  {
    assert buf[..p + 0] == old(buf[..p]) + piece[..0];
    for i := 0 to |piece|
      invariant buf[..p + i] == old(buf[..p]) + piece[..i]
    {
      buf[p + i] := piece[i];
    }
  }

  // The buffer is sized up front, filled through an advancing pointer, and full at the end.
  method SendSmallFile(pathAndMode: seq<byte>, data: seq<byte>, mtime: u32) returns (out: Option<seq<byte>>)
    requires |data| < 0x1_0000_0000
    ensures out.None? <==> |pathAndMode| > 1024
    ensures out.Some? ==> out.value == SmallFile(pathAndMode, data, mtime)
    ensures out.Some? ==> out.value == Header(ID_SEND_V1, |pathAndMode|) + pathAndMode
                                       + Header(ID_DATA, |data|) + data + Header(ID_DONE, mtime)
  {
    if |pathAndMode| > 1024 {
      return None;
    }
    var buf := new byte[REQUEST_SIZE + |pathAndMode| + REQUEST_SIZE + |data| + REQUEST_SIZE];
    var p := 0;
    Put(buf, p, Header(ID_SEND_V1, |pathAndMode|));
    p := p + REQUEST_SIZE;
    ghost var request := buf[..p];
    Put(buf, p, pathAndMode);
    p := p + |pathAndMode|;
    ghost var named := buf[..p];
    Put(buf, p, Header(ID_DATA, |data|));
    p := p + REQUEST_SIZE;
    ghost var framed := buf[..p];
    Put(buf, p, data);
    p := p + |data|;
    ghost var filled := buf[..p];
    Put(buf, p, Header(ID_DONE, mtime));
    p := p + REQUEST_SIZE;
    SmallFileParts(pathAndMode, data, mtime, request, named, framed, filled, buf[..p]);
    assert p == buf.Length;
    return Some(buf[..p]);
  }

  // The contents of the buffer after each of the five pieces.
  lemma SmallFileParts(pathAndMode: seq<byte>, data: seq<byte>, mtime: u32, request: seq<byte>, named: seq<byte>,
                       framed: seq<byte>, filled: seq<byte>, all: seq<byte>)
    requires |pathAndMode| < 0x1_0000_0000 && |data| < 0x1_0000_0000
    requires request == Header(ID_SEND_V1, |pathAndMode|) && named == request + pathAndMode
    requires framed == named + Header(ID_DATA, |data|) && filled == framed + data
    requires all == filled + Header(ID_DONE, mtime)
    ensures all == SmallFile(pathAndMode, data, mtime)
  {
    assert DataFrame(data) == Header(ID_DATA, |data|) + data;
    assert filled == named + DataFrame(data);
  }

  // A small file comes back as it is if and only if it fits one frame: a file that grew between stat and
  // read may not, and then the receiver gives up.
  lemma SmallFileRoundTrip(data: seq<byte>, mtime: u32, tail: seq<byte>)
    requires |data| < 0x1_0000_0000
    ensures
      var r := Receive(DataFrame(data) + Header(ID_DONE, mtime) + tail);
      && (r == Complete(data, tail) <==> |data| <= 65536)
      && (|data| > 65536 ==> r == TooLarge)
  {
    assert DataFrame(data) + Header(ID_DONE, mtime) + tail == DataFrame(data) + (Header(ID_DONE, mtime) + tail);
    ReceiveFrame(data, Header(ID_DONE, mtime) + tail);
    ReceiveDone(mtime, tail);
    assert data + [] == data;
  }

  // ----- Receiving -----

  class Download {
    var incoming: seq<byte>     // what the daemon has yet to deliver
    var written: seq<byte>      // the local file
    var room: nat               // bytes the local file can still take
    var transferred: nat        // RecordBytesTransferred

    constructor (incoming: seq<byte>, room: nat)
      ensures this.incoming == incoming && this.room == room && written == [] && transferred == 0
    {
      this.incoming, this.room, written, transferred := incoming, room, [], 0;
    }

    // ReadFdExactly
    method ReadExactly(n: nat) returns (r: Option<seq<byte>>)
      modifies this`incoming
      ensures r.Some? <==> n <= |old(incoming)|
      ensures r.Some? ==> r.value == old(incoming)[..n] && incoming == old(incoming)[n..]
    {
      if n > |incoming| {
        incoming := [];
        return None;
      }
      r := Some(incoming[..n]);
      incoming := incoming[n..];
    }

    // The loop of sync_recv_v1.
    method ReceiveFile() returns (ok: bool)
      requires written == [] && transferred == 0
      modifies this
      ensures ok <==> Receive(old(incoming)).Complete? && |Receive(old(incoming)).content| <= old(room)
      ensures ok ==> Receive(old(incoming)) == Complete(written, incoming) && transferred == |written|
    {
      ghost var all, space := incoming, room;
      while true
        invariant Receive(all) == Resume(written, Receive(incoming))
        invariant |written| + room == space && transferred == |written|
        decreases |incoming|
      {
        ghost var before := incoming;
        var head := ReadExactly(REQUEST_SIZE);
        if head.None? {
          return false;
        }
        HeadOf(before);
        var id, size := Word(head.value[..4]), Word(head.value[4..8]);
        if id == ID_DONE {
          break;
        }
        if id != ID_DATA {
          return false;
        }
        if size > SYNC_DATA_MAX {
          return false;
        }
        NextFrame(written, before);
        var data := ReadExactly(size);
        if data.None? || room < |data.value| {
          return false;
        }
        written, room := written + data.value, room - |data.value|;
        transferred := transferred + size;
      }
      return true;
    }
  }

  lemma HeadOf(bs: seq<byte>)
    requires |bs| >= REQUEST_SIZE
    ensures bs[..REQUEST_SIZE][..4] == bs[..4] && bs[..REQUEST_SIZE][4..8] == bs[4..8]
  {
  }

  // One turn of the receive loop on a data frame.
  lemma NextFrame(written: seq<byte>, bs: seq<byte>)
    requires |bs| >= REQUEST_SIZE && Word(bs[..4]) == ID_DATA && Word(bs[4..8]) <= SYNC_DATA_MAX
    ensures
      var size, rest := Word(bs[4..8]), bs[REQUEST_SIZE..];
      if |rest| < size then Receive(bs) == Truncated
      else Resume(written, Receive(bs)) == Resume(written + rest[..size], Receive(rest[size..]))
  {
    var size, rest := Word(bs[4..8]), bs[REQUEST_SIZE..];
    if |rest| >= size && Receive(rest[size..]).Complete? {
      var c := Receive(rest[size..]).content;
      assert written + (rest[..size] + c) == written + rest[..size] + c;
    }
  }

  // The result of a receive loop that has already written a beginning.
  function Resume(written: seq<byte>, r: Received): Received {
    match r
    case Complete(content, rest) => Complete(written + content, rest)
    case other => other
  }
}
