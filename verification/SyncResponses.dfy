// The responses of the sync protocol as the daemon writes them, independently of how they are read: OKAY
// and a zero, or FAIL, the length of a message and the message.
module SyncResponses {
  import opened Base
  import opened Bytes
  import opened SyncAcks

  const OKAY_LETTERS: seq<byte> := [0x4f, 0x4b, 0x41, 0x59]
  const FAIL_LETTERS: seq<byte> := [0x46, 0x41, 0x49, 0x4c]
  const LONGEST_MESSAGE := 65536

  // bs are the bytes of r.
  ghost predicate Spells(r: Response, bs: seq<byte>) {
    match r
    case Okay => bs == OKAY_LETTERS + [0, 0, 0, 0]
    case BadOkay => exists len: u32 :: len != 0 && bs == OKAY_LETTERS + Le32(len)
    case Failed(msg) => |msg| <= LONGEST_MESSAGE && bs == FAIL_LETTERS + Le32(|msg|) + msg
  }

  lemma Letters()
    ensures Le32(ID_OKAY) == OKAY_LETTERS && Le32(ID_FAIL) == FAIL_LETTERS && Le32(0) == [0, 0, 0, 0]
  {
  }

  lemma HeaderOf(id: u32, len: u32, msg: seq<byte>)
    ensures
      var bs := Le32(id) + Le32(len) + msg;
      Word(bs[..4]) == id && Word(bs[4..8]) == len && bs[8..] == msg
  {
    var bs := Le32(id) + Le32(len) + msg;
    assert bs[..4] == Le32(id) && bs[4..8] == Le32(len);
    WordOfLe32(id);
    WordOfLe32(len);
  }

  lemma SpelledIsRead(r: Response, bs: seq<byte>)
    requires Spells(r, bs)
    ensures FirstFrame(bs) == Whole(r, |bs|)
  {
    Letters();
    match r
    case Okay =>
      HeaderOf(ID_OKAY, 0, []);
      assert bs == Le32(ID_OKAY) + Le32(0) + [];
    case BadOkay =>
      var len: u32 :| len != 0 && bs == OKAY_LETTERS + Le32(len);
      HeaderOf(ID_OKAY, len, []);
      assert bs == Le32(ID_OKAY) + Le32(len) + [];
    case Failed(msg) =>
      HeaderOf(ID_FAIL, |msg|, msg);
  }

  lemma ReadWasSpelled(bs: seq<byte>)
    requires FirstFrame(bs).Whole?
    ensures FirstFrame(bs).size <= |bs| && Spells(FirstFrame(bs).r, bs[..FirstFrame(bs).size])
  {
    FrameSize(bs);
    Letters();
    var n := FirstFrame(bs).size;
    Le32OfWord(bs[..4]);
    Le32OfWord(bs[4..8]);
    assert bs[..8] == bs[..4] + bs[4..8];
    assert bs[..n] == bs[..4] + bs[4..8] + bs[8..n];
    if FirstFrame(bs).r.BadOkay? {
      var len := Word(bs[4..8]);
      assert len != 0 && bs[..n] == OKAY_LETTERS + Le32(len);
    }
  }

  // The first response of a stream is r, in n bytes, exactly when those bytes spell it.
  lemma FirstFrameMeans(bs: seq<byte>, r: Response, n: nat)
    requires n <= |bs|
    ensures FirstFrame(bs) == Whole(r, n) <==> Spells(r, bs[..n])
  {
    if FirstFrame(bs) == Whole(r, n) {
      ReadWasSpelled(bs);
    }
    if Spells(r, bs[..n]) {
      SpelledIsRead(r, bs[..n]);
      FrameStable(bs[..n], bs[n..]);
      assert bs == bs[..n] + bs[n..];
    }
  }

  // A stream is given up exactly when its header is there and no bytes that may follow make it begin with a
  // response.
  lemma RejectedMeans(bs: seq<byte>)
    ensures FirstFrame(bs).Rejected? <==> |bs| >= 8 && forall more, r, n: nat ::
              n <= |bs + more| ==> !Spells(r, (bs + more)[..n])
  {
    if FirstFrame(bs).Rejected? {
      forall more, r, n: nat | n <= |bs + more| ensures !Spells(r, (bs + more)[..n]) {
        FrameStable(bs, more);
        FirstFrameMeans(bs + more, r, n);
      }
    } else if FirstFrame(bs).Whole? {
      ReadWasSpelled(bs);
      var n := FirstFrame(bs).size;
      assert bs + [] == bs;
      assert Spells(FirstFrame(bs).r, (bs + [])[..n]);
    } else if |bs| >= 8 {
      PartialGoesOn(bs);
    }
  }

  lemma PartialGoesOn(bs: seq<byte>)
    requires FirstFrame(bs).Partial? && |bs| >= 8
    ensures exists more, r, n: nat :: n <= |bs + more| && Spells(r, (bs + more)[..n])
  {
    var len := Word(bs[4..8]);
    var more: seq<byte> := seq(8 + len - |bs|, _ => 0);
    var all := bs + more;
    assert all[..4] == bs[..4] && all[4..8] == bs[4..8];
    assert FirstFrame(all).Whole? && FirstFrame(all).size == |all|;
    ReadWasSpelled(all);
    assert Spells(FirstFrame(all).r, (bs + more)[..|all|]);
  }

  // ----- Whole streams -----

  // pieces[i] spells rs[i].
  ghost predicate AllSpelled(rs: seq<Response>, pieces: seq<seq<byte>>) {
    |rs| == |pieces| && forall i :: 0 <= i < |rs| ==> Spells(rs[i], pieces[i])
  }

  // Reading undoes writing: whatever responses the daemon writes, in whatever order, they are read back, and
  // what follows is left.
  lemma {:induction false} ResponsesRoundTrip(rs: seq<Response>, pieces: seq<seq<byte>>, rest: seq<byte>)
    requires AllSpelled(rs, pieces) && !FirstFrame(rest).Whole?
    ensures Responses(Flatten(pieces) + rest) == rs && Rest(Flatten(pieces) + rest) == rest
  {
    if rs == [] {
      assert Flatten(pieces) + rest == rest;
    } else {
      var (p, more) := (pieces[0], Flatten(pieces[1..]) + rest);
      assert Flatten(pieces) + rest == p + more;
      SpelledIsRead(rs[0], p);
      FrameStable(p, more);
      assert (p + more)[|p|..] == more;
      ResponsesRoundTrip(rs[1..], pieces[1..], rest);
    }
  }

  // Conversely every stream is what the daemon writes for the responses read from it, and what is left over.
  lemma {:induction false} ResponsesWereSpelled(bs: seq<byte>) returns (pieces: seq<seq<byte>>)
    ensures AllSpelled(Responses(bs), pieces) && bs == Flatten(pieces) + Rest(bs)
    decreases |bs|
  {
    match FirstFrame(bs)
    case Whole(r, n) =>
      ReadWasSpelled(bs);
      var more := ResponsesWereSpelled(bs[n..]);
      pieces := [bs[..n]] + more;
      OneMore(bs, n, r, Responses(bs[n..]), more, Rest(bs[n..]));
    case _ =>
      pieces := [];
      assert bs == [] + bs;
  }

  lemma OneMore(bs: seq<byte>, n: nat, r: Response, rs: seq<Response>, pieces: seq<seq<byte>>, rest: seq<byte>)
    requires n <= |bs| && Spells(r, bs[..n]) && AllSpelled(rs, pieces) && bs[n..] == Flatten(pieces) + rest
    ensures AllSpelled([r] + rs, [bs[..n]] + pieces) && bs == Flatten([bs[..n]] + pieces) + rest
  {
    assert ([bs[..n]] + pieces)[1..] == pieces;
    Assoc(bs[..n], Flatten(pieces), rest);
    assert bs == bs[..n] + bs[n..];
  }

  // So the answers of a connection are determined by what the daemon wrote: if it wrote the responses rs and
  // the beginning of another, the oldest files are settled by rs in order and that beginning is buffered.
  // (An OKAY that carries a length settles no file.)
  lemma AnswersAreTheDaemons(s: AckState, rs: seq<Response>, pieces: seq<seq<byte>>, rest: seq<byte>)
    requires AckInv(s) && AllSpelled(rs, pieces) && !FirstFrame(rest).Whole?
    requires s.consumed == Flatten(pieces) + rest
    requires forall i :: 0 <= i < |rs| ==> !rs[i].BadOkay?
    ensures s.buf == rest && |s.answers| == |rs| <= |s.sent|
    ensures forall i :: 0 <= i < |rs| ==> s.answers[i] == Answer(s.sent[i], rs[i])
    ensures s.deferred == s.sent[|rs|..]
  {
    ResponsesRoundTrip(rs, pieces, rest);
    SettlingAll(rs);
    VerdictCount(s.answers);
    if s.answers == [] {
      assert s.sent == s.deferred;
    } else {
      OldestIsAnswered(s, 0);
    }
    forall i | 0 <= i < |rs| ensures s.answers[i] == Answer(s.sent[i], rs[i]) { OldestIsAnswered(s, i); }
  }

  lemma {:induction false} SettlingAll(rs: seq<Response>)
    requires forall i :: 0 <= i < |rs| ==> !rs[i].BadOkay?
    ensures Settling(rs) == rs
  {
    if rs != [] { SettlingAll(rs[1..]); }
  }
}
