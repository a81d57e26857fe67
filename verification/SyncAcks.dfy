// Deferred acknowledgements of the sync protocol: SyncConnection::ReadAcknowledgements and its caller
// side (porting/adb/client/file_sync_client.cpp).
module SyncAcks {
  import opened Base
  import opened Bytes

  // Message ids are the four letters of their names, first letter in the low byte.
  const ID_OKAY: u32 := 0x5941_4b4f
  const ID_FAIL: u32 := 0x4c49_4146
  const SYNC_DATA_MAX := 0x1_0000
  const STATUS_SIZE := 8
  const MAX_DEFERRED := 128

  // A source and a destination path.
  datatype SentFile = SentFile(from: string, to: string)

  // BadOkay is an ID_OKAY with a non-zero length: the client fails without dropping a file.
  datatype Response = Okay | Failed(msg: seq<byte>) | BadOkay

  // What the bytes from the daemon begin with.  Rejected: an unknown id or a too long message, on which
  // every further call fails.
  datatype Frame = Partial | Rejected | Whole(r: Response, size: nat)

  function FirstFrame(bs: seq<byte>): Frame {
    if |bs| < STATUS_SIZE then Partial
    else
      var id, len := Word(bs[..4]), Word(bs[4..8]);
      if id == ID_OKAY then Whole(if len == 0 then Okay else BadOkay, STATUS_SIZE)
      else if id != ID_FAIL || len > SYNC_DATA_MAX then Rejected
      else if |bs| < STATUS_SIZE + len then Partial
      else Whole(Failed(bs[STATUS_SIZE..STATUS_SIZE + len]), STATUS_SIZE + len)
  }

  lemma FrameSize(bs: seq<byte>)
    requires FirstFrame(bs).Whole?
    ensures STATUS_SIZE <= FirstFrame(bs).size <= |bs|
  {
  }

  // The reference: all complete responses of a byte stream, and what is left over.
  function Responses(bs: seq<byte>): seq<Response>
    decreases |bs|
  {
    match FirstFrame(bs)
    case Whole(r, n) => FrameSize(bs); [r] + Responses(bs[n..])
    case _ => []
  }

  function Rest(bs: seq<byte>): seq<byte>
    decreases |bs|
  {
    match FirstFrame(bs)
    case Whole(r, n) => FrameSize(bs); Rest(bs[n..])
    case _ => bs
  }

  lemma {:induction false} RestIsIncomplete(bs: seq<byte>)
    ensures !FirstFrame(Rest(bs)).Whole?
    decreases |bs|
  {
    match FirstFrame(bs)
    case Whole(_, n) => RestIsIncomplete(bs[n..]);
    case _ =>
  }

  lemma FrameStable(a: seq<byte>, b: seq<byte>)
    requires !FirstFrame(a).Partial?
    ensures FirstFrame(a + b) == FirstFrame(a)
  {
    assert (a + b)[..4] == a[..4] && (a + b)[4..8] == a[4..8];
    match FirstFrame(a)
    case Whole(_, n) => assert (a + b)[STATUS_SIZE..n] == a[STATUS_SIZE..n];
    case _ =>
  }

  // Parsing can be resumed at any byte.
  lemma {:induction false} ParseResumes(a: seq<byte>, b: seq<byte>)
    ensures Responses(a + b) == Responses(a) + Responses(Rest(a) + b)
    ensures Rest(a + b) == Rest(Rest(a) + b)
    decreases |a|
  {
    match FirstFrame(a)
    case Whole(r, n) =>
      FrameStable(a, b);
      assert (a + b)[n..] == a[n..] + b;
      ParseResumes(a[n..], b);
    case _ =>
  }

  // One more piece of the stream completes at most one response.
  lemma ParseOne(a: seq<byte>, b: seq<byte>)
    ensures
      var buf := Rest(a) + b;
      match FirstFrame(buf)
      case Whole(r, n) => n == |buf| ==> Responses(a + b) == Responses(a) + [r] && Rest(a + b) == []
      case _ => Responses(a + b) == Responses(a) && Rest(a + b) == buf
  {
    ParseResumes(a, b);
    var buf := Rest(a) + b;
    if FirstFrame(buf).Whole? && FirstFrame(buf).size == |buf| {
      assert buf[|buf|..] == [];
    }
  }

  // ----- The connection: the abstract state and its invariant -----

  datatype Answer = Answer(file: SentFile, r: Response)

  datatype AckState = AckState(
    sent: seq<SentFile>,         // history: RecordFileSent
    consumed: seq<byte>,         // history: bytes read from the daemon
    answers: seq<Answer>,        // history: files taken off the front of the queue, with the response
    deferred: seq<SentFile>,     // deferred_acknowledgements_
    buf: seq<byte>)              // acknowledgement_buffer_

  function Files(xs: seq<Answer>): seq<SentFile> {
    if xs == [] then [] else [xs[0].file] + Files(xs[1..])
  }

  function Verdicts(xs: seq<Answer>): seq<Response> {
    if xs == [] then [] else [xs[0].r] + Verdicts(xs[1..])
  }

  // The responses that settle a file.
  function Settling(rs: seq<Response>): seq<Response> {
    if rs == [] then [] else (if rs[0].BadOkay? then [] else [rs[0]]) + Settling(rs[1..])
  }

  ghost predicate AckInv(s: AckState) {
    && s.buf == Rest(s.consumed)
    && Verdicts(s.answers) == Settling(Responses(s.consumed))
    && s.sent == Files(s.answers) + s.deferred
  }

  lemma {:induction false} AnswersAppend(xs: seq<Answer>, x: Answer)
    ensures Files(xs + [x]) == Files(xs) + [x.file] && Verdicts(xs + [x]) == Verdicts(xs) + [x.r]
    ensures |Files(xs)| == |xs| == |Verdicts(xs)|
  {
    if xs != [] {
      assert (xs + [x])[1..] == xs[1..] + [x];
      AnswersAppend(xs[1..], x);
    }
  }

  lemma {:induction false} VerdictCount(xs: seq<Answer>)
    ensures |Verdicts(xs)| == |xs|
  {
    if xs != [] { VerdictCount(xs[1..]); }
  }

  lemma {:induction false} SettlingAppend(a: seq<Response>, b: seq<Response>)
    ensures Settling(a + b) == Settling(a) + Settling(b)
  {
    if a == [] {
      assert a + b == b;
    } else {
      assert (a + b)[1..] == a[1..] + b;
      SettlingAppend(a[1..], b);
    }
  }

  // What happens to the state when a piece arrives that does not go beyond the next response.
  function Receive(s: AckState, piece: seq<byte>): AckState {
    s.(consumed := s.consumed + piece, buf := s.buf + piece)
  }

  // The response in the buffer settles the oldest outstanding file.
  function Settle(s: AckState, r: Response): AckState
    requires s.deferred != []
  {
    s.(buf := [], answers := s.answers + [Answer(s.deferred[0], r)], deferred := s.deferred[1..])
  }

  lemma ReceiveTwice(s: AckState, a: seq<byte>, b: seq<byte>)
    ensures Receive(Receive(s, a), b) == Receive(s, a + b)
  {
    assert s.consumed + a + b == s.consumed + (a + b) && s.buf + a + b == s.buf + (a + b);
  }

  lemma ReceivePartial(s: AckState, piece: seq<byte>)
    requires AckInv(s) && !FirstFrame(s.buf + piece).Whole?
    ensures AckInv(Receive(s, piece))
  {
    ParseOne(s.consumed, piece);
  }

  lemma ReceiveWhole(s: AckState, piece: seq<byte>, r: Response)
    requires AckInv(s) && s.deferred != [] && !r.BadOkay?
    requires FirstFrame(s.buf + piece) == Whole(r, |s.buf + piece|)
    ensures AckInv(Settle(Receive(s, piece), r))
  {
    ParseOne(s.consumed, piece);
    SettlingOne(Responses(s.consumed), r);
    SettleMoves(s.answers, s.deferred, r);
  }

  lemma SettlingOne(rs: seq<Response>, r: Response)
    ensures Settling(rs + [r]) == if r.BadOkay? then Settling(rs) else Settling(rs) + [r]
  {
    SettlingAppend(rs, [r]);
    assert Settling([r]) == if r.BadOkay? then [] else [r];
  }

  lemma SettleMoves(answers: seq<Answer>, deferred: seq<SentFile>, r: Response)
    requires deferred != []
    ensures
      var answers' := answers + [Answer(deferred[0], r)];
      && Files(answers') + deferred[1..] == Files(answers) + deferred
      && Verdicts(answers') == Verdicts(answers) + [r]
  {
    AnswersAppend(answers, Answer(deferred[0], r));
    assert deferred == [deferred[0]] + deferred[1..];
  }

  lemma ReceiveBadOkay(s: AckState, piece: seq<byte>)
    requires AckInv(s) && FirstFrame(s.buf + piece) == Whole(BadOkay, |s.buf + piece|)
    ensures AckInv(Receive(s, piece).(buf := []))
  {
    ParseOne(s.consumed, piece);
    SettlingOne(Responses(s.consumed), BadOkay);
  }

  // ----- Main results about the state -----

  // The bytes consumed and the files sent determine everything else: it does not matter how the bytes
  // were cut into pieces, where calls returned early, or when files were sent in between.
  lemma ChunkIndependent(a: AckState, b: AckState)
    requires AckInv(a) && AckInv(b) && a.sent == b.sent && a.consumed == b.consumed
    ensures a == b
  {
    SameAnswers(a.answers, b.answers, a.deferred, b.deferred);
  }

  lemma {:induction false} SameAnswers(xs: seq<Answer>, ys: seq<Answer>, ds: seq<SentFile>, es: seq<SentFile>)
    requires Verdicts(xs) == Verdicts(ys) && Files(xs) + ds == Files(ys) + es
    ensures xs == ys && ds == es
  {
    VerdictCount(xs);
    VerdictCount(ys);
    if xs == [] {
      assert Files(xs) + ds == ds && Files(ys) + es == es;
    } else {
      var f, g := Files(xs[1..]), Files(ys[1..]);
      assert (Files(xs) + ds)[0] == xs[0].file && (Files(ys) + es)[0] == ys[0].file;
      assert (Files(xs) + ds)[1..] == f + ds && (Files(ys) + es)[1..] == g + es;
      assert Verdicts(xs)[0] == xs[0].r && Verdicts(ys)[0] == ys[0].r;
      assert Verdicts(xs)[1..] == Verdicts(xs[1..]) && Verdicts(ys)[1..] == Verdicts(ys[1..]);
      SameAnswers(xs[1..], ys[1..], ds, es);
    }
  }

  // The i-th settling response belongs to the i-th file sent, and what is buffered is a proper beginning
  // of the next response.
  lemma OldestIsAnswered(s: AckState, i: nat)
    requires AckInv(s) && i < |s.answers|
    ensures |Settling(Responses(s.consumed))| == |s.answers| <= |s.sent|
    ensures s.answers[i] == Answer(s.sent[i], Settling(Responses(s.consumed))[i])
    ensures !FirstFrame(s.buf).Whole?
    ensures s.deferred == s.sent[|s.answers|..]
  {
    AnswerAt(s.answers, i);
    RestIsIncomplete(s.consumed);
  }

  lemma {:induction false} AnswerAt(xs: seq<Answer>, i: nat)
    requires i < |xs|
    ensures |Files(xs)| == |xs| == |Verdicts(xs)|
    ensures xs[i] == Answer(Files(xs)[i], Verdicts(xs)[i])
  {
    if i > 0 {
      AnswerAt(xs[1..], i - 1);
    } else if |xs| > 1 {
      AnswerAt(xs[1..], 0);
    }
  }

  // ----- The object -----

  datatype ReadStatus = Success | Failure | TryLater

  // What one turn of the loop of ReadAcknowledgements comes to.
  datatype Turn = Later | Broken | Unexpected | Got(r: Response)

  ghost predicate AllOkay(xs: seq<Answer>) {
    forall i :: 0 <= i < |xs| ==> xs[i].r == Okay
  }

  // t follows from s by reading some bytes and settling files with Okay, one for each response read.
  ghost predicate Progress(s: AckState, t: AckState) {
    && s.sent == t.sent && s.answers <= t.answers
    && |Responses(t.consumed)| == |Responses(s.consumed)| + (|t.answers| - |s.answers|)
    && AllOkay(t.answers[|s.answers|..])
  }

  // What any calls do: files are sent, bytes are read, files are answered; nothing of it is undone.
  ghost predicate Extends(s: AckState, t: AckState) {
    s.sent <= t.sent && s.consumed <= t.consumed && s.answers <= t.answers
  }

  // Why a call may fail: a read failed during the call, an unknown or too long response, an ID_FAIL for the
  // oldest file, or an ID_OKAY with a length.
  ghost predicate Fault(s: AckState, t: AckState, readFailed: bool) {
    var before, after := Responses(s.consumed), Responses(t.consumed);
    || readFailed
    || FirstFrame(t.buf).Rejected?
    || (|t.answers| > |s.answers| && t.answers[|t.answers| - 1].r.Failed?)
    || (|after| > |before| && after[|after| - 1].BadOkay?)
  }

  lemma StepLater(s0: AckState, s: AckState, piece: seq<byte>)
    requires AckInv(s) && Progress(s0, s) && !FirstFrame(s.buf + piece).Whole?
    ensures Progress(s0, Receive(s, piece)) && AckInv(Receive(s, piece))
  {
    ParseOne(s.consumed, piece);
    ReceivePartial(s, piece);
  }

  lemma StepOkay(s0: AckState, s: AckState, piece: seq<byte>)
    requires AckInv(s) && Progress(s0, s) && s.deferred != []
    requires FirstFrame(s.buf + piece) == Whole(Okay, |s.buf + piece|)
    ensures AckInv(Settle(Receive(s, piece), Okay)) && Progress(s0, Settle(Receive(s, piece), Okay))
  {
    ParseOne(s.consumed, piece);
    ReceiveWhole(s, piece, Okay);
    var k, x := |s0.answers|, Answer(s.deferred[0], Okay);
    assert (s.answers + [x])[k..] == s.answers[k..] + [x];
  }

  lemma StepFailed(s0: AckState, s: AckState, piece: seq<byte>, r: Response, readFailed: bool)
    requires AckInv(s) && Progress(s0, s) && s.deferred != [] && r.Failed?
    requires FirstFrame(s.buf + piece) == Whole(r, |s.buf + piece|)
    ensures AckInv(Settle(Receive(s, piece), r)) && Fault(s0, Settle(Receive(s, piece), r), readFailed)
  {
    ReceiveWhole(s, piece, r);
  }

  lemma StepBadOkay(s0: AckState, s: AckState, piece: seq<byte>, readFailed: bool)
    requires AckInv(s) && Progress(s0, s)
    requires FirstFrame(s.buf + piece) == Whole(BadOkay, |s.buf + piece|)
    ensures AckInv(Receive(s, piece).(buf := [])) && Fault(s0, Receive(s, piece).(buf := []), readFailed)
  {
    ParseOne(s.consumed, piece);
    ReceiveBadOkay(s, piece);
  }

  // With eight bytes in the buffer the header decides.
  ghost predicate HeaderRead(buf: seq<byte>)
    requires |buf| >= STATUS_SIZE
  {
    var id, len := Word(buf[..4]), Word(buf[4..8]);
    && (id == ID_OKAY ==> FirstFrame(buf) == Whole(if len == 0 then Okay else BadOkay, |buf|))
    && (id != ID_OKAY && (id != ID_FAIL || len > SYNC_DATA_MAX) ==> FirstFrame(buf).Rejected?)
    && (id == ID_FAIL && len <= SYNC_DATA_MAX ==> |buf| <= STATUS_SIZE + len)
  }

  lemma HeaderDecides(before: seq<byte>, buf: seq<byte>)
    requires !FirstFrame(before).Whole? && before <= buf && |buf| >= STATUS_SIZE
    requires |buf| == STATUS_SIZE || buf == before
    ensures HeaderRead(buf)
  {
  }

  // With the message in the buffer too the response is complete.
  lemma MessageDecides(head: seq<byte>, buf: seq<byte>)
    requires |head| >= STATUS_SIZE && head <= buf && Word(head[..4]) == ID_FAIL
    requires Word(head[4..8]) <= SYNC_DATA_MAX
    ensures
      var size := STATUS_SIZE + Word(head[4..8]);
      && (|buf| < size ==> FirstFrame(buf).Partial?)
      && (|buf| == size ==> FirstFrame(buf) == Whole(Failed(buf[STATUS_SIZE..size]), size))
  {
    assert buf[..4] == head[..4] && buf[4..8] == head[4..8];
  }

  class SyncConnection {
    var deferred: seq<SentFile>
    var buf: seq<byte>
    var incoming: seq<byte>       // what the daemon has yet to deliver
    var turns: seq<nat>           // how many bytes each poll or read finds; 0 at a read is an I/O error
    ghost var past: AckState
    ghost var failures: nat       // history: how many reads have failed

    ghost function View(): AckState
      reads this
    {
      past.(deferred := deferred, buf := buf)
    }

    ghost predicate Valid()
      reads this
    {
      AckInv(View()) && (deferred == [] ==> buf == [])
    }

    // Everything the daemon ever sends.
    ghost function Stream(): seq<byte>
      reads this
    {
      past.consumed + incoming
    }

    constructor (incoming: seq<byte>, turns: seq<nat>)
      ensures Valid() && deferred == [] && this.incoming == incoming && View().sent == [] && View().answers == []
      ensures View().consumed == [] && failures == 0
    {
      this.incoming, this.turns, deferred, buf := incoming, turns, [], [];
      past := AckState([], [], [], [], []);
      failures := 0;
    }

    method NextTurn() returns (k: nat)
      modifies this`turns
    {
      if turns == [] {
        return SYNC_DATA_MAX;
      }
      k := turns[0];
      turns := turns[1..];
    }

    // adb_poll with a zero timeout.
    method Poll() returns (ready: bool)
      modifies this`turns
    {
      var k := NextTurn();
      ready := k > 0;
    }

    // adb_read: some bytes of at most `want`; none at the end of the stream or after an error.
    method Read(want: nat) returns (got: seq<byte>)
      requires want > 0
      modifies this`turns, this`incoming, this`past, this`failures
      ensures |got| <= want && Stream() == old(Stream())
      ensures past == old(past).(consumed := old(past).consumed + got)
      ensures failures == old(failures) + if got == [] then 1 else 0
    {
      var k := NextTurn();
      var n := if k < want then k else want;
      n := if n < |incoming| then n else |incoming|;
      got := incoming[..n];
      assert incoming == got + incoming[n..];
      Assoc(past.consumed, got, incoming[n..]);
      incoming := incoming[n..];
      past := past.(consumed := past.consumed + got);
      failures := failures + if got == [] then 1 else 0;
    }

    // The lambda of ReadAcknowledgements: fill the buffer up to `amount`.
    method ReadUntil(amount: nat, shouldBlock: bool) returns (status: ReadStatus, ghost piece: seq<byte>)
      modifies this`turns, this`incoming, this`past, this`failures, this`buf
      ensures View() == Receive(old(View()), piece) && Stream() == old(Stream())
      ensures status == Success ==> |buf| == if |old(buf)| < amount then amount else |old(buf)|
      ensures status != Success ==> |buf| < amount
      ensures status == TryLater ==> !shouldBlock
      ensures failures == old(failures) + if status == Failure then 1 else 0
    {
      piece := [];
      while |buf| < amount
        invariant |old(buf)| <= |buf| && (|buf| <= amount || buf == old(buf))
        invariant View() == Receive(old(View()), piece) && Stream() == old(Stream())
        invariant failures == old(failures)
        decreases amount - |buf|
      {
        if !shouldBlock {
          var ready := Poll();
          if !ready {
            return TryLater, piece;
          }
        }
        var got := Read(amount - |buf|);
        if got == [] {
          return Failure, piece;
        }
        buf := buf + got;
        piece := piece + got;
        if !shouldBlock && |buf| < amount {
          return TryLater, piece;
        }
      }
      return Success, piece;
    }

    // RecordFileSent, as far as the acknowledgements are concerned.
    method RecordFileSent(f: SentFile)
      requires Valid()
      modifies this`deferred, this`past
      ensures Valid()
      ensures View() == old(View()).(sent := old(View()).sent + [f], deferred := old(deferred) + [f])
    {
      deferred := deferred + [f];
      past := past.(sent := past.sent + [f]);
    }

    // The second half of a turn: the message of an ID_FAIL.
    method ReadMessage(len: u32, shouldBlock: bool) returns (t: Turn, ghost piece: seq<byte>)
      requires STATUS_SIZE <= |buf| <= STATUS_SIZE + len && len <= SYNC_DATA_MAX
      requires Word(buf[..4]) == ID_FAIL && Word(buf[4..8]) == len
      modifies this`turns, this`incoming, this`past, this`failures, this`buf
      ensures View() == Receive(old(View()), piece) && Stream() == old(Stream())
      ensures t.Later? ==> !shouldBlock
      ensures failures == old(failures) + if t.Broken? then 1 else 0
      ensures !t.Unexpected?
      ensures !t.Got? ==> FirstFrame(buf).Partial?
      ensures t.Got? ==> t.r.Failed? && FirstFrame(buf) == Whole(t.r, |buf|)
    {
      ghost var head := buf;
      var status;
      status, piece := ReadUntil(STATUS_SIZE + len, shouldBlock);
      MessageDecides(head, buf);
      match status
      case TryLater => return Later, piece;
      case Failure => return Broken, piece;
      case Success => return Got(Failed(buf[STATUS_SIZE..STATUS_SIZE + len])), piece;
    }

    // The first half: the header of the response.
    method ReadHeader(shouldBlock: bool) returns (status: ReadStatus, ghost piece: seq<byte>)
      requires !FirstFrame(buf).Whole?
      modifies this`turns, this`incoming, this`past, this`failures, this`buf
      ensures View() == Receive(old(View()), piece) && Stream() == old(Stream())
      ensures status == TryLater ==> !shouldBlock
      ensures failures == old(failures) + if status == Failure then 1 else 0
      ensures status != Success ==> FirstFrame(buf).Partial?
      ensures status == Success ==> |buf| >= STATUS_SIZE && HeaderRead(buf)
    {
      ghost var before := buf;
      status, piece := ReadUntil(STATUS_SIZE, shouldBlock);
      if status == Success {
        HeaderDecides(before, buf);
      }
    }

    // One turn of the loop: read the next response, as far as it is there.
    method ReadResponse(shouldBlock: bool) returns (t: Turn, ghost piece: seq<byte>)
      requires !FirstFrame(buf).Whole?
      modifies this`turns, this`incoming, this`past, this`failures, this`buf
      ensures View() == Receive(old(View()), piece) && Stream() == old(Stream())
      ensures t.Later? ==> !shouldBlock && FirstFrame(buf).Partial?
      ensures failures == old(failures) + if t.Broken? then 1 else 0
      ensures t.Unexpected? ==> FirstFrame(buf).Rejected?
      ensures !t.Got? ==> !FirstFrame(buf).Whole?
      ensures t.Got? ==> FirstFrame(buf) == Whole(t.r, |buf|)
    {
      var status;
      status, piece := ReadHeader(shouldBlock);
      if status != Success {
        return if status.TryLater? then Later else Broken, piece;
      }
      var id, len := Word(buf[..4]), Word(buf[4..8]);
      if id == ID_OKAY {
        return Got(if len == 0 then Okay else BadOkay), piece;
      } else if id != ID_FAIL || len > SYNC_DATA_MAX {
        return Unexpected, piece;
      }
      ghost var first := piece;
      ghost var more;
      t, more := ReadMessage(len, shouldBlock);
      piece := first + more;
      ReceiveTwice(old(View()), first, more);
    }

    // CopyDone and the end of ReportDeferredCopyFailure: the oldest file is settled.
    method CopyDone(r: Response)
      requires deferred != []
      modifies this`past, this`buf, this`deferred
      ensures View() == Settle(old(View()), r) && Stream() == old(Stream())
    {
      past := past.(answers := past.answers + [Answer(deferred[0], r)]);
      deferred, buf := deferred[1..], [];
    }

    // The body of the loop: `first` is the state at the start of the call.
    method TakeTurn(shouldBlock: bool, ghost first: AckState) returns (t: Turn)
      requires Valid() && deferred != [] && Progress(first, View())
      modifies this`turns, this`incoming, this`past, this`failures, this`buf, this`deferred
      ensures Valid() && Stream() == old(Stream())
      ensures t.Later? ==> !shouldBlock && deferred == old(deferred) && FirstFrame(buf).Partial?
      ensures t.Later? || t == Got(Okay) ==> Progress(first, View())
      ensures t == Got(Okay) ==> |deferred| < |old(deferred)|
      ensures |deferred| <= |old(deferred)| && old(View().consumed) <= View().consumed
      ensures failures == old(failures) + if t.Broken? then 1 else 0
      ensures !t.Later? && t != Got(Okay) ==> Fault(first, View(), t.Broken?)
      ensures View().sent == first.sent && first.answers <= View().answers
    {
      ghost var s := View();
      RestIsIncomplete(s.consumed);
      ghost var piece;
      t, piece := ReadResponse(shouldBlock);
      if !t.Got? {
        StepLater(first, s, piece);
      } else if t.r.BadOkay? {
        StepBadOkay(first, s, piece, false);
        buf := [];
      } else if t.r.Failed? {
        StepFailed(first, s, piece, t.r, false);
        CopyDone(t.r);
      } else {
        StepOkay(first, s, piece);
        CopyDone(t.r);
      }
    }

    // ReadAcknowledgements
    method ReadAcknowledgements(readAll: bool) returns (ok: bool)
      requires Valid()
      modifies this`turns, this`incoming, this`past, this`failures, this`buf, this`deferred
      ensures Valid() && Stream() == old(Stream())
      ensures ok ==> Progress(old(View()), View()) && |deferred| < 128 && (readAll ==> deferred == [])
      ensures ok && old(deferred) != [] ==> FirstFrame(buf).Partial?
      ensures !ok ==> Fault(old(View()), View(), failures == old(failures) + 1)
      ensures ok ==> failures == old(failures)
      ensures View().sent == old(View()).sent && old(View()).answers <= View().answers
      ensures |deferred| <= |old(deferred)| && Extends(old(View()), View())
    {
      ghost var first := View();
      while deferred != []
        invariant |deferred| <= |old(deferred)| && failures == old(failures)
        invariant first.consumed <= View().consumed
        invariant Valid() && Progress(first, View()) && Stream() == old(Stream())
        invariant deferred == [] ==> old(deferred) == [] || buf == []
        decreases |deferred|
      {
        var shouldBlock := readAll || |deferred| >= MAX_DEFERRED;
        var t := TakeTurn(shouldBlock, first);
        if t != Got(Okay) {
          return t.Later?;
        }
      }
      return true;
    }
  }
}
