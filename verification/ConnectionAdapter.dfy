// BlockingConnectionAdapter (porting/adb/transport.cpp) as a state machine: the write thread, the read
// threads, a TLS handshake and any number of callers of Write, Reset and Stop, interleaved at every
// acquisition of mutex_, every blocking call and every use of the once-flag.  P is the type of packets.
module ConnectionAdapter {
  import opened Base

  // The write thread: not spawned; in cv_.wait; holding a packet outside the lock; out of the loop and
  // about to report; ended.
  datatype Writer<P> = Unspawned | Waiting | Holding(p: P) | WriteFailed | WriterEnded

  // A read thread: in Read; out of the loop and about to report; ended.
  datatype Reader = Reading | ReadFailed | ReaderEnded

  // A caller of Reset or Stop.
  datatype Caller =
    | AtReset                                     // before the check of Reset
    | AtStop                                      // before the check of Stop
    | Refused                                     // not started, or already stopped
    | Closing                                     // it has set stopped_
    | JoinReader(reader: Option<nat>, writer: bool)  // it has moved the thread objects out
    | JoinWriter(writer: bool)
    | Reporting
    | Finished

  // The packets: the queue, the write thread, and what they have done so far.
  datatype Io<P> = Io(
    writer: Writer<P>,
    queue: seq<P>,
    enqueued: seq<P>,            // history: given to Write
    dequeued: seq<P>,            // history: taken by the write thread
    handed: seq<P>,              // history: given to underlying_->Write
    cut: bool)                   // history: underlying_->Write has failed on the last of them

  datatype State<P> = State(
    io: Io<P>,
    started: bool,
    stopped: bool,
    readers: seq<Reader>,        // every read thread ever spawned
    readSlot: Option<nat>,       // the thread that read_thread_ owns
    writeSlot: bool,             // does write_thread_ own the write thread?
    handshaking: bool,           // DoTlsHandshake holds mutex_
    callers: seq<Caller>,
    reported: bool,              // error_flag_
    errors: nat,                 // calls of HandleError
    fault: bool,                 // join() on a thread object that owns no thread
    late: bool)                  // history: a handshake ended after the thread objects were moved out

  function Init<P>(): State<P> {
    State(Io(Unspawned, [], [], [], [], false), false, false, [], None, false, false, [], false, 0, false, false)
  }

  datatype Step<P> =
    | Start
    | Write(p: P)
    | WriterTake
    | WriterWrote(ok: bool)   // underlying_->Write returned
    | WriterReport
    | ReaderFails(j: nat)
    | ReaderSeesStls(j: nat)
    | ReaderReport(j: nat)
    | BeginHandshake
    | EndHandshake
    | CallReset
    | CallStop
    | CallerStep(i: nat)

  // std::call_once(error_flag_, HandleError)
  function CallOnce<P>(s: State<P>): State<P> {
    if s.reported then s else s.(reported := true, errors := s.errors + 1)
  }

  function DoStart<P>(s: State<P>): State<P> {
    if s.started || s.handshaking then s
    else s.(started := true, io := s.io.(writer := Waiting), writeSlot := true,
            readSlot := Some(|s.readers|), readers := s.readers + [Reading])
  }

  function DoWrite<P>(s: State<P>, p: P): State<P> {
    if s.handshaking then s
    else s.(io := s.io.(queue := s.io.queue + [p], enqueued := s.io.enqueued + [p]))
  }

  function DoWriterTake<P>(s: State<P>): State<P> {
    if s.handshaking || s.io.writer != Waiting then s
    else if s.stopped then s.(io := s.io.(writer := WriterEnded))
    else if s.io.queue == [] then s
    else
      var p := s.io.queue[0];
      s.(io := s.io.(writer := Holding(p), queue := s.io.queue[1..], dequeued := s.io.dequeued + [p]))
  }

  function DoWriterWrote<P>(s: State<P>, ok: bool): State<P> {
    if !s.io.writer.Holding? then s
    else s.(io := s.io.(handed := s.io.handed + [s.io.writer.p], cut := !ok,
                        writer := if ok then Waiting else WriteFailed))
  }

  function DoWriterReport<P>(s: State<P>): State<P> {
    if s.io.writer != WriteFailed then s else CallOnce(s.(io := s.io.(writer := WriterEnded)))
  }

  function DoReader<P>(s: State<P>, j: nat, from: Reader, to: Reader): State<P> {
    if j < |s.readers| && s.readers[j] == from then s.(readers := s.readers[j := to]) else s
  }

  function DoReaderReport<P>(s: State<P>, j: nat): State<P> {
    if j < |s.readers| && s.readers[j] == ReadFailed then CallOnce(s.(readers := s.readers[j := ReaderEnded]))
    else s
  }

  // DoTlsHandshake takes mutex_ and keeps it until the new read thread is spawned.
  function DoBeginHandshake<P>(s: State<P>): State<P> {
    if s.handshaking || !s.started then s else s.(handshaking := true)
  }

  function DoEndHandshake<P>(s: State<P>): State<P> {
    if !s.handshaking || !Ended(s, s.readSlot) then s
    else s.(handshaking := false, readSlot := Some(|s.readers|), readers := s.readers + [Reading],
            late := s.late || s.readSlot.None?)
  }

  // Can a join of this thread object return?
  predicate Ended<P>(s: State<P>, reader: Option<nat>) {
    reader.Some? && reader.value < |s.readers| ==> s.readers[reader.value] == ReaderEnded
  }

  // Where a caller of Reset or Stop goes next; it stays where a lock or a join holds it up.
  function NextStage<P>(s: State<P>, c: Caller): Caller {
    match c
    case AtReset => if s.handshaking then c else if !s.started || s.stopped then Refused else AtStop
    case AtStop => if s.handshaking then c else if !s.started || s.stopped then Refused else Closing
    case Closing => if s.handshaking then c else JoinReader(s.readSlot, s.writeSlot)
    case JoinReader(reader, writer) => if reader.Some? && Ended(s, reader) then JoinWriter(writer) else c
    case JoinWriter(writer) => if writer && s.io.writer == WriterEnded then Reporting else c
    case Reporting => Finished
    case Refused => c
    case Finished => c
  }

  // What that step does to the adapter: set stopped_, move the thread objects out, join an object that
  // owns no thread, report.
  function Effect<P>(s: State<P>, c: Caller): State<P> {
    if c.AtStop? && !s.handshaking && s.started then s.(stopped := true)
    else if c.Closing? && !s.handshaking then s.(readSlot := None, writeSlot := false)
    else if (c.JoinReader? && c.reader.None?) || (c.JoinWriter? && !c.writer) then s.(fault := true)
    else if c.Reporting? then CallOnce(s)
    else s
  }

  function DoCaller<P>(s: State<P>, i: nat): State<P> {
    if i >= |s.callers| then s
    else Effect(s, s.callers[i]).(callers := s.callers[i := NextStage(s, s.callers[i])])
  }

  function Next<P>(s: State<P>, step: Step<P>): State<P> {
    match step
    case Start => DoStart(s)
    case Write(p) => DoWrite(s, p)
    case WriterTake => DoWriterTake(s)
    case WriterWrote(ok) => DoWriterWrote(s, ok)
    case WriterReport => DoWriterReport(s)
    case ReaderFails(j) => DoReader(s, j, Reading, ReadFailed)
    case ReaderSeesStls(j) => DoReader(s, j, Reading, ReaderEnded)
    case ReaderReport(j) => DoReaderReport(s, j)
    case BeginHandshake => DoBeginHandshake(s)
    case EndHandshake => DoEndHandshake(s)
    case CallReset => s.(callers := s.callers + [AtReset])
    case CallStop => s.(callers := s.callers + [AtStop])
    case CallerStep(i) => DoCaller(s, i)
  }

  function Continue<P>(s: State<P>, steps: seq<Step<P>>): State<P>
    decreases |steps|
  {
    if steps == [] then s else Continue(Next(s, steps[0]), steps[1..])
  }

  // ----- The queue, the write thread and the wire -----

  function InFlight<P>(s: Io<P>): seq<P> {
    if s.writer.Holding? then [s.writer.p] else []
  }

  ghost predicate Fifo<P>(s: Io<P>) {
    && s.enqueued == s.dequeued + s.queue
    && s.dequeued == s.handed + InFlight(s)
  }

  // A failed write is the last one.
  ghost predicate Cut<P>(s: Io<P>) {
    && (s.writer == Waiting || s.writer.Holding? ==> !s.cut)
    && (s.writer == Unspawned ==> s.handed == [] && !s.cut)
    && (s.cut ==> s.handed != [])
  }

  // ----- The threads and the callers -----

  // Has this caller passed the check of Stop?
  predicate Stopping(c: Caller) {
    c.Closing? || c.JoinReader? || c.JoinWriter? || c.Reporting? || c.Finished?
  }

  // What the one stopping caller knows at each of its stages.
  ghost predicate StageOk<P>(s: State<P>, c: Caller) {
    && (c.Closing? ==> s.readSlot.Some? && s.writeSlot && !s.late)
    && (!c.Closing? ==> (s.readSlot.Some? <==> s.late))
    && (c.Closing? ==> forall j :: 0 <= j < |s.readers| ==>
          s.readers[j] == ReaderEnded || Some(j) == s.readSlot)
    && (c.JoinReader? ==> c.reader.Some? && c.reader.value < |s.readers| && c.writer)
    && (c.JoinReader? ==> forall j :: 0 <= j < |s.readers| ==>
          s.readers[j] == ReaderEnded || Some(j) == c.reader || Some(j) == s.readSlot)
    && (c.JoinWriter? ==> c.writer)
    && (c.JoinWriter? || c.Reporting? || c.Finished? ==> forall j :: 0 <= j < |s.readers| ==>
          s.readers[j] == ReaderEnded || Some(j) == s.readSlot)
    && (c.Reporting? || c.Finished? ==> s.io.writer == WriterEnded)
    && (c.Finished? ==> s.reported)
  }

  ghost predicate Callers<P>(s: State<P>) {
    && (forall i :: 0 <= i < |s.callers| && Stopping(s.callers[i]) ==> s.stopped && StageOk(s, s.callers[i]))
    && (forall i, k :: 0 <= i < k < |s.callers| ==> !(Stopping(s.callers[i]) && Stopping(s.callers[k])))
    && (s.stopped ==> exists i :: 0 <= i < |s.callers| && Stopping(s.callers[i]))
  }

  ghost predicate Threads<P>(s: State<P>) {
    && (s.io.writer == Unspawned <==> !s.started)
    && (!s.started ==> !s.stopped && !s.handshaking)
    && (s.readSlot.Some? ==> s.readSlot.value < |s.readers|)
    && (s.started && !s.stopped ==> s.readSlot.Some? && s.writeSlot)
    && (!s.stopped ==> !s.late)
    && (s.started && !s.stopped ==> forall j :: 0 <= j < |s.readers| ==>
          s.readers[j] == ReaderEnded || Some(j) == s.readSlot)
    && (!s.started ==> s.readers == [])
    && s.errors == (if s.reported then 1 else 0)
    && !s.fault
  }

  ghost predicate Inv<P>(s: State<P>) {
    Core(s) && Callers(s)
  }

  // ----- Every step keeps the invariant -----

  ghost predicate Core<P>(s: State<P>) {
    Fifo(s.io) && Cut(s.io) && Threads(s)
  }

  // A change that the stopping caller c, if there is one, does not notice.
  ghost predicate Step1<P>(s: State<P>, r: State<P>) {
    && Core(r)
    && r.callers == s.callers && r.stopped == s.stopped
    && forall c :: Stopping(c) && s.stopped && StageOk(s, c) ==> StageOk(r, c)
  }

  lemma StartKept<P>(s: State<P>)
    requires Core(s)
    ensures Step1(s, DoStart(s))
  {
  }

  lemma WriteKept<P>(s: State<P>, p: P)
    requires Core(s)
    ensures Step1(s, DoWrite(s, p))
  {
  }

  lemma WriterTakeKept<P>(s: State<P>)
    requires Core(s)
    ensures Step1(s, DoWriterTake(s))
  {
    var q := s.io.queue;
    if q != [] { assert q == [q[0]] + q[1..]; }
  }

  lemma WriterWroteKept<P>(s: State<P>, ok: bool)
    requires Core(s)
    ensures Step1(s, DoWriterWrote(s, ok))
  {
  }

  lemma WriterReportKept<P>(s: State<P>)
    requires Core(s)
    ensures Step1(s, DoWriterReport(s))
  {
  }

  lemma ReaderKept<P>(s: State<P>, j: nat, to: Reader)
    requires Core(s)
    ensures Step1(s, DoReader(s, j, Reading, to))
  {
  }

  lemma ReaderReportKept<P>(s: State<P>, j: nat)
    requires Core(s)
    ensures Step1(s, DoReaderReport(s, j))
  {
  }

  lemma BeginHandshakeKept<P>(s: State<P>)
    requires Core(s)
    ensures Step1(s, DoBeginHandshake(s))
  {
  }

  lemma EndHandshakeKept<P>(s: State<P>)
    requires Core(s)
    ensures Step1(s, DoEndHandshake(s))
  {
  }

  // Steps that change no caller.
  predicate IsCallerStep<P>(step: Step<P>) { step.CallerStep? || step.CallReset? || step.CallStop? }

  lemma ThreadStepKept<P>(s: State<P>, step: Step<P>)
    requires Core(s) && !IsCallerStep(step)
    ensures Step1(s, Next(s, step))
  {
    match step
    case Start => StartKept(s);
    case Write(p) => WriteKept(s, p);
    case WriterTake => WriterTakeKept(s);
    case WriterWrote(ok) => WriterWroteKept(s, ok);
    case WriterReport => WriterReportKept(s);
    case ReaderFails(j) => ReaderKept(s, j, ReadFailed);
    case ReaderSeesStls(j) => ReaderKept(s, j, ReaderEnded);
    case ReaderReport(j) => ReaderReportKept(s, j);
    case BeginHandshake => BeginHandshakeKept(s);
    case EndHandshake => EndHandshakeKept(s);
  }

  lemma CallersUnnoticed<P>(s: State<P>, r: State<P>)
    requires Inv(s) && Step1(s, r)
    ensures Inv(r)
  {
  }

  lemma NewCallerKept<P>(s: State<P>, c: Caller)
    requires Callers(s) && !Stopping(c)
    ensures Callers(s.(callers := s.callers + [c]))
  {
    var r := s.(callers := s.callers + [c]);
    forall i | 0 <= i < |r.callers| && Stopping(r.callers[i]) ensures r.stopped && StageOk(r, r.callers[i]) {
      assert r.callers[i] == s.callers[i] && StageOk(s, s.callers[i]);
    }
    if s.stopped {
      var i :| 0 <= i < |s.callers| && Stopping(s.callers[i]);
      assert Stopping(r.callers[i]);
    }
  }

  // A caller that is not past the check of Stop after its step.
  lemma RefusedKept<P>(s: State<P>, i: nat)
    requires Inv(s) && i < |s.callers| && !Stopping(s.callers[i]) && !Stopping(DoCaller(s, i).callers[i])
    ensures Callers(DoCaller(s, i))
  {
    var r := DoCaller(s, i);
    forall k | 0 <= k < |r.callers| && Stopping(r.callers[k]) ensures r.stopped && StageOk(r, r.callers[k]) {
      assert StageOk(s, s.callers[k]);
    }
    if s.stopped {
      var k :| 0 <= k < |s.callers| && Stopping(s.callers[k]);
      assert Stopping(r.callers[k]);
    }
  }

  // The caller that sets stopped_.
  lemma StopperKept<P>(s: State<P>, i: nat)
    requires Inv(s) && i < |s.callers| && s.callers[i] == AtStop && DoCaller(s, i).callers[i] == Closing
    ensures Callers(DoCaller(s, i))
  {
    var r := DoCaller(s, i);
    assert !s.stopped;
    assert Stopping(r.callers[i]) && StageOk(r, r.callers[i]);
  }

  // The stopping caller advances: it is the only one.
  lemma StageAdvances<P>(s: State<P>, i: nat)
    requires Inv(s) && i < |s.callers| && Stopping(s.callers[i])
    ensures StageOk(DoCaller(s, i), DoCaller(s, i).callers[i]) && Stopping(DoCaller(s, i).callers[i])
    ensures !DoCaller(s, i).fault
  {
    assert StageOk(s, s.callers[i]);
  }

  lemma StopperAdvances<P>(s: State<P>, i: nat)
    requires Inv(s) && i < |s.callers| && Stopping(s.callers[i])
    ensures Callers(DoCaller(s, i))
  {
    var r := DoCaller(s, i);
    StageAdvances(s, i);
    forall k | 0 <= k < |r.callers| && k != i ensures !Stopping(r.callers[k]) {
      assert r.callers[k] == s.callers[k];
    }
  }

  // What a caller of Reset or Stop leaves alone.
  lemma CallerFrame<P>(s: State<P>, c: Caller)
    ensures
      var r := Effect(s, c);
      && r.io == s.io && r.started == s.started && r.handshaking == s.handshaking && r.readers == s.readers
      && (s.stopped ==> r.stopped)
  {
    if c.Reporting? {
      assert Effect(s, c) == CallOnce(s);
    } else if c.AtStop? {
    } else if c.Closing? {
    } else {
    }
  }

  lemma CallerCoreKept<P>(s: State<P>, i: nat)
    requires Inv(s)
    ensures Core(DoCaller(s, i))
  {
    if i < |s.callers| {
      CallerFrame(s, s.callers[i]);
      if Stopping(s.callers[i]) { StageAdvances(s, i); }
    }
  }

  lemma CallersKept<P>(s: State<P>, i: nat)
    requires Inv(s)
    ensures Callers(DoCaller(s, i))
  {
    if i < |s.callers| {
      if Stopping(s.callers[i]) {
        StopperAdvances(s, i);
      } else if DoCaller(s, i).callers[i] == Closing {
        StopperKept(s, i);
      } else {
        RefusedKept(s, i);
      }
    }
  }

  lemma CallerStepKept<P>(s: State<P>, step: Step<P>)
    requires Inv(s) && IsCallerStep(step)
    ensures Inv(Next(s, step))
  {
    match step
    case CallReset => NewCallerKept(s, AtReset);
    case CallStop => NewCallerKept(s, AtStop);
    case CallerStep(i) =>
      CallerCoreKept(s, i);
      CallersKept(s, i);
  }

  lemma NextKeeps<P>(s: State<P>, step: Step<P>)
    requires Inv(s)
    ensures Inv(Next(s, step))
  {
    if IsCallerStep(step) {
      CallerStepKept(s, step);
    } else {
      ThreadStepKept(s, step);
      CallersUnnoticed(s, Next(s, step));
    }
  }

  lemma {:induction false} ContinueKeeps<P>(s: State<P>, steps: seq<Step<P>>)
    requires Inv(s)
    ensures Inv(Continue(s, steps))
    decreases |steps|
  {
    if steps != [] {
      NextKeeps(s, steps[0]);
      ContinueKeeps(Next(s, steps[0]), steps[1..]);
    }
  }

  // ----- Main results -----

  // Packets leave the queue in the order in which they entered it; at most one has left it without
  // having been handed to the connection; nothing follows a packet whose write failed.
  lemma PacketsStayInOrder<P>(steps: seq<Step<P>>)
    ensures
      var s := Continue(Init(), steps).io;
      && s.enqueued == s.dequeued + s.queue
      && s.handed <= s.dequeued && |s.dequeued| <= |s.handed| + 1
      && (s.cut ==> s.handed == s.dequeued != [] && !s.writer.Waiting? && !s.writer.Holding?)
  {
    ContinueKeeps(Init(), steps);
  }

  // Once stopped_ is set nothing more is taken from the queue, whatever happens.
  lemma {:induction false} NothingIsTakenAfterStop<P>(s: State<P>, steps: seq<Step<P>>)
    requires s.stopped
    ensures Continue(s, steps).stopped && Continue(s, steps).io.dequeued == s.io.dequeued
    decreases |steps|
  {
    if steps != [] {
      StoppedStep(s, steps[0]);
      NothingIsTakenAfterStop(Next(s, steps[0]), steps[1..]);
    }
  }

  lemma StoppedStep<P>(s: State<P>, step: Step<P>)
    requires s.stopped
    ensures Next(s, step).stopped && Next(s, step).io.dequeued == s.io.dequeued
  {
    match step
    case CallerStep(i) => if i < |s.callers| { CallerFrame(s, s.callers[i]); }
    case WriterTake => assert Next(s, step) == DoWriterTake(s);
    case WriterWrote(ok) => assert Next(s, step) == DoWriterWrote(s, ok);
    case Start => assert Next(s, step) == DoStart(s);
    case Write(p) => assert Next(s, step) == DoWrite(s, p);
    case _ =>
  }

  // The error is reported at most once, and it has been reported when the stopping Stop returns; only
  // one call of Stop or Reset ever passes the check, and it joins two threads that exist.
  lemma ErrorIsReportedOnce<P>(steps: seq<Step<P>>, i: nat, k: nat)
    requires i < |Continue(Init(), steps).callers| && k < |Continue(Init(), steps).callers|
    ensures
      var s := Continue(Init(), steps);
      && s.errors <= 1 && !s.fault
      && (s.callers[i] == Finished ==> s.errors == 1)
      && (Stopping(s.callers[i]) && Stopping(s.callers[k]) ==> i == k)
  {
    ContinueKeeps(Init(), steps);
    var s := Continue(Init(), steps);
    assert Stopping(s.callers[i]) ==> StageOk(s, s.callers[i]);
  }

  // A write that fails is the last one.  Whatever happens afterwards, the write thread takes no other packet,
  // and once it has ended the error has been reported.
  lemma {:induction false} WriteFailureIsReported<P>(s: State<P>, steps: seq<Step<P>>)
    requires Inv(s) && s.io.writer.Holding?
    ensures
      var r := Continue(Next(s, WriterWrote(false)), steps);
      && r.io.handed == s.io.handed + [s.io.writer.p] && r.io.dequeued == s.io.dequeued
      && (r.io.writer == WriteFailed || (r.io.writer == WriterEnded && r.errors == 1))
  {
    NextKeeps(s, WriterWrote(false));
    FailedStays(Next(s, WriterWrote(false)), steps);
  }

  ghost predicate WriterGone<P>(s: State<P>) {
    s.io.writer == WriteFailed || (s.io.writer == WriterEnded && s.errors == 1)
  }

  lemma {:induction false} FailedStays<P>(s: State<P>, steps: seq<Step<P>>)
    requires Inv(s) && WriterGone(s)
    ensures
      var r := Continue(s, steps);
      WriterGone(r) && r.io.handed == s.io.handed && r.io.dequeued == s.io.dequeued
    decreases |steps|
  {
    if steps != [] {
      NextKeeps(s, steps[0]);
      FailedStep(s, steps[0]);
      FailedStays(Next(s, steps[0]), steps[1..]);
    }
  }

  lemma FailedStep<P>(s: State<P>, step: Step<P>)
    requires Inv(s) && WriterGone(s)
    ensures
      var n := Next(s, step);
      WriterGone(n) && n.io.handed == s.io.handed && n.io.dequeued == s.io.dequeued
  {
    ReportedOnce(s, step);
    match step
    case CallerStep(i) => if i < |s.callers| { CallerFrame(s, s.callers[i]); }
    case _ =>
  }

  lemma ReportedOnce<P>(s: State<P>, step: Step<P>)
    requires Inv(s)
    ensures s.errors == 1 ==> Next(s, step).errors == 1
  {
    if step.CallerStep? && step.i < |s.callers| { CallerFrame(s, s.callers[step.i]); }
  }

  // A packet that was written does not end the write thread: it goes back to waiting.
  lemma WrittenPacket<P>(s: State<P>)
    requires Inv(s) && s.io.writer.Holding?
    ensures
      var n := Next(s, WriterWrote(true));
      && n.io.handed == s.io.handed + [s.io.writer.p] == n.io.dequeued && n.io.writer == Waiting
      && n.errors == s.errors && n.io.queue == s.io.queue
  {
  }

  // A read that fails is reported too, before its thread ends; a thread that ends for a TLS handshake
  // reports nothing.
  lemma {:induction false} ReadFailureIsReported<P>(s: State<P>, j: nat, steps: seq<Step<P>>)
    requires Inv(s) && j < |s.readers| && s.readers[j] == Reading
    ensures
      var r := Continue(Next(s, ReaderFails(j)), steps);
      && j < |r.readers|
      && (r.readers[j] == ReadFailed || (r.readers[j] == ReaderEnded && r.errors == 1))
    ensures
      var t := Next(s, ReaderSeesStls(j));
      t.readers == s.readers[j := ReaderEnded] && t.errors == s.errors
  {
    NextKeeps(s, ReaderFails(j));
    ReaderGoneStays(Next(s, ReaderFails(j)), j, steps);
  }

  ghost predicate ReaderGone<P>(s: State<P>, j: nat) {
    j < |s.readers| && (s.readers[j] == ReadFailed || (s.readers[j] == ReaderEnded && s.errors == 1))
  }

  lemma {:induction false} ReaderGoneStays<P>(s: State<P>, j: nat, steps: seq<Step<P>>)
    requires Inv(s) && ReaderGone(s, j)
    ensures ReaderGone(Continue(s, steps), j)
    decreases |steps|
  {
    if steps != [] {
      NextKeeps(s, steps[0]);
      ReaderGoneStep(s, j, steps[0]);
      ReaderGoneStays(Next(s, steps[0]), j, steps[1..]);
    }
  }

  lemma ReaderGoneStep<P>(s: State<P>, j: nat, step: Step<P>)
    requires Inv(s) && ReaderGone(s, j)
    ensures ReaderGone(Next(s, step), j)
  {
    ReportedOnce(s, step);
    match step
    case CallerStep(i) => if i < |s.callers| { CallerFrame(s, s.callers[i]); }
    case _ =>
  }

  // Once the read thread has ended a handshake can end: one more read thread runs, read_thread_ owns it,
  // and unless stopped_ is set it is the only one.
  lemma HandshakeRestartsReading<P>(s: State<P>)
    requires Inv(s) && s.handshaking
    requires s.readSlot.Some? ==> s.readers[s.readSlot.value] == ReaderEnded
    ensures
      var n := Next(s, EndHandshake);
      && !n.handshaking && n.readers == s.readers + [Reading] && n.readSlot == Some(|s.readers|)
      && (!s.stopped ==> forall j :: 0 <= j < |s.readers| ==> n.readers[j] == ReaderEnded)
      && n.errors == s.errors && n.io == s.io && n.callers == s.callers
  {
  }

  // Stop is never stuck: unless a handshake holds the lock, its own steps and those of the two threads that
  // it joins lead from every reachable state to its end.
  lemma {:induction false} StopCanFinish<P>(s: State<P>, i: nat) returns (steps: seq<Step<P>>)
    requires Inv(s) && !s.handshaking && i < |s.callers| && Stopping(s.callers[i])
    ensures i < |Continue(s, steps).callers| && Continue(s, steps).callers[i] == Finished
    decreases ToFinish(s, i)
  {
    if s.callers[i] == Finished {
      return [];
    }
    var step := Ahead(s, i);
    NextKeeps(s, step);
    ComesCloser(s, i);
    var rest := StopCanFinish(Next(s, step), i);
    steps := [step] + rest;
    assert steps[0] == step && steps[1..] == rest;
  }

  // The thread that has to move next.
  ghost function Ahead<P>(s: State<P>, i: nat): Step<P>
    requires i < |s.callers|
  {
    match s.callers[i]
    case JoinReader(Some(j), _) =>
      if j >= |s.readers| || s.readers[j] == ReaderEnded then CallerStep(i)
      else if s.readers[j] == Reading then ReaderFails(j)
      else ReaderReport(j)
    case JoinWriter(_) =>
      (match s.io.writer
       case Holding(_) => WriterWrote(true)
       case WriteFailed => WriterReport
       case WriterEnded => CallerStep(i)
       case _ => WriterTake)
    case _ => CallerStep(i)
  }

  ghost function ToFinish<P>(s: State<P>, i: nat): nat
    requires i < |s.callers|
  {
    match s.callers[i]
    case Closing => 8
    case JoinReader(Some(j), _) =>
      if j >= |s.readers| || s.readers[j] == ReaderEnded then 5 else if s.readers[j] == Reading then 7 else 6
    case JoinReader(None, _) => 0
    case JoinWriter(_) => 2 + (match s.io.writer case Holding(_) => 2 case WriterEnded => 0 case _ => 1)
    case Reporting => 1
    case _ => 0
  }

  lemma ComesCloser<P>(s: State<P>, i: nat)
    requires Inv(s) && !s.handshaking && i < |s.callers| && Stopping(s.callers[i]) && s.callers[i] != Finished
    ensures
      var n := Next(s, Ahead(s, i));
      && !n.handshaking && i < |n.callers| && Stopping(n.callers[i])
      && ToFinish(n, i) < ToFinish(s, i)
  {
    assert s.stopped && StageOk(s, s.callers[i]);
    if s.callers[i].JoinReader? {
      var j := s.callers[i].reader.value;
      if s.readers[j] == Reading {
      } else if s.readers[j] == ReadFailed {
      } else {
      }
    }
  }

  // When the stopping Stop has returned the write thread has ended, nothing is handed over and no error
  // is reported any more, and every read thread has ended except possibly the one that a TLS handshake
  // spawned after Stop had moved the thread objects out.
  ghost predicate Quiet<P>(s: State<P>) {
    && s.stopped && s.reported && s.io.writer == WriterEnded
    && (forall i :: 0 <= i < |s.callers| && Stopping(s.callers[i]) ==> s.callers[i] == Finished)
    && forall j :: 0 <= j < |s.readers| ==> s.readers[j] == ReaderEnded || Some(j) == s.readSlot
  }

  lemma StopLeavesQuiet<P>(steps: seq<Step<P>>, i: nat)
    requires i < |Continue(Init(), steps).callers| && Continue(Init(), steps).callers[i] == Finished
    ensures Quiet(Continue(Init(), steps))
  {
    ContinueKeeps(Init(), steps);
    FinishedIsQuiet(Continue(Init(), steps), i);
  }

  lemma FinishedIsQuiet<P>(s: State<P>, i: nat)
    requires Inv(s) && i < |s.callers| && s.callers[i] == Finished
    ensures Quiet(s)
  {
    assert Stopping(s.callers[i]) && StageOk(s, s.callers[i]);
    assert forall k :: 0 <= k < |s.callers| && Stopping(s.callers[k]) ==> k == i;
  }

  lemma {:induction false} QuietIsForever<P>(s: State<P>, steps: seq<Step<P>>)
    requires Quiet(s) && Inv(s)
    ensures
      var r := Continue(s, steps);
      Quiet(r) && r.io.handed == s.io.handed && r.errors == s.errors
    decreases |steps|
  {
    if steps != [] {
      var n := Next(s, steps[0]);
      NextKeeps(s, steps[0]);
      QuietStep(s, steps[0]);
      QuietIsForever(n, steps[1..]);
    }
  }

  lemma QuietStep<P>(s: State<P>, step: Step<P>)
    requires Quiet(s) && Inv(s)
    ensures
      var r := Next(s, step);
      Quiet(r) && r.io.handed == s.io.handed && r.errors == s.errors
  {
    match step
    case CallerStep(i) => if i < |s.callers| { CallerFrame(s, s.callers[i]); }
    case WriterTake => assert Next(s, step) == DoWriterTake(s);
    case WriterWrote(ok) => assert Next(s, step) == DoWriterWrote(s, ok);
    case Write(p) => assert Next(s, step) == DoWrite(s, p);
    case EndHandshake => assert Next(s, step) == DoEndHandshake(s);
    case _ =>
  }

  // Has a caller of Stop moved the thread objects out?
  ghost predicate Moved<P>(s: State<P>) {
    exists i :: 0 <= i < |s.callers| && HasMoved(s.callers[i])
  }

  predicate HasMoved(c: Caller) {
    c.JoinReader? || c.JoinWriter? || c.Reporting? || c.Finished?
  }

  // Does this step end a handshake after that?
  ghost predicate LateEnd<P>(s: State<P>, step: Step<P>) {
    step.EndHandshake? && s.handshaking && Ended(s, s.readSlot) && Moved(s)
  }

  // A handshake ends after Stop has moved the thread objects out.
  ghost predicate HandshakeAfterMove<P>(s: State<P>, steps: seq<Step<P>>) {
    exists k :: 0 <= k < |steps| && LateEnd(Continue(s, steps[..k]), steps[k])
  }

  // No handshake begins after stopped_ was set.
  ghost predicate NoHandshakeAfterStop<P>(s: State<P>, steps: seq<Step<P>>) {
    forall k :: 0 <= k < |steps| && steps[k].BeginHandshake? ==> !Continue(s, steps[..k]).stopped
  }

  lemma LateStep<P>(s: State<P>, step: Step<P>)
    requires Inv(s)
    ensures Next(s, step).late <==> s.late || LateEnd(s, step)
  {
    if step.EndHandshake? && s.handshaking && Ended(s, s.readSlot) {
      if s.readSlot.None? {
        var i :| 0 <= i < |s.callers| && Stopping(s.callers[i]);
        assert HasMoved(s.callers[i]);
      } else if Moved(s) {
        var i :| 0 <= i < |s.callers| && HasMoved(s.callers[i]);
        assert Stopping(s.callers[i]);
      }
    } else if step.CallerStep? && step.i < |s.callers| {
      CallerFrame(s, s.callers[step.i]);
    }
  }

  lemma Prefixes<P>(s: State<P>, steps: seq<Step<P>>, k: nat)
    requires 0 < k <= |steps|
    ensures Continue(s, steps[..k]) == Continue(Next(s, steps[0]), steps[1..][..k - 1])
  {
    assert steps[..k][0] == steps[0] && steps[..k][1..] == steps[1..][..k - 1];
  }

  // The history bit of the model says just that.
  lemma {:induction false} LateMeans<P>(s: State<P>, steps: seq<Step<P>>)
    requires Inv(s)
    ensures Continue(s, steps).late <==> s.late || HandshakeAfterMove(s, steps)
    decreases |steps|
  {
    if steps != [] {
      var (n, rest) := (Next(s, steps[0]), steps[1..]);
      LateStep(s, steps[0]);
      NextKeeps(s, steps[0]);
      LateMeans(n, rest);
      assert Continue(s, steps[..0]) == s;
      if HandshakeAfterMove(n, rest) {
        var k :| 0 <= k < |rest| && LateEnd(Continue(n, rest[..k]), rest[k]);
        Prefixes(s, steps, k + 1);
        assert LateEnd(Continue(s, steps[..k + 1]), steps[k + 1]);
      }
      if HandshakeAfterMove(s, steps) {
        var k :| 0 <= k < |steps| && LateEnd(Continue(s, steps[..k]), steps[k]);
        if k > 0 {
          Prefixes(s, steps, k);
          assert LateEnd(Continue(n, rest[..k - 1]), rest[k - 1]);
        }
      }
    }
  }

  // When the stopping Stop returns, read_thread_ owns a thread that nobody joins if and only if a handshake
  // ended after Stop had moved the thread objects out.  Otherwise every read thread has ended.
  lemma StopJoinsEveryThread<P>(steps: seq<Step<P>>, i: nat)
    requires i < |Continue(Init(), steps).callers| && Continue(Init(), steps).callers[i] == Finished
    ensures
      var s := Continue(Init(), steps);
      && (s.readSlot.Some? <==> HandshakeAfterMove(Init(), steps))
      && (!HandshakeAfterMove(Init(), steps) ==> forall j :: 0 <= j < |s.readers| ==> s.readers[j] == ReaderEnded)
  {
    ContinueKeeps(Init(), steps);
    LateMeans(Init(), steps);
    var s := Continue(Init(), steps);
    assert Stopping(s.callers[i]) && StageOk(s, s.callers[i]);
  }

  // That does not happen if no handshake begins once stopped_ is set.
  lemma {:induction false} EarlyHandshakesAreJoined<P>(s: State<P>, steps: seq<Step<P>>)
    requires Inv(s) && !s.late && !(s.handshaking && s.stopped) && NoHandshakeAfterStop(s, steps)
    ensures !HandshakeAfterMove(s, steps) && !Continue(s, steps).late
    decreases |steps|
  {
    LateMeans(s, steps);
    if steps != [] {
      var (n, rest) := (Next(s, steps[0]), steps[1..]);
      assert Continue(s, steps[..0]) == s;
      NextKeeps(s, steps[0]);
      EarlyStep(s, steps[0]);
      forall k | 0 <= k < |rest| && rest[k].BeginHandshake? ensures !Continue(n, rest[..k]).stopped {
        Prefixes(s, steps, k + 1);
        assert steps[k + 1] == rest[k];
      }
      EarlyHandshakesAreJoined(n, rest);
    }
  }

  lemma EarlyStep<P>(s: State<P>, step: Step<P>)
    requires Inv(s) && !s.late && !(s.handshaking && s.stopped) && (step.BeginHandshake? ==> !s.stopped)
    ensures !Next(s, step).late && !(Next(s, step).handshaking && Next(s, step).stopped)
  {
    if step.CallerStep? && step.i < |s.callers| { CallerFrame(s, s.callers[step.i]); }
  }

  // Such a handshake does happen: it begins and ends while Stop waits for the thread objects that it has
  // moved out, and Stop returns with the thread that it started still reading.
  const TO_MOVED: seq<Step<int>> := [Start, CallStop, CallerStep(0), ReaderSeesStls(0), CallerStep(0)]
  const TO_RESTARTED: seq<Step<int>> := [BeginHandshake, EndHandshake, WriterTake]
  const TO_FINISHED: seq<Step<int>> := [CallerStep(0), CallerStep(0), CallerStep(0)]
  const LATE_RUN: seq<Step<int>> := TO_MOVED + TO_RESTARTED + TO_FINISHED

  const MOVED: State<int> := State(
    Io(Waiting, [], [], [], [], false), true, true, [ReaderEnded], None, false, false,
    [JoinReader(Some(0), true)], false, 0, false, false)

  const RESTARTED: State<int> :=
    MOVED.(io := MOVED.io.(writer := WriterEnded), readers := [ReaderEnded, Reading], readSlot := Some(1), late := true)

  lemma {:induction false} ContinueConcat<P>(s: State<P>, a: seq<Step<P>>, b: seq<Step<P>>)
    ensures Continue(s, a + b) == Continue(Continue(s, a), b)
    decreases |a|
  {
    if a == [] {
      assert a + b == b;
    } else {
      assert (a + b)[0] == a[0] && (a + b)[1..] == a[1..] + b;
      ContinueConcat(Next(s, a[0]), a[1..], b);
    }
  }

  lemma ReachMoved()
    ensures Continue(Init<int>(), TO_MOVED) == MOVED
  {
  }

  lemma ReachRestarted()
    ensures Continue(MOVED, TO_RESTARTED) == RESTARTED
  {
  }

  lemma ReachFinished()
    ensures
      var s := Continue(RESTARTED, TO_FINISHED);
      s.callers == [Finished] && s.readers == [ReaderEnded, Reading] && s.readSlot == Some(1)
  {
  }

  lemma LateHandshakeOutlivesStop()
    ensures
      var s := Continue(Init(), LATE_RUN);
      s.callers == [Finished] && s.readers == [ReaderEnded, Reading] && s.readSlot == Some(1)
    ensures HandshakeAfterMove(Init(), LATE_RUN)
  {
    ReachMoved();
    ReachRestarted();
    ReachFinished();
    ContinueConcat(Init(), TO_MOVED, TO_RESTARTED);
    ContinueConcat(Init(), TO_MOVED + TO_RESTARTED, TO_FINISHED);
    StopJoinsEveryThread(LATE_RUN, 0);
  }

  lemma TakeStep<P>(s: State<P>)
    requires !s.handshaking && s.io.writer == Waiting && (s.stopped || s.io.queue != [])
    ensures Next(s, WriterTake) ==
            if s.stopped then s.(io := s.io.(writer := WriterEnded))
            else s.(io := s.io.(writer := Holding(s.io.queue[0]), queue := s.io.queue[1..],
                                dequeued := s.io.dequeued + [s.io.queue[0]]))
  {
  }

  lemma ThreadsAreThere<P>(s: State<P>, i: nat)
    requires Inv(s) && i < |s.callers| && s.callers[i] == Closing
    ensures s.readSlot.Some? && s.writeSlot
    ensures !s.handshaking ==>
      Next(s, CallerStep(i)) ==
      s.(readSlot := None, writeSlot := false, callers := s.callers[i := JoinReader(s.readSlot, true)])
  {
    assert Stopping(s.callers[i]) && StageOk(s, s.callers[i]);
  }

  lemma ReportStep<P>(s: State<P>, i: nat)
    requires Inv(s) && i < |s.callers| && s.callers[i] == Reporting
    ensures Next(s, CallerStep(i)) == s.(reported := true, errors := 1, callers := s.callers[i := Finished])
    ensures s.errors == if s.reported then 1 else 0
  {
  }

  // ----- The object itself: each method is one region under mutex_ or one use of the once-flag -----

  class BlockingConnectionAdapter<P> {
    var started: bool
    var stopped: bool
    var writeQueue: seq<P>
    var readThread: Option<nat>
    var writeThread: bool
    var errorFlag: bool
    ghost var writer: Writer<P>
    var readers: seq<Reader>
    ghost var handshaking: bool
    ghost var callers: seq<Caller>
    ghost var errors: nat
    ghost var past: Io<P>
    ghost var late: bool

    ghost function View(): State<P>
      reads this
    {
      State(past.(writer := writer, queue := writeQueue), started, stopped, readers, readThread, writeThread,
            handshaking, callers, errorFlag, errors, false, late)
    }

    ghost predicate Valid()
      reads this
    {
      Inv(View())
    }

    constructor ()
      ensures Valid() && View() == Init()
    {
      started, stopped, writeQueue, readThread, writeThread, errorFlag := false, false, [], None, false, false;
      writer, readers, handshaking, callers, errors, late := Unspawned, [], false, [], 0, false;
      past := Init<P>().io;
    }

    method Start()
      requires Valid() && !started
      modifies this
      ensures Valid() && View() == Next(old(View()), Step.Start)
      ensures started && !stopped && writer == Waiting && writeThread
      ensures readers == old(readers) + [Reading] && readThread == Some(|old(readers)|)
    {
      NextKeeps(View(), Step.Start);
      readThread := Some(|readers|);
      readers := readers + [Reading];
      writer, writeThread := Waiting, true;
      started := true;
    }

    method Write(p: P)
      requires Valid() && !handshaking
      modifies this
      ensures Valid() && View() == Next(old(View()), Step.Write(p))
      ensures writeQueue == old(writeQueue) + [p] && writer == old(writer) && errors == old(errors)
    {
      NextKeeps(View(), Step.Write(p));
      writeQueue := writeQueue + [p];
      past := past.(enqueued := past.enqueued + [p]);
    }

    // The locked part of the write loop, once cv_.wait has returned.
    method TakeNext() returns (r: Option<P>)
      requires Valid() && !handshaking && writer.Waiting? && (stopped || writeQueue != [])
      modifies this
      ensures Valid() && View() == Next(old(View()), WriterTake)
      ensures r.None? <==> old(stopped)
      ensures r.Some? ==> [r.value] + writeQueue == old(writeQueue) && writer == Holding(r.value)
      ensures r.None? ==> writer == WriterEnded && writeQueue == old(writeQueue)
    {
      NextKeeps(View(), WriterTake);
      TakeStep(View());
      if stopped {
        writer := WriterEnded;
        return None;
      }
      var p := writeQueue[0];
      writeQueue := writeQueue[1..];
      writer := Holding(p);
      past := past.(dequeued := past.dequeued + [p]);
      return Some(p);
    }

    // The check of Reset; the second half of Reset is a call of Stop.
    method CheckReset(ghost i: nat) returns (proceed: bool)
      requires Valid() && !handshaking && i < |callers| && callers[i] == AtReset
      modifies this
      ensures Valid() && View() == Next(old(View()), CallerStep(i))
      ensures proceed == (started && !stopped) && callers == old(callers)[i := if proceed then AtStop else Refused]
      ensures started == old(started) && stopped == old(stopped)
    {
      NextKeeps(View(), CallerStep(i));
      proceed := started && !stopped;
      callers := callers[i := if proceed then AtStop else Refused];
    }

    // The check of Stop: only the first caller gets through.
    method CheckStop(ghost i: nat) returns (proceed: bool)
      requires Valid() && !handshaking && i < |callers| && callers[i] == AtStop
      modifies this
      ensures Valid() && View() == Next(old(View()), CallerStep(i))
      ensures proceed == (old(started) && !old(stopped))
      ensures callers == old(callers)[i := if proceed then Closing else Refused]
      ensures stopped == (old(stopped) || proceed) && started == old(started)
    {
      NextKeeps(View(), CallerStep(i));
      if !started || stopped {
        callers := callers[i := Refused];
        return false;
      }
      stopped := true;
      callers := callers[i := Closing];
      return true;
    }

    // The second locked region of Stop.
    method MoveThreads(ghost i: nat) returns (reader: nat)
      requires Valid() && !handshaking && i < |callers| && callers[i] == Closing
      modifies this
      ensures Valid() && View() == Next(old(View()), CallerStep(i))
      ensures old(readThread) == Some(reader) && old(writeThread) && readThread == None && !writeThread
      ensures callers == old(callers)[i := JoinReader(Some(reader), true)]
    {
      NextKeeps(View(), CallerStep(i));
      ThreadsAreThere(View(), i);
      callers := callers[i := JoinReader(readThread, writeThread)];
      reader := readThread.value;
      readThread, writeThread := None, false;
    }

    // std::call_once at the end of Stop; true when this call ran HandleError.
    method ReportStop(ghost i: nat) returns (fired: bool)
      requires Valid() && i < |callers| && callers[i] == Reporting
      modifies this
      ensures Valid() && View() == Next(old(View()), CallerStep(i))
      ensures fired == !old(errorFlag) && errorFlag && errors == 1 && old(errors) == if fired then 0 else 1
      ensures callers == old(callers)[i := Finished]
    {
      NextKeeps(View(), CallerStep(i));
      ReportStep(View(), i);
      fired := !errorFlag;
      if fired {
        errorFlag, errors := true, errors + 1;
      }
      callers := callers[i := Finished];
    }
  }
}
