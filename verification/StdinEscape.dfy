// The escape sequences of stdin_read_thread_loop (porting/adb/client/commandline.cpp).
module StdinEscape {
  import opened Base

  const NUL := '\0'
  const LF := '\n'
  const CR := '\r'
  const DOT := '.'
  const BUFFER_SIZE := 1024

  datatype EscapeState = MidFlow | StartOfLine | InEscape

  predicate EndsLine(ch: char) {
    ch == LF || ch == CR
  }

  // ----- The machine -----

  // What one byte makes the machine do: send something, or disconnect (None).
  function Sends(s: EscapeState, esc: char, ch: char): Option<string> {
    if ch == esc then Some(if s == StartOfLine then [] else [ch])
    else if s == InEscape then (if ch == DOT then None else Some([esc, ch]))
    else Some([ch])
  }

  function After(s: EscapeState, esc: char, ch: char): EscapeState {
    if ch == esc then (if s == StartOfLine then InEscape else MidFlow)
    else if EndsLine(ch) then StartOfLine
    else MidFlow
  }

  // What was sent, and whether the machine disconnected.
  datatype Outcome = Outcome(sent: string, disconnected: bool)

  function Before(first: string, rest: Outcome): Outcome {
    Outcome(first + rest.sent, rest.disconnected)
  }

  function Run(s: EscapeState, esc: char, input: string): Outcome
    decreases |input|
  {
    if input == [] then Outcome([], false)
    else match Sends(s, esc, input[0])
      case None => Outcome([], true)
      case Some(out) => Before(out, Run(After(s, esc, input[0]), esc, input[1..]))
  }

  // ----- The specification, line by line -----

  // The first line, with its terminator, and what follows it.
  function FirstLine(input: string): string {
    if input == "" then "" else [input[0]] + if EndsLine(input[0]) then "" else FirstLine(input[1..])
  }

  function AfterLine(input: string): (rest: string)
    ensures input != "" ==> |rest| < |input|
  {
    if input == "" then "" else if EndsLine(input[0]) then input[1..] else AfterLine(input[1..])
  }

  lemma {:induction false} FirstLineIsALine(input: string)
    ensures FirstLine(input) + AfterLine(input) == input
    ensures forall i :: 0 <= i < |FirstLine(input)| - 1 ==> !EndsLine(FirstLine(input)[i])
    ensures AfterLine(input) != "" ==> FirstLine(input) != "" && EndsLine(FirstLine(input)[|FirstLine(input)| - 1])
  {
    if input != "" && !EndsLine(input[0]) {
      FirstLineIsALine(input[1..]);
    }
  }

  // A line that begins with an escape followed by a dot disconnects.  Of two escapes one is sent.  A lone
  // escape is kept back.  Everything else passes through.
  function Line(line: string, esc: char): Outcome {
    if line == [] || line[0] != esc then Outcome(line, false)
    else if |line| == 1 then Outcome([], false)
    else if line[1] == esc then Outcome(line[1..], false)
    else if line[1] == DOT then Outcome([], true)
    else Outcome(line, false)
  }

  function Lines(input: string, esc: char): Outcome
    decreases |input|
  {
    if input == [] then Outcome([], false)
    else
      var first := Line(FirstLine(input), esc);
      if first.disconnected then first else Before(first.sent, Lines(AfterLine(input), esc))
  }

  // What follows when the machine is in the middle of a line.
  function RestOfLine(input: string, esc: char): Outcome {
    Before(FirstLine(input), Lines(AfterLine(input), esc))
  }

  lemma RestOfLineStep(input: string, esc: char)
    requires input != []
    ensures
      var (ch, rest) := (input[0], input[1..]);
      RestOfLine(input, esc) == Before([ch], if EndsLine(ch) then Lines(rest, esc) else RestOfLine(rest, esc))
  {
    var (a, b) := (FirstLine(input[1..]), Lines(AfterLine(input), esc).sent);
    assert [input[0]] + (a + b) == [input[0]] + a + b;
  }

  lemma {:induction false} MidFlowPasses(esc: char, input: string)
    requires !EndsLine(esc)
    ensures Run(MidFlow, esc, input) == RestOfLine(input, esc)
    decreases |input|, 0
  {
    if input != [] {
      RestOfLineStep(input, esc);
      if EndsLine(input[0]) {
        RunsByLine(esc, input[1..]);
      } else {
        MidFlowPasses(esc, input[1..]);
      }
    }
  }

  // Which of the cases of Line applies, and how the rest goes on.
  lemma LinesStep(esc: char, input: string)
    requires !EndsLine(esc) && |input| > 1 && input[0] == esc
    ensures Lines(input, esc) == if input[1] == esc then RestOfLine(input[1..], esc)
                                 else if input[1] == DOT then Outcome([], true)
                                 else Before([esc], RestOfLine(input[1..], esc))
  {
    var (rest, head, more) := (input[1..], FirstLine(input[1..]), Lines(AfterLine(input), esc));
    assert FirstLine(input) == [esc] + head && head != "" && head[0] == input[1];
    assert AfterLine(input) == AfterLine(rest);
    LineCases(esc, head);
    Unfold(input, esc);
    Assoc([esc], head, more.sent);
  }

  lemma Unfold(input: string, esc: char)
    requires input != ""
    ensures
      var first := Line(FirstLine(input), esc);
      Lines(input, esc) == if first.disconnected then first else Before(first.sent, Lines(AfterLine(input), esc))
  {
  }

  lemma LineCases(esc: char, head: string)
    requires head != []
    ensures Line([esc] + head, esc) == if head[0] == esc then Outcome(head, false)
                                       else if head[0] == DOT then Outcome([], true)
                                       else Outcome([esc] + head, false)
  {
    assert ([esc] + head)[1..] == head;
  }

  // The machine does what the specification says, for every escape byte that does not end a line.
  lemma {:induction false} RunsByLine(esc: char, input: string)
    requires !EndsLine(esc)
    ensures Run(StartOfLine, esc, input) == Lines(input, esc)
    decreases |input|, 1
  {
    if input != [] {
      if input[0] != esc {
        MidFlowPasses(esc, input);
        assert Run(StartOfLine, esc, input) == Run(MidFlow, esc, input);
        assert Line(FirstLine(input), esc) == Outcome(FirstLine(input), false);
      } else if |input| > 1 {
        LinesStep(esc, input);
        MidFlowPasses(esc, input[1..]);
        EscapedStart(esc, input);
      } else {
        assert input[1..] == "" && FirstLine(input) == [esc];
      }
    }
  }

  lemma EscapedStart(esc: char, input: string)
    requires !EndsLine(esc) && |input| > 1 && input[0] == esc
    ensures Run(StartOfLine, esc, input) ==
            if input[1] == esc then Run(MidFlow, esc, input[1..])
            else if input[1] == DOT then Outcome([], true)
            else Before([esc], Run(MidFlow, esc, input[1..]))
  {
    var next := Run(InEscape, esc, input[1..]);
    assert Run(StartOfLine, esc, input) == Before([], next);
    assert [] + next.sent == next.sent;
    AfterEscape(esc, input[1..]);
  }

  lemma AfterEscape(esc: char, rest: string)
    requires rest != ""
    ensures Run(InEscape, esc, rest) ==
            if rest[0] == esc then Run(MidFlow, esc, rest)
            else if rest[0] == DOT then Outcome([], true)
            else Before([esc], Run(MidFlow, esc, rest))
  {
    if rest[0] != esc && rest[0] != DOT {
      var more := Run(After(MidFlow, esc, rest[0]), esc, rest[1..]);
      assert [esc, rest[0]] + more.sent == [esc] + ([rest[0]] + more.sent);
    }
  }

  // ----- The text itself, by positions -----

  // Position i begins a line; `start` says whether position 0 does.
  ghost predicate Begins(input: string, start: bool, i: nat) {
    if i == 0 then start else i <= |input| && (input[i - 1] == '\n' || input[i - 1] == '\r')
  }

  // There a line begins with the escape byte.
  ghost predicate EscapeAt(input: string, start: bool, esc: char, i: nat) {
    i < |input| && Begins(input, start, i) && input[i] == esc
  }

  ghost predicate DotAt(input: string, start: bool, esc: char, i: nat) {
    EscapeAt(input, start, esc, i) && i + 1 < |input| && input[i + 1] == '.'
  }

  ghost predicate HasDot(input: string, start: bool, esc: char) {
    exists i: nat :: DotAt(input, start, esc, i)
  }

  lemma Shifted(input: string, start: bool, esc: char, i: nat)
    requires input != ""
    ensures EscapeAt(input, start, esc, i + 1) <==>
            EscapeAt(input[1..], input[0] == '\n' || input[0] == '\r', esc, i)
    ensures DotAt(input, start, esc, i + 1) <==>
            DotAt(input[1..], input[0] == '\n' || input[0] == '\r', esc, i)
  {
  }

  lemma HasDotStep(input: string, start: bool, esc: char)
    requires input != ""
    ensures HasDot(input, start, esc) <==>
            (start && input[0] == esc && |input| > 1 && input[1] == '.')
            || HasDot(input[1..], input[0] == '\n' || input[0] == '\r', esc)
  {
    var more := input[0] == '\n' || input[0] == '\r';
    if i: nat :| DotAt(input, start, esc, i) {
      if i > 0 { Shifted(input, start, esc, i - 1); }
    }
    if i: nat :| DotAt(input[1..], more, esc, i) {
      Shifted(input, start, esc, i);
    }
    if start && input[0] == esc && |input| > 1 && input[1] == '.' {
      assert DotAt(input, start, esc, 0);
    }
  }

  lemma NoDotInNothing(start: bool, esc: char)
    ensures !HasDot("", start, esc)
  {
  }

  lemma {:induction false} DisconnectsFrom(s: EscapeState, esc: char, input: string)
    requires esc != '\n' && esc != '\r'
    ensures Run(s, esc, input).disconnected <==>
            esc != '.' && ((s == InEscape && input != "" && input[0] == '.') || HasDot(input, s == StartOfLine, esc))
    decreases |input|
  {
    if input == "" {
      NoDotInNothing(s == StartOfLine, esc);
    } else {
      HasDotStep(input, s == StartOfLine, esc);
      if Sends(s, esc, input[0]).Some? {
        DisconnectsFrom(After(s, esc, input[0]), esc, input[1..]);
      }
    }
  }

  // The machine disconnects exactly when some line of the text begins with the escape byte and a dot.
  lemma DisconnectsAtDot(esc: char, input: string)
    requires esc != '\n' && esc != '\r'
    ensures Run(StartOfLine, esc, input).disconnected <==> esc != '.' && HasDot(input, true, esc)
  {
    DisconnectsFrom(StartOfLine, esc, input);
  }

  // After an escape byte at the beginning of a line comes something other than an escape byte or a dot.
  ghost predicate Plain(input: string, start: bool, esc: char) {
    forall i: nat :: EscapeAt(input, start, esc, i) ==>
                       i + 1 < |input| && input[i + 1] != esc && input[i + 1] != '.'
  }

  lemma PlainRest(input: string, start: bool, esc: char)
    requires input != "" && Plain(input, start, esc)
    ensures Plain(input[1..], input[0] == '\n' || input[0] == '\r', esc)
    ensures start && input[0] == esc ==> |input| > 1 && input[1] != esc && input[1] != '.'
  {
    var more := input[0] == '\n' || input[0] == '\r';
    forall i: nat | EscapeAt(input[1..], more, esc, i)
      ensures i + 1 < |input[1..]| && input[1..][i + 1] != esc && input[1..][i + 1] != '.'
    {
      Shifted(input, start, esc, i);
    }
    if start && input[0] == esc { assert EscapeAt(input, start, esc, 0); }
  }

  lemma {:induction false} PlainFrom(start: bool, esc: char, input: string)
    requires esc != '\n' && esc != '\r' && Plain(input, start, esc)
    ensures Run(if start then StartOfLine else MidFlow, esc, input) == Outcome(input, false)
    decreases |input|
  {
    if input != "" {
      var (ch, rest) := (input[0], input[1..]);
      PlainRest(input, start, esc);
      PlainFrom(ch == '\n' || ch == '\r', esc, rest);
      Passes(ch, rest);
      if start && ch == esc {
        EscapedStart(esc, input);
      } else {
        assert After(if start then StartOfLine else MidFlow, esc, ch) ==
               if ch == '\n' || ch == '\r' then StartOfLine else MidFlow;
      }
      assert input == [ch] + rest;
    }
  }

  lemma Passes(ch: char, rest: string)
    ensures Before([ch], Outcome(rest, false)) == Outcome([ch] + rest, false)
  {
  }

  // Every text of which this holds at each line is sent as it is, without disconnecting.
  lemma PlainIsSent(esc: char, input: string)
    requires esc != '\n' && esc != '\r' && Plain(input, true, esc)
    ensures Run(StartOfLine, esc, input) == Outcome(input, false)
  {
    PlainFrom(true, esc, input);
  }

  // ----- Escaping -----

  // Doubles each escape at the start of a line.
  function Escape(esc: char, input: string, start: bool): string {
    if input == [] then []
    else
      (if start && input[0] == esc then [esc, esc] else [input[0]])
      + Escape(esc, input[1..], EndsLine(input[0]))
  }

  lemma {:induction false} EscapedIsSent(esc: char, input: string, start: bool)
    requires !EndsLine(esc)
    ensures Run(if start then StartOfLine else MidFlow, esc, Escape(esc, input, start)) == Outcome(input, false)
  {
    if input != [] {
      var (ch, rest) := (input[0], Escape(esc, input[1..], EndsLine(input[0])));
      EscapedIsSent(esc, input[1..], EndsLine(ch));
      var text := Escape(esc, input, start);
      assert input == [ch] + input[1..];
      if start && ch == esc {
        assert text == [esc, esc] + rest && text[1..] == [esc] + rest && text[1..][1..] == rest;
      } else {
        assert text == [ch] + rest && text[1..] == rest;
      }
    }
  }

  // Escaping is undone for every text exactly when the escape byte does not end a line.
  lemma EscapeRoundTrip(esc: char)
    ensures !EndsLine(esc) <==>
            forall input :: Run(StartOfLine, esc, Escape(esc, input, true)) == Outcome(input, false)
  {
    if EndsLine(esc) {
      var a := 'a';
      EscapeFails(esc, a);
    } else {
      forall input ensures Run(StartOfLine, esc, Escape(esc, input, true)) == Outcome(input, false) {
        EscapedIsSent(esc, input, true);
      }
    }
  }

  // With a line end as escape byte, an empty line comes out twice.
  lemma EscapeFails(esc: char, a: char)
    requires EndsLine(esc) && !EndsLine(a)
    ensures Run(StartOfLine, esc, Escape(esc, [a, esc, esc], true)) == Outcome([a, esc, esc, esc], false)
  {
    var input := [a, esc, esc];
    assert input[1..] == [esc, esc] && [esc, esc][1..] == [esc];
    assert Escape(esc, [esc], true) == [esc, esc];
    assert Escape(esc, [esc, esc], false) == [esc, esc, esc];
    assert Escape(esc, input, true) == [a, esc, esc, esc];
    assert [a, esc, esc, esc][1..] == [esc, esc, esc] && [esc, esc, esc][1..] == [esc, esc];
    assert Run(MidFlow, esc, [esc]) == Outcome([esc], false);
    assert Run(MidFlow, esc, [esc, esc]) == Outcome([esc, esc], false);
    assert Run(MidFlow, esc, [esc, esc, esc]) == Outcome([esc, esc, esc], false);
  }

  // ----- The loop -----

  datatype End = EndOfInput | Disconnected | WriteFailed

  // The escape handling of one byte, which is in the buffer; a byte may become two.  None: disconnect.
  method HandleByte(buffer: array<char>, state: EscapeState, esc: char) returns (r: Option<nat>, next: EscapeState)
    requires buffer.Length >= 2
    modifies buffer
    ensures r.None? == Sends(state, esc, old(buffer[0])).None?
    ensures r.Some? ==> r.value <= 2 && buffer[..r.value] == Sends(state, esc, old(buffer[0])).value
    ensures r.Some? ==> next == After(state, esc, old(buffer[0]))
  {
    var ch := buffer[0];
    var n := 1;
    next := state;
    if ch == esc {
      if state == StartOfLine {
        return Some(0), InEscape;
      }
      next := MidFlow;
    } else {
      if state == InEscape {
        if ch == DOT {
          return None, state;
        }
        buffer[0] := esc;
        buffer[1] := ch;
        n := n + 1;
      }
      next := if EndsLine(ch) then StartOfLine else MidFlow;
    }
    return Some(n), next;
  }

  // unix_read_interruptible
  method ReadInto(buffer: array<char>, rest: string, r: nat)
    requires r <= buffer.Length && r <= |rest|
    modifies buffer
    ensures buffer[..r] == rest[..r]
  {
    forall i | 0 <= i < r {
      buffer[i] := rest[i];
    }
  }

  // ----- With or without escapes -----

  predicate Active(raw: bool, esc: char) {
    raw && esc != NUL
  }

  // What remains to be sent.
  function Remaining(active: bool, state: EscapeState, esc: char, rest: string): Outcome {
    if active then Run(state, esc, rest) else Outcome(rest, false)
  }

  // What one read leads to.
  function Piece(active: bool, state: EscapeState, esc: char, read: string): Option<string>
    requires read != ""
  {
    if active then Sends(state, esc, read[0]) else Some(read)
  }

  function AfterRead(active: bool, state: EscapeState, esc: char, read: string): EscapeState
    requires read != ""
  {
    if active then After(state, esc, read[0]) else state
  }

  lemma ReadStep(active: bool, sent: string, state: EscapeState, esc: char, rest: string, r: nat)
    requires 0 < r <= |rest| && (active ==> r == 1)
    ensures
      var read := rest[..r];
      Before(sent, Remaining(active, state, esc, rest)) ==
      match Piece(active, state, esc, read)
      case None => Outcome(sent, true)
      case Some(out) => Before(sent + out, Remaining(active, AfterRead(active, state, esc, read), esc, rest[r..]))
  {
    var read := rest[..r];
    if active {
      match Sends(state, esc, read[0])
      case None =>
      case Some(out) =>
        var more := Run(After(state, esc, read[0]), esc, rest[1..]);
        assert sent + (out + more.sent) == sent + out + more.sent;
    } else {
      assert sent + rest == sent + read + rest[r..];
    }
  }

  method HandleRead(buffer: array<char>, r: nat, active: bool, state: EscapeState, esc: char, ghost read: string)
    returns (n: Option<nat>, next: EscapeState)
    requires 0 < r <= buffer.Length && 2 <= buffer.Length && (active ==> r == 1) && buffer[..r] == read
    modifies buffer
    ensures n.None? == Piece(active, state, esc, read).None?
    ensures n.Some? ==> n.value <= buffer.Length && buffer[..n.value] == Piece(active, state, esc, read).value
    ensures n.Some? ==> next == AfterRead(active, state, esc, read)
  {
    assert buffer[0] == buffer[..r][0] == read[0];
    if !active {
      return Some(r), state;
    }
    n, next := HandleByte(buffer, state, esc);
  }

  // One read: interrupted (None), or some bytes, as many as the turn, the size and the rest allow.
  method ReadTurn(buffer: array<char>, size: nat, rest: string, turns: seq<nat>)
    returns (r: Option<nat>, more: seq<nat>)
    requires 0 < size <= buffer.Length
    modifies buffer
    ensures r.None? ==> |more| < |turns|
    ensures |more| <= |turns|
    ensures r.Some? ==> r.value <= size && r.value <= |rest| && (r.value == 0 <==> rest == "")
    ensures r.Some? ==> buffer[..r.value] == rest[..r.value]
  {
    more := turns;
    var turn := size;
    if turns != [] {
      turn, more := turns[0], turns[1..];
      if turn == 0 {
        return None, more;
      }
    }
    var n := if turn < size then turn else size;
    n := if n < |rest| then n else |rest|;
    ReadInto(buffer, rest, n);
    return Some(n), more;
  }

  // stdin_read_thread_loop: each read is interrupted (0) or finds up to that many bytes, and the writes work
  // `budget` times.
  method ReadLoop(input: string, raw: bool, esc: char, turns: seq<nat>, budget: nat)
    returns (sent: string, end: End)
    ensures
      var spec := if raw && esc != '\0' then Run(StartOfLine, esc, input) else Outcome(input, false);
      if end == WriteFailed then sent <= spec.sent else Outcome(sent, end == Disconnected) == spec
  {
    var active := Active(raw, esc);
    var buffer := new char[BUFFER_SIZE](_ => NUL);
    var size := if active then 1 else BUFFER_SIZE;
    var todo: seq<nat>, left: nat := turns, budget;
    var state, rest := StartOfLine, input;
    sent := "";
    while true
      invariant Before(sent, Remaining(active, state, esc, rest)) == Remaining(active, StartOfLine, esc, input)
      decreases |todo| + |rest|
    {
      var read;
      read, todo := ReadTurn(buffer, size, rest, todo);
      if read == None {
        continue;
      }
      var r := read.value;
      if r == 0 {
        return sent, EndOfInput;
      }
      ReadStep(active, sent, state, esc, rest, r);
      var n, next := HandleRead(buffer, r, active, state, esc, rest[..r]);
      if n == None {
        return sent, Disconnected;
      }
      state, rest := next, rest[r..];
      var out := buffer[..n.value];
      assert Before(sent + out, Remaining(active, state, esc, rest)) == Remaining(active, StartOfLine, esc, input);
      if n == Some(0) {
        assert sent + out == sent;
        continue;
      }
      if left == 0 {
        return sent, WriteFailed;
      }
      left := left - 1;
      sent := sent + out;
    }
  }
}
