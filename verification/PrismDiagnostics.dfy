/** The bounded observer of Prism's responses: an event stream parser that holds at most
    MAX_EVENT_BYTES of one event and must not depend on how the network cuts the bytes. */
module PrismDiagnostics {
  import opened Basics

  type Byte = b: int | 0 <= b < 256

  const MAX_EVENT_BYTES := 1024 * 1024
  const LF: Byte := 10
  const CR: Byte := 13
  const SPACE: Byte := 32
  const DATA: seq<Byte> := [100, 97, 116, 97, 58]               // data:
  const DONE: seq<Byte> := [91, 68, 79, 78, 69, 93]             // [DONE]

  // ---------------------------------------------------------------- what is observed

  datatype Reason = Stop | Length | ToolCalls | FunctionCall | ContentFilter | OtherReason

  /** A choice: not an object, or a finish reason and the length of the reasoning text in its message;
      no length at all means that the message is not an object. */
  datatype Choice = NotAnObject | Choice(reason: Option<Reason>, thinking: Option<nat>)

  datatype Usage = Usage(prompt: Option<nat>, completion: Option<nat>, cached: Option<nat>, reasoning: Option<nat>)

  /** What the text of an event parses to. Broken: no JSON, no object, or an object with an error. */
  datatype Event = Broken | Event(choices: Option<seq<Choice>>, usage: Option<Usage>)

  datatype Facts = Facts(done: bool, reasons: set<Reason>, thinking: nat, usage: Option<Usage>)

  const NOTHING := Facts(false, {}, 0, None)

  /** Facts so far, and whether everything was understood. */
  datatype Reading = Reading(facts: Facts, ok: bool)

  function Choose(facts: Facts, choice: Choice): Reading {
    match choice
    case NotAnObject => Reading(facts, false)
    case Choice(reason, thinking) =>
      var reasons := facts.reasons + if reason.Some? then {reason.value} else {};
      if thinking.None? then Reading(facts.(reasons := reasons), false)
      else Reading(facts.(reasons := reasons, thinking := facts.thinking + thinking.value), true)
  }

  /** The choices in order, up to the first that is malformed. */
  function ChooseAll(facts: Facts, choices: seq<Choice>): Reading
    decreases |choices|
  {
    if choices == [] then Reading(facts, true)
    else
      var before := ChooseAll(facts, choices[..|choices| - 1]);
      if before.ok then Choose(before.facts, choices[|choices| - 1]) else before
  }

  function Observe(facts: Facts, event: Event): Reading {
    if event.Broken? || event.choices.None? then Reading(facts, false)
    else
      var reading := ChooseAll(facts, event.choices.value);
      if reading.ok && event.usage.Some?
      then Reading(reading.facts.(usage := event.usage), true)
      else reading
  }

  // ---------------------------------------------------------------- what an event contributes

  /** An object without an error, with a list of choices that are objects with a message. */
  predicate WellFormed(event: Event) {
    event.Event? && event.choices.Some?
    && forall c :: c in event.choices.value ==> c.Choice? && c.thinking.Some?
  }

  function Reasons(choices: seq<Choice>): set<Reason> {
    set c | c in choices && c.Choice? && c.reason.Some? :: c.reason.value
  }

  function Total(choices: seq<Choice>): nat {
    if choices == [] then 0
    else (if choices[0].Choice? && choices[0].thinking.Some? then choices[0].thinking.value else 0) + Total(choices[1..])
  }

  lemma {:induction false} TotalOneMore(choices: seq<Choice>, c: Choice)
    ensures Total(choices + [c]) == Total(choices) + Total([c])
  {
    if choices == [] {
      assert [] + [c] == [c];
    } else {
      assert (choices + [c])[1..] == choices[1..] + [c];
      TotalOneMore(choices[1..], c);
    }
  }

  lemma {:induction false} ChosenFacts(facts: Facts, choices: seq<Choice>)
    ensures var reading := ChooseAll(facts, choices);
            && (reading.ok <==> forall c :: c in choices ==> c.Choice? && c.thinking.Some?)
            && (reading.ok ==> reading.facts == facts.(reasons := facts.reasons + Reasons(choices),
                                                       thinking := facts.thinking + Total(choices)))
    decreases |choices|
  {
    if choices == [] {
      assert facts.reasons + Reasons(choices) == facts.reasons;
    } else {
      var front, last := choices[..|choices| - 1], choices[|choices| - 1];
      ChosenFacts(facts, front);
      assert choices == front + [last];
      TotalOneMore(front, last);
      assert Reasons(choices) == Reasons(front) + Reasons([last]);
    }
  }

  /** What an event adds to what is known: every finish reason of its choices, the length of all their
      reasoning texts, and its usage if it has one. It is understood exactly if it is well-formed. */
  lemma EventFacts(facts: Facts, event: Event)
    ensures var reading := Observe(facts, event);
            && (reading.ok <==> WellFormed(event))
            && (reading.ok ==>
                  && reading.facts.reasons
                     == facts.reasons + (set c | c in event.choices.value && c.Choice? && c.reason.Some? :: c.reason.value)
                  && reading.facts.thinking == facts.thinking + Total(event.choices.value)
                  && reading.facts.usage == (if event.usage.Some? then event.usage else facts.usage)
                  && reading.facts.done == facts.done)
  {
    if event.Event? && event.choices.Some? {
      ChosenFacts(facts, event.choices.value);
    }
  }

  /** Some choice of the event says why it finished. */
  predicate Finishes(event: Event) {
    event.Event? && event.choices.Some?
    && exists c :: c in event.choices.value && c.Choice? && c.reason.Some?
  }

  // ---------------------------------------------------------------- lines and events

  predicate EndsIn(bytes: seq<Byte>, b: Byte) {
    bytes != [] && bytes[|bytes| - 1] == b
  }

  function DropLast(bytes: seq<Byte>): seq<Byte>
    requires bytes != []
  {
    bytes[..|bytes| - 1]
  }

  /** A line without the line feeds and carriage returns at its end. */
  function Chomp(line: seq<Byte>): (r: seq<Byte>)
    ensures |r| <= |line|
    ensures line != [] && EndsIn(line, LF) ==> |r| < |line|
    decreases |line|
  {
    if EndsIn(line, LF) || EndsIn(line, CR) then Chomp(DropLast(line)) else line
  }

  predicate Blank(b: Byte) {
    b == SPACE || 9 <= b <= 13
  }

  function Strip(text: seq<Byte>): seq<Byte>
    decreases |text|
  {
    if text == [] then []
    else if Blank(text[0]) then Strip(text[1..])
    else if Blank(text[|text| - 1]) then Strip(DropLast(text))
    else text
  }

  predicate IsData(line: seq<Byte>) {
    DATA <= line
  }

  function Value(line: seq<Byte>): (r: seq<Byte>)
    requires IsData(line)
    ensures |r| + 5 <= |line|
  {
    if |line| > 5 && line[5] == SPACE then line[6..] else line[5..]
  }

  function Join(parts: seq<seq<Byte>>): seq<Byte> {
    if parts == [] then []
    else if |parts| == 1 then parts[0]
    else parts[0] + [LF] + Join(parts[1..])
  }

  function Weight(parts: seq<seq<Byte>>): nat {
    if parts == [] then 0 else Weight(parts[..|parts| - 1]) + |parts[|parts| - 1]| + 1
  }

  // ---------------------------------------------------------------- one byte at a time

  type Parser = seq<Byte> -> Event

  datatype State = State(
    sse: bool,
    valid: bool,
    buffer: seq<Byte>,
    data: seq<seq<Byte>>,
    size: nat,
    facts: Facts)

  predicate Bounded(s: State) {
    && |s.buffer| + s.size <= MAX_EVENT_BYTES
    && s.size == Weight(s.data)
    && (!s.valid ==> s.buffer == [] && s.data == [])
    && (s.sse ==> LF !in s.buffer)
    && (!s.sse ==> s.data == [])
  }

  function Fresh(sse: bool): State {
    State(sse, true, [], [], 0, NOTHING)
  }

  function Invalid(s: State): State {
    s.(valid := false, buffer := [], data := [], size := 0)
  }

  /** The blank line that ends an event. */
  function Dispatch(s: State, parse: Parser): State {
    var text := Join(s.data);
    var s1 := s.(data := [], size := 0);
    if Strip(text) == DONE then s1.(facts := s1.facts.(done := true))
    else
      var reading := Observe(s1.facts, parse(text));
      if reading.ok then s1.(facts := reading.facts)
      else Invalid(s1.(facts := reading.facts))
  }

  /** A complete line is in the buffer. */
  function EndLine(s: State, parse: Parser): State {
    var line := Chomp(s.buffer);
    var s1 := s.(buffer := []);
    if IsData(line) then s1.(data := s.data + [Value(line)], size := s.size + |Value(line)| + 1)
    else if line == [] && s.data != [] then Dispatch(s1, parse)
    else s1
  }

  function Step(s: State, b: Byte, parse: Parser): State {
    if !s.valid then s
    else if |s.buffer| + s.size + 1 > MAX_EVENT_BYTES then Invalid(s)
    else
      var s1 := s.(buffer := s.buffer + [b]);
      if s.sse && b == LF then EndLine(s1, parse) else s1
  }

  /** The reference: bytes one by one. */
  function Run(s: State, bytes: seq<Byte>, parse: Parser): State
    decreases |bytes|
  {
    if bytes == [] then s
    else Step(Run(s, DropLast(bytes), parse), bytes[|bytes| - 1], parse)
  }

  lemma {:induction false} RunAppend(s: State, a: seq<Byte>, b: seq<Byte>, parse: Parser)
    ensures Run(s, a + b, parse) == Run(Run(s, a, parse), b, parse)
    decreases |b|
  {
    if b == [] {
      assert a + b == a;
    } else {
      assert DropLast(a + b) == a + DropLast(b);
      RunAppend(s, a, DropLast(b), parse);
    }
  }

  lemma WeightAppend(parts: seq<seq<Byte>>, part: seq<Byte>)
    ensures Weight(parts + [part]) == Weight(parts) + |part| + 1
  {
    assert (parts + [part])[..|parts|] == parts;
  }

  lemma StepBounded(s: State, b: Byte, parse: Parser)
    requires Bounded(s)
    ensures Bounded(Step(s, b, parse)) && Step(s, b, parse).sse == s.sse
  {
    if s.valid && |s.buffer| + s.size + 1 <= MAX_EVENT_BYTES && s.sse && b == LF {
      EndLineBounded(s.(buffer := s.buffer + [b]), parse);
    }
  }

  lemma EndLineBounded(s: State, parse: Parser)
    requires s.valid && s.sse && EndsIn(s.buffer, LF)
    requires |s.buffer| + s.size <= MAX_EVENT_BYTES && s.size == Weight(s.data)
    ensures Bounded(EndLine(s, parse)) && EndLine(s, parse).sse
  {
    var line := Chomp(s.buffer);
    if IsData(line) {
      WeightAppend(s.data, Value(line));
    }
  }

  /** Memory is bounded on every input. */
  lemma {:induction false} RunBounded(s: State, bytes: seq<Byte>, parse: Parser)
    requires Bounded(s)
    ensures Bounded(Run(s, bytes, parse)) && Run(s, bytes, parse).sse == s.sse
    decreases |bytes|
  {
    if bytes != [] {
      RunBounded(s, DropLast(bytes), parse);
      StepBounded(Run(s, DropLast(bytes), parse), bytes[|bytes| - 1], parse);
    }
  }

  lemma {:induction false} RunInvalid(s: State, bytes: seq<Byte>, parse: Parser)
    requires !s.valid
    ensures Run(s, bytes, parse) == s
    decreases |bytes|
  {
    if bytes != [] {
      RunInvalid(s, DropLast(bytes), parse);
    }
  }

  // ---------------------------------------------------------------- a piece at a time

  /** The pieces a chunk is cut into: each ends at a line feed, a carriage return or both. */
  function FirstPiece(chunk: seq<Byte>): (n: nat)
    requires chunk != []
    ensures 0 < n <= |chunk|
    ensures forall i :: 0 <= i < n - 1 ==> chunk[i] != LF
    decreases |chunk|
  {
    if chunk[0] == LF then 1
    else if chunk[0] == CR then if |chunk| > 1 && chunk[1] == LF then 2 else 1
    else if |chunk| == 1 then 1
    else 1 + FirstPiece(chunk[1..])
  }

  /** Bytes without a line end inside are just buffered, or overflow the limit. */
  lemma {:induction false} RunBuffers(s: State, bytes: seq<Byte>, parse: Parser)
    requires Bounded(s) && s.valid
    requires s.sse ==> LF !in bytes
    ensures Run(s, bytes, parse) ==
            if |s.buffer| + s.size + |bytes| > MAX_EVENT_BYTES then Invalid(s)
            else s.(buffer := s.buffer + bytes)
    decreases |bytes|
  {
    if bytes == [] {
      assert s.buffer + bytes == s.buffer;
    } else {
      var b := bytes[|bytes| - 1];
      assert b in bytes;
      RunBuffers(s, DropLast(bytes), parse);
      assert s.buffer + bytes == s.buffer + DropLast(bytes) + [b];
    }
  }

  function Piece(s: State, piece: seq<Byte>, parse: Parser): State {
    if |s.buffer| + s.size + |piece| > MAX_EVENT_BYTES then Invalid(s)
    else if s.sse && EndsIn(piece, LF) then EndLine(s.(buffer := s.buffer + piece), parse)
    else s.(buffer := s.buffer + piece)
  }

  /** After what was fed so far, one more piece. */
  lemma FedPiece(start: State, fed: seq<Byte>, s: State, piece: seq<Byte>, parse: Parser)
    requires s == Run(start, fed, parse) && Bounded(s) && s.valid && piece != []
    requires s.sse ==> LF !in DropLast(piece)
    ensures Piece(s, piece, parse) == Run(start, fed + piece, parse)
    ensures Bounded(Piece(s, piece, parse)) && Piece(s, piece, parse).sse == s.sse
  {
    RunAppend(start, fed, piece, parse);
    RunPiece(s, piece, parse);
    RunBounded(s, piece, parse);
  }

  lemma MovePiece(chunk: seq<Byte>, fed: seq<Byte>, rest: seq<Byte>, n: nat)
    requires fed + rest == chunk && n <= |rest|
    ensures (fed + rest[..n]) + rest[n..] == chunk
  {
    assert rest[..n] + rest[n..] == rest;
  }

  /** Once invalid, always so. */
  lemma FedInvalid(start: State, fed: seq<Byte>, rest: seq<Byte>, parse: Parser)
    requires !Run(start, fed, parse).valid
    ensures Run(start, fed + rest, parse) == Run(start, fed, parse)
  {
    RunInvalid(Run(start, fed, parse), rest, parse);
    RunAppend(start, fed, rest, parse);
  }

  /** What feed does with one piece is what the reference does with its bytes. */
  lemma RunPiece(s: State, piece: seq<Byte>, parse: Parser)
    requires Bounded(s) && s.valid && piece != []
    requires s.sse ==> LF !in DropLast(piece)
    ensures Run(s, piece, parse) == Piece(s, piece, parse)
  {
    RunBuffers(s, DropLast(piece), parse);
    assert s.buffer + DropLast(piece) + [piece[|piece| - 1]] == s.buffer + piece;
  }

  // ---------------------------------------------------------------- a whole stream at once

  function Rest(bytes: seq<Byte>): seq<Byte>
    decreases |bytes|
  {
    if bytes == [] || EndsIn(bytes, LF) then [] else Rest(DropLast(bytes)) + [bytes[|bytes| - 1]]
  }

  /** The complete lines of a stream, without their ends. */
  function Lines(bytes: seq<Byte>): seq<seq<Byte>>
    decreases |bytes|
  {
    if bytes == [] then []
    else if EndsIn(bytes, LF) then Lines(DropLast(bytes)) + [Chomp(Rest(DropLast(bytes)) + [LF])]
    else Lines(DropLast(bytes))
  }

  /** The data of the event that is still open after the last line. */
  function OpenData(lines: seq<seq<Byte>>): seq<seq<Byte>> {
    if lines == [] then []
    else
      var before, line := OpenData(lines[..|lines| - 1]), lines[|lines| - 1];
      if IsData(line) then before + [Value(line)] else if line == [] then [] else before
  }

  /** The texts of the complete events. */
  function Texts(lines: seq<seq<Byte>>): seq<seq<Byte>> {
    if lines == [] then []
    else
      var before, line := lines[..|lines| - 1], lines[|lines| - 1];
      if line == [] && OpenData(before) != [] then Texts(before) + [Join(OpenData(before))]
      else Texts(before)
  }

  function Summary(texts: seq<seq<Byte>>, parse: Parser): Reading {
    if texts == [] then Reading(NOTHING, true)
    else
      var before, text := Summary(texts[..|texts| - 1], parse), texts[|texts| - 1];
      if !before.ok then before
      else if Strip(text) == DONE then Reading(before.facts.(done := true), true)
      else Observe(before.facts, parse(text))
  }

  predicate IsDone(text: seq<Byte>) {
    Strip(text) == DONE
  }

  /** Every text is the end mark or a well-formed event. */
  predicate Understood(texts: seq<seq<Byte>>, parse: Parser) {
    forall t :: t in texts ==> IsDone(t) || WellFormed(parse(t))
  }

  predicate SomeDone(texts: seq<seq<Byte>>) {
    exists t :: t in texts && IsDone(t)
  }

  predicate SomeFinish(texts: seq<seq<Byte>>, parse: Parser) {
    exists t :: t in texts && !IsDone(t) && Finishes(parse(t))
  }

  /** What the texts of a stream say together. */
  lemma {:induction false} SummaryMeans(texts: seq<seq<Byte>>, parse: Parser)
    ensures var summary := Summary(texts, parse);
            && (summary.ok <==> Understood(texts, parse))
            && (summary.ok ==>
                  && (summary.facts.done <==> SomeDone(texts))
                  && (summary.facts.reasons != {} <==> SomeFinish(texts, parse)))
    decreases |texts|
  {
    if texts != [] {
      var before, text := texts[..|texts| - 1], texts[|texts| - 1];
      SummaryMeans(before, parse);
      assert texts == before + [text];
      EventFacts(Summary(before, parse).facts, parse(text));
      FinishesOnce(Summary(before, parse).facts, parse(text));
    }
  }

  lemma FinishesOnce(facts: Facts, event: Event)
    ensures Observe(facts, event).ok ==>
              (Observe(facts, event).facts.reasons != {} <==> facts.reasons != {} || Finishes(event))
  {
    EventFacts(facts, event);
    if Observe(facts, event).ok && Finishes(event) {
      var c :| c in event.choices.value && c.Choice? && c.reason.Some?;
      assert c.reason.value in Observe(facts, event).facts.reasons;
    }
  }

  /** The bytes that the open line and the open event occupy. */
  function Held(bytes: seq<Byte>): nat {
    |Rest(bytes)| + Weight(OpenData(Lines(bytes)))
  }

  /** At every byte there was room for it. */
  predicate Fits(bytes: seq<Byte>) {
    forall n :: 0 <= n < |bytes| ==> Held(bytes[..n]) < MAX_EVENT_BYTES
  }

  lemma FitsStep(bytes: seq<Byte>)
    requires bytes != []
    ensures Fits(bytes) <==> Fits(DropLast(bytes)) && Held(DropLast(bytes)) < MAX_EVENT_BYTES
  {
    var front := DropLast(bytes);
    assert forall n :: 0 <= n < |front| ==> front[..n] == bytes[..n];
    assert bytes[..|front|] == front;
    if Fits(front) && Held(front) < MAX_EVENT_BYTES {
      forall n | 0 <= n < |bytes|
        ensures Held(bytes[..n]) < MAX_EVENT_BYTES
      {
        if n < |front| {
          assert front[..n] == bytes[..n];
        }
      }
    }
  }

  /** The lines of a stream as the standard cuts them: at a line feed, at a carriage return, or at a
      carriage return followed by a line feed. */
  function StandardRest(bytes: seq<Byte>): seq<Byte>
    decreases |bytes|
  {
    if bytes == [] || EndsIn(bytes, LF) || EndsIn(bytes, CR) then []
    else StandardRest(DropLast(bytes)) + [bytes[|bytes| - 1]]
  }

  function StandardLines(bytes: seq<Byte>): seq<seq<Byte>>
    decreases |bytes|
  {
    if bytes == [] then []
    else
      var front := DropLast(bytes);
      if EndsIn(bytes, CR) || (EndsIn(bytes, LF) && !EndsIn(front, CR))
      then StandardLines(front) + [StandardRest(front)]
      else StandardLines(front)
  }

  /** Every carriage return is the first half of a line end. */
  predicate NoLoneCR(bytes: seq<Byte>) {
    forall i :: 0 <= i < |bytes| && bytes[i] == CR ==> i + 1 < |bytes| && bytes[i + 1] == LF
  }

  /** The same, but for a carriage return at the very end, which may still get its line feed. */
  predicate NoLoneCRYet(bytes: seq<Byte>) {
    forall i :: 0 <= i < |bytes| - 1 && bytes[i] == CR ==> bytes[i + 1] == LF
  }

  lemma {:induction false} FewerLines(bytes: seq<Byte>)
    ensures |Lines(bytes)| <= |StandardLines(bytes)|
    ensures EndsIn(bytes, CR) ==> |Lines(bytes)| < |StandardLines(bytes)|
    ensures !NoLoneCRYet(bytes) ==> |Lines(bytes)| < |StandardLines(bytes)|
    ensures !NoLoneCRYet(bytes) && EndsIn(bytes, CR) ==> |Lines(bytes)| + 1 < |StandardLines(bytes)|
    decreases |bytes|
  {
    if bytes != [] {
      var front := DropLast(bytes);
      FewerLines(front);
      if !NoLoneCRYet(bytes) && NoLoneCRYet(front) {
        var i :| 0 <= i < |bytes| - 1 && bytes[i] == CR && bytes[i + 1] != LF;
        assert forall k :: 0 <= k < |front| ==> front[k] == bytes[k];
        assert i == |bytes| - 2;
      }
    }
  }

  lemma ChompText(line: seq<Byte>)
    requires LF !in line && CR !in line
    ensures Chomp(line + [LF]) == line && Chomp(line + [CR, LF]) == line
  {
    assert DropLast(line + [LF]) == line && DropLast(line + [CR, LF]) == line + [CR];
    assert DropLast(line + [CR]) == line;
    if line != [] {
      assert line[|line| - 1] in line;
    }
  }

  lemma {:induction false} SameLines(bytes: seq<Byte>)
    requires NoLoneCRYet(bytes)
    ensures CR !in StandardRest(bytes) && LF !in StandardRest(bytes)
    ensures !EndsIn(bytes, CR) ==>
              Rest(bytes) == StandardRest(bytes) && Lines(bytes) == StandardLines(bytes)
    ensures EndsIn(bytes, CR) ==>
              CR !in StandardRest(DropLast(bytes)) && LF !in StandardRest(DropLast(bytes))
              && Rest(bytes) == StandardRest(DropLast(bytes)) + [CR]
              && StandardLines(bytes) == Lines(bytes) + [StandardRest(DropLast(bytes))]
    decreases |bytes|
  {
    if bytes != [] {
      var front := DropLast(bytes);
      assert NoLoneCRYet(front) by {
        assert forall i :: 0 <= i < |front| ==> front[i] == bytes[i];
      }
      SameLines(front);
      if EndsIn(front, CR) {
        assert bytes[|bytes| - 2] == CR && bytes[|bytes| - 1] == LF;
        var text := StandardRest(DropLast(front));
        assert text + [CR] + [LF] == text + [CR, LF];
        ChompText(text);
      } else if EndsIn(bytes, LF) {
        ChompText(StandardRest(front));
      }
    }
  }

  /** The observer cuts a stream into the lines of the standard exactly when no carriage return stands
      alone: a lone one ends a line there, and does not here. */
  lemma StandardExactly(bytes: seq<Byte>)
    ensures Lines(bytes) == StandardLines(bytes) <==> NoLoneCR(bytes)
  {
    FewerLines(bytes);
    if NoLoneCR(bytes) {
      SameLines(bytes);
    } else if NoLoneCRYet(bytes) {
      var i :| 0 <= i < |bytes| && bytes[i] == CR && !(i + 1 < |bytes| && bytes[i + 1] == LF);
      assert i == |bytes| - 1;
    }
  }

  /** The state that reading the whole stream at once would give. */
  predicate IsBatch(s: State, bytes: seq<Byte>, parse: Parser) {
    var lines := Lines(bytes);
    s == State(true, true, Rest(bytes), OpenData(lines), Weight(OpenData(lines)),
               Summary(Texts(lines), parse).facts)
  }

  lemma {:induction false} RestHasNoLF(bytes: seq<Byte>)
    ensures LF !in Rest(bytes)
    decreases |bytes|
  {
    if bytes != [] && !EndsIn(bytes, LF) {
      RestHasNoLF(DropLast(bytes));
    }
  }

  /** Streaming is reading at once: the observer stays valid exactly when no event outgrows the limit
      and every event is understood, and it then knows what the complete lines say, and holds the data
      lines of the open event and the bytes of the open line. */
  lemma {:induction false} StreamingIsBatch(bytes: seq<Byte>, parse: Parser)
    ensures var s := Run(Fresh(true), bytes, parse);
            && (s.valid <==> Fits(bytes) && Summary(Texts(Lines(bytes)), parse).ok)
            && (s.valid ==> IsBatch(s, bytes, parse))
    decreases |bytes|
  {
    if bytes == [] {
      assert forall n :: 0 <= n <= |bytes| ==> bytes[..n] == bytes;
    } else {
      var front, b := DropLast(bytes), bytes[|bytes| - 1];
      StreamingIsBatch(front, parse);
      FitsStep(bytes);
      RunBounded(Fresh(true), front, parse);
      StepIsBatch(Run(Fresh(true), front, parse), front, b, parse);
      assert front + [b] == bytes;
    }
  }

  lemma SameEvents(lines: seq<seq<Byte>>, line: seq<Byte>)
    ensures OpenData(lines + [line]) == if IsData(line) then OpenData(lines) + [Value(line)]
                                        else if line == [] then [] else OpenData(lines)
    ensures Texts(lines + [line]) == if line == [] && OpenData(lines) != []
                                     then Texts(lines) + [Join(OpenData(lines))] else Texts(lines)
  {
    assert (lines + [line])[..|lines|] == lines;
  }

  lemma OneMoreText(texts: seq<seq<Byte>>, text: seq<Byte>, parse: Parser)
    ensures var before := Summary(texts, parse);
            Summary(texts + [text], parse)
            == if !before.ok then before
               else if Strip(text) == DONE then Reading(before.facts.(done := true), true)
               else Observe(before.facts, parse(text))
  {
    assert (texts + [text])[..|texts|] == texts;
  }

  lemma StepIsBatch(s: State, front: seq<Byte>, b: Byte, parse: Parser)
    requires Bounded(s)
    requires s.valid <==> Fits(front) && Summary(Texts(Lines(front)), parse).ok
    requires s.valid ==> IsBatch(s, front, parse)
    ensures var s1, bytes := Step(s, b, parse), front + [b];
            && (s1.valid <==> Fits(bytes) && Summary(Texts(Lines(bytes)), parse).ok)
            && (s1.valid ==> IsBatch(s1, bytes, parse))
  {
    var bytes := front + [b];
    assert DropLast(bytes) == front;
    FitsStep(bytes);
    if b != LF {
    } else {
      var line := Chomp(Rest(front) + [LF]);
      SameEvents(Lines(front), line);
      OneMoreText(Texts(Lines(front)), Join(OpenData(Lines(front))), parse);
      WeightAppend(OpenData(Lines(front)), if IsData(line) then Value(line) else []);
    }
  }

  // ---------------------------------------------------------------- the observer

  datatype ContentType = EventStream | Json | OtherType

  datatype Status = HttpError | Interrupted | Incomplete | Complete

  class Diagnostics {
    const parse: Parser
    var status: Option<int>
    var sse: bool
    var valid: bool
    var done: bool
    var buffer: seq<Byte>
    var data: seq<seq<Byte>>
    var dataSize: nat
    var thinking: nat
    var reasons: set<Reason>
    var usage: Option<Usage>

    ghost function Seen(): Facts
      reads this
    {
      Facts(done, reasons, thinking, usage)
    }

    ghost function Now(): State
      reads this
    {
      State(sse, valid, buffer, data, dataSize, Seen())
    }

    constructor (parse: Parser)
      ensures Now() == Fresh(false) && Bounded(Now()) && status.None? && this.parse == parse
    {
      this.parse := parse;
      status, sse, valid, done := None, false, true, false;
      buffer, data, dataSize := [], [], 0;
      thinking, reasons, usage := 0, {}, None;
    }

    method Start(code: int, contentType: ContentType)
      requires Now() == Fresh(false)
      modifies this`status, this`sse, this`valid
      ensures status == Some(code) && Bounded(Now())
      ensures var sse := contentType.EventStream?;
              Now() == Fresh(sse).(valid := code == 200 && !contentType.OtherType?)
    {
      status := Some(code);
      sse := contentType.EventStream?;
      valid := code == 200 && (contentType.EventStream? || contentType.Json?);
    }

    method Invalidate()
      modifies this`valid, this`buffer, this`data, this`dataSize
      ensures Now() == Invalid(old(Now()))
    {
      valid, buffer, data, dataSize := false, [], [], 0;
    }

    /** Reads one event; what precedes a malformed part of it is kept. */
    method ReadEvent(raw: seq<Byte>)
      modifies this`valid, this`buffer, this`data, this`dataSize, this`thinking, this`reasons, this`usage
      ensures var reading := Observe(old(Seen()), parse(raw));
              Now() == if reading.ok then old(Now()).(facts := reading.facts)
                       else Invalid(old(Now()).(facts := reading.facts))
      ensures WellFormed(parse(raw)) ==>
                reasons == old(reasons) + Reasons(parse(raw).choices.value)
                && thinking == old(thinking) + Total(parse(raw).choices.value)
    {
      EventFacts(Seen(), parse(raw));
      Take(parse(raw));
    }

    /** What a parsed event adds to the facts. */
    method Take(event: Event)
      modifies this`valid, this`buffer, this`data, this`dataSize, this`thinking, this`reasons, this`usage
      ensures var reading := Observe(old(Seen()), event);
              Now() == if reading.ok then old(Now()).(facts := reading.facts)
                       else Invalid(old(Now()).(facts := reading.facts))
    {
      if event.Broken? || event.choices.None? {
        Invalidate();
        return;
      }
      var choices := event.choices.value;
      var i := 0;
      while i < |choices|
        invariant 0 <= i <= |choices|
        invariant ChooseAll(old(Seen()), choices[..i]) == Reading(Seen(), true)
        invariant Now() == old(Now()).(facts := Seen())
      {
        var choice := choices[i];
        assert choices[..i + 1][..i] == choices[..i];
        if choice.NotAnObject? {
          ChooseStops(old(Seen()), choices, i + 1);
          Invalidate();
          return;
        }
        if choice.reason.Some? {
          reasons := reasons + {choice.reason.value};
        }
        if choice.thinking.None? {
          ChooseStops(old(Seen()), choices, i + 1);
          Invalidate();
          return;
        }
        thinking := thinking + choice.thinking.value;
        i := i + 1;
      }
      assert choices[..|choices|] == choices;
      if event.usage.Some? {
        usage := event.usage;
      }
    }

    /** However the network cuts the bytes: one chunk has the effect of its bytes one by one. */
    method Feed(chunk: seq<Byte>)
      requires Bounded(Now())
      modifies this
      ensures Now() == Run(old(Now()), chunk, parse)
      ensures Bounded(Now()) && status == old(status)
    {
      if valid {
        FeedValid(chunk);
      } else {
        RunInvalid(Now(), chunk, parse);
      }
    }

    method FeedValid(chunk: seq<Byte>)
      requires Bounded(Now()) && valid
      modifies this
      ensures Now() == Run(old(Now()), chunk, parse)
      ensures Bounded(Now()) && status == old(status)
    {
      ghost var start := Now();
      var rest := chunk;
      ghost var fed: seq<Byte> := [];
      while rest != []
        invariant valid && status == old(status)
        invariant fed + rest == chunk
        invariant Now() == Run(start, fed, parse) && Bounded(Now())
        decreases |rest|
      {
        var n := if sse then FirstPiece(rest) else |rest|;
        var piece := rest[..n];
        FedPiece(start, fed, Now(), piece, parse);
        MovePiece(chunk, fed, rest, n);
        fed := fed + piece;
        rest := rest[n..];
        FeedPiece(piece);
        if !valid {
          FedInvalid(start, fed, rest, parse);
          return;
        }
      }
      assert fed == chunk;
    }

    method FeedPiece(piece: seq<Byte>)
      requires valid && piece != [] && Bounded(Now())
      modifies this
      ensures status == old(status)
      ensures Now() == Piece(old(Now()), piece, parse)
    {
      if |buffer| + dataSize + |piece| > MAX_EVENT_BYTES {
        Invalidate();
        return;
      }
      buffer := buffer + piece;
      if !sse || !EndsIn(buffer, LF) {
        return;
      }
      var line := Chomp(buffer);
      buffer := [];
      if IsData(line) {
        var value := Value(line);
        data := data + [value];
        dataSize := dataSize + |value| + 1;
      } else if line == [] && data != [] {
        var event := Join(data);
        data := [];
        dataSize := 0;
        if Strip(event) == DONE {
          done := true;
        } else {
          ReadEvent(event);
        }
      }
    }

    method Finish(upstreamComplete: bool) returns (outcome: Status)
      requires Bounded(Now())
      modifies this
      ensures status.Some? && status.value != 200 ==> outcome == HttpError
      ensures status == Some(200) && !upstreamComplete ==> outcome == Interrupted
      ensures status == Some(200) && upstreamComplete && old(sse) ==>
                (outcome == Complete <==>
                   old(valid && done && reasons != {} && buffer == [] && data == []))
                && (outcome == Complete || outcome == Incomplete)
      ensures status == Some(200) && upstreamComplete && !old(sse) ==>
                var reading := Observe(old(Seen()), parse(old(buffer)));
                (outcome == Complete <==> old(valid) && reading.ok && reading.facts.reasons != {})
                && (outcome == Complete || outcome == Incomplete)
      ensures buffer == [] && data == [] && status == old(status)
    {
      if valid && !sse && upstreamComplete {
        ReadEvent(buffer);
      }
      if sse && (buffer != [] || data != []) {
        valid := false;
      }
      if status.Some? && status.value != 200 {
        outcome := HttpError;
      } else if !upstreamComplete {
        outcome := Interrupted;
      } else if !valid || reasons == {} || (sse && !done) {
        outcome := Incomplete;
      } else {
        outcome := Complete;
      }
      buffer, data := [], [];
    }
  }

  /** Once a choice is malformed the later ones are not read. */
  lemma {:induction false} ChooseStops(facts: Facts, choices: seq<Choice>, i: nat)
    requires i <= |choices|
    requires !ChooseAll(facts, choices[..i]).ok
    ensures ChooseAll(facts, choices) == ChooseAll(facts, choices[..i])
    decreases |choices|
  {
    if i == |choices| {
      assert choices[..i] == choices;
    } else {
      var front := choices[..|choices| - 1];
      assert front[..i] == choices[..i];
      ChooseStops(facts, front, i);
    }
  }

  function Concat(chunks: seq<seq<Byte>>): seq<Byte> {
    if chunks == [] then [] else Concat(chunks[..|chunks| - 1]) + chunks[|chunks| - 1]
  }

  /** A whole response, chunk by chunk. */
  method Follow(chunks: seq<seq<Byte>>, code: int, contentType: ContentType, upstreamComplete: bool, parse: Parser)
    returns (outcome: Status)
    ensures var bytes := Concat(chunks);
            var summary := Summary(Texts(Lines(bytes)), parse);
            var single := Observe(NOTHING, parse(bytes));
            outcome == Complete <==>
              && code == 200 && upstreamComplete
              && match contentType
                 case EventStream =>
                   Fits(bytes) && summary.ok && summary.facts.done && summary.facts.reasons != {}
                   && Rest(bytes) == [] && OpenData(Lines(bytes)) == []
                 case Json =>
                   |bytes| <= MAX_EVENT_BYTES && single.ok && single.facts.reasons != {}
                 case OtherType => false
    ensures code != 200 ==> outcome == HttpError
    ensures code == 200 && !upstreamComplete ==> outcome == Interrupted
    ensures code == 200 && upstreamComplete ==> outcome in {Complete, Incomplete}
  {
    var diagnostics := new Diagnostics(parse);
    diagnostics.Start(code, contentType);
    ghost var start := diagnostics.Now();
    var i := 0;
    while i < |chunks|
      invariant 0 <= i <= |chunks|
      invariant Bounded(diagnostics.Now()) && diagnostics.status == Some(code)
      invariant diagnostics.Now() == Run(start, Concat(chunks[..i]), parse)
    {
      RunAppend(start, Concat(chunks[..i]), chunks[i], parse);
      assert chunks[..i + 1][..i] == chunks[..i];
      diagnostics.Feed(chunks[i]);
      i := i + 1;
    }
    assert chunks[..|chunks|] == chunks;
    ghost var bytes := Concat(chunks);
    RunBounded(start, bytes, parse);
    if !start.valid {
      RunInvalid(start, bytes, parse);
    } else if start.sse {
      StreamingIsBatch(bytes, parse);
    } else {
      RunBuffers(start, bytes, parse);
      assert [] + bytes == bytes;
    }
    outcome := diagnostics.Finish(upstreamComplete);
  }

  /** A whole response, in whatever chunks it arrives, is reported as complete exactly for what its bytes
      say: as an event stream of complete, understood events that end with the end mark and one of which
      has a choice that finished, or as one object with such a choice. */
  method Watch(chunks: seq<seq<Byte>>, code: int, contentType: ContentType, upstreamComplete: bool, parse: Parser)
    returns (outcome: Status)
    ensures var bytes := Concat(chunks);
            var texts := Texts(Lines(bytes));
            outcome == Complete <==>
              && code == 200 && upstreamComplete
              && match contentType
                 case EventStream =>
                   && Fits(bytes) && Understood(texts, parse) && SomeDone(texts) && SomeFinish(texts, parse)
                   && Rest(bytes) == [] && OpenData(Lines(bytes)) == []
                 case Json =>
                   |bytes| <= MAX_EVENT_BYTES && WellFormed(parse(bytes)) && Finishes(parse(bytes))
                 case OtherType => false
    ensures code != 200 ==> outcome == HttpError
    ensures code == 200 && !upstreamComplete ==> outcome == Interrupted
    ensures code == 200 && upstreamComplete ==> outcome in {Complete, Incomplete}
  {
    outcome := Follow(chunks, code, contentType, upstreamComplete, parse);
    SummaryMeans(Texts(Lines(Concat(chunks))), parse);
    EventFacts(NOTHING, parse(Concat(chunks)));
    FinishesOnce(NOTHING, parse(Concat(chunks)));
  }

  // ---------------------------------------------------------------- what a server writes is what is read

  /** The bytes of one event, as a server sends it: its lines, each after "data: ", and a blank line. */
  function Sent(parts: seq<seq<Byte>>): seq<Byte> {
    if parts == [] then [LF] else DATA + [SPACE] + parts[0] + [LF] + Sent(parts[1..])
  }

  function SentAll(events: seq<seq<seq<Byte>>>): seq<Byte> {
    if events == [] then [] else SentAll(events[..|events| - 1]) + Sent(events[|events| - 1])
  }

  /** Lines joined by line feeds, from the first to the last. */
  function Glued(parts: seq<seq<Byte>>): seq<Byte>
    requires parts != []
  {
    if |parts| == 1 then parts[0]
    else Glued(parts[..|parts| - 1]) + [LF] + parts[|parts| - 1]
  }

  predicate Plain(line: seq<Byte>) {
    LF !in line && CR !in line
  }

  predicate AllPlain(parts: seq<seq<Byte>>) {
    forall i :: 0 <= i < |parts| ==> Plain(parts[i])
  }

  lemma {:induction false} JoinLast(parts: seq<seq<Byte>>, part: seq<Byte>)
    requires parts != []
    ensures Join(parts + [part]) == Join(parts) + [LF] + part
  {
    var longer := parts + [part];
    if |parts| == 1 {
      assert longer[1..] == [part];
    } else {
      assert longer[1..] == parts[1..] + [part];
      JoinLast(parts[1..], part);
    }
  }

  lemma {:induction false} JoinIsGlued(parts: seq<seq<Byte>>)
    requires parts != []
    ensures Join(parts) == Glued(parts)
    decreases |parts|
  {
    if |parts| > 1 {
      var front := parts[..|parts| - 1];
      assert parts == front + [parts[|parts| - 1]];
      JoinLast(front, parts[|parts| - 1]);
      JoinIsGlued(front);
    }
  }

  /** A line behind complete lines is one more line. */
  lemma {:induction false} OpenLine(bytes: seq<Byte>, line: seq<Byte>)
    requires Rest(bytes) == [] && LF !in line
    ensures Rest(bytes + line) == line && Lines(bytes + line) == Lines(bytes)
    decreases |line|
  {
    if line == [] {
      assert bytes + line == bytes;
    } else {
      var b := line[|line| - 1];
      assert b in line;
      assert DropLast(bytes + line) == bytes + DropLast(line);
      OpenLine(bytes, DropLast(line));
      assert DropLast(line) + [b] == line;
    }
  }

  lemma OneMoreLine(bytes: seq<Byte>, line: seq<Byte>)
    requires Rest(bytes) == [] && Plain(line)
    ensures Rest(bytes + line + [LF]) == [] && Lines(bytes + line + [LF]) == Lines(bytes) + [line]
  {
    OpenLine(bytes, line);
    assert DropLast(bytes + line + [LF]) == bytes + line;
    ChompText(line);
  }

  /** Complete lines of bytes, with an open event and the texts before it. */
  predicate Stands(bytes: seq<Byte>, data: seq<seq<Byte>>, texts: seq<seq<Byte>>) {
    Rest(bytes) == [] && OpenData(Lines(bytes)) == data && Texts(Lines(bytes)) == texts
  }

  /** The lines of one event behind complete lines. */
  lemma {:induction false} EventLines(bytes: seq<Byte>, data: seq<seq<Byte>>, texts: seq<seq<Byte>>,
                                      parts: seq<seq<Byte>>)
    requires Stands(bytes, data, texts) && AllPlain(parts) && data + parts != []
    ensures Stands(bytes + Sent(parts), [], texts + [Join(data + parts)])
    decreases |parts|
  {
    if parts == [] {
      EndOfEvent(bytes, data, texts);
      assert data + [] == data;
    } else {
      var next := DataLine(bytes, data, texts, parts[0]);
      EventLines(next, data + [parts[0]], texts, parts[1..]);
      Regroup(bytes, data, parts);
    }
  }

  lemma Regroup(bytes: seq<Byte>, data: seq<seq<Byte>>, parts: seq<seq<Byte>>)
    requires parts != []
    ensures (bytes + (DATA + [SPACE] + parts[0]) + [LF]) + Sent(parts[1..]) == bytes + Sent(parts)
    ensures (data + [parts[0]]) + parts[1..] == data + parts
  {
    var line := DATA + [SPACE] + parts[0];
    assert Sent(parts) == line + [LF] + Sent(parts[1..]);
    Grouped(bytes, line, [LF], Sent(parts[1..]));
    assert [parts[0]] + parts[1..] == parts;
  }

  lemma Grouped(a: seq<Byte>, b: seq<Byte>, c: seq<Byte>, d: seq<Byte>)
    ensures (a + b + c) + d == a + (b + c + d)
  {
  }

  lemma EndOfEvent(bytes: seq<Byte>, data: seq<seq<Byte>>, texts: seq<seq<Byte>>)
    requires Stands(bytes, data, texts) && data != []
    ensures Stands(bytes + Sent([]), [], texts + [Join(data)])
  {
    OneMoreLine(bytes, []);
    assert bytes + [] + [LF] == bytes + Sent([]);
    SameEvents(Lines(bytes), []);
  }

  lemma DataLine(bytes: seq<Byte>, data: seq<seq<Byte>>, texts: seq<seq<Byte>>, part: seq<Byte>)
    returns (next: seq<Byte>)
    requires Stands(bytes, data, texts) && Plain(part)
    ensures next == bytes + (DATA + [SPACE] + part) + [LF] && Stands(next, data + [part], texts)
  {
    var line := DATA + [SPACE] + part;
    next := bytes + line + [LF];
    OneMoreLine(bytes, line);
    SameEvents(Lines(bytes), line);
    assert line[6..] == part;
  }

  predicate Sendable(events: seq<seq<seq<Byte>>>) {
    forall i :: 0 <= i < |events| ==> events[i] != [] && AllPlain(events[i])
  }

  function AllGlued(events: seq<seq<seq<Byte>>>): seq<seq<Byte>>
    requires Sendable(events)
  {
    if events == [] then [] else AllGlued(events[..|events| - 1]) + [Glued(events[|events| - 1])]
  }

  /** Round trip: reading what a server wrote gives back the texts of its events, line by line, with
      nothing left open. */
  lemma {:induction false} SentIsRead(events: seq<seq<seq<Byte>>>)
    requires Sendable(events)
    ensures Rest(SentAll(events)) == [] && OpenData(Lines(SentAll(events))) == []
    ensures Texts(Lines(SentAll(events))) == AllGlued(events)
    decreases |events|
  {
    if events != [] {
      var front, last := events[..|events| - 1], events[|events| - 1];
      SentIsRead(front);
      EventLines(SentAll(front), [], AllGlued(front), last);
      assert [] + last == last;
      JoinIsGlued(last);
    }
  }

  /** Stripping takes blanks off both ends, and only those. */
  lemma {:induction false} StripExactly(text: seq<Byte>) returns (before: seq<Byte>, after: seq<Byte>)
    ensures text == before + Strip(text) + after
    ensures (forall b :: b in before ==> Blank(b)) && (forall b :: b in after ==> Blank(b))
    ensures Strip(text) != [] ==> !Blank(Strip(text)[0]) && !Blank(Strip(text)[|Strip(text)| - 1])
    decreases |text|
  {
    before, after := [], [];
    if text != [] {
      if Blank(text[0]) {
        var less, more := StripExactly(text[1..]);
        before, after := [text[0]] + less, more;
        Framed([text[0]], less, Strip(text), more, []);
        assert text == [text[0]] + text[1..] + [];
      } else if Blank(text[|text| - 1]) {
        var less, more := StripExactly(DropLast(text));
        before, after := less, more + [text[|text| - 1]];
        Framed([], less, Strip(text), more, [text[|text| - 1]]);
        assert text == [] + DropLast(text) + [text[|text| - 1]];
      }
    }
  }

  lemma Framed(a: seq<Byte>, b: seq<Byte>, c: seq<Byte>, d: seq<Byte>, e: seq<Byte>)
    ensures a + (b + c + d) + e == (a + b) + c + (d + e)
  {
  }
}
