/** The event stream TabbyAPI answers a load with, read line by line. */
module TabbyStream {
  import opened Basics

  /** One received line: an "event: error" field, a data field, the blank line that ends an event,
      anything else, or bytes that are not UTF-8. */
  datatype Line = ErrorEvent | Data(text: string) | Blank | Other | Undecodable

  /** What the joined data of one event parses to. */
  datatype Event =
    | Malformed | NotAnObject | BadError | GoodError(vram: bool) | Progress(finished: bool)

  datatype Verdict = Completed | LoadFailed(vram: bool) | Unconfirmed

  // ---------------------------------------------------------------- what a stream says

  function Last<T>(s: seq<T>): T
    requires s != []
  {
    s[|s| - 1]
  }

  function Front<T>(s: seq<T>): seq<T>
    requires s != []
  {
    s[..|s| - 1]
  }

  /** The data lines of the event still open at the end. */
  function Tail(lines: seq<Line>): seq<string> {
    if lines == [] then []
    else match Last(lines)
      case Data(text) => Tail(Front(lines)) + [text]
      case Blank => []
      case _ => Tail(Front(lines))
  }

  /** The data of the events that a blank line completed. */
  function Blocks(lines: seq<Line>): seq<seq<string>> {
    if lines == [] then []
    else if Last(lines).Blank? && Tail(Front(lines)) != []
    then Blocks(Front(lines)) + [Tail(Front(lines))]
    else Blocks(Front(lines))
  }

  function Events(lines: seq<Line>, parse: seq<string> -> Event): (es: seq<Event>)
    ensures |es| == |Blocks(lines)|
    ensures forall i :: 0 <= i < |es| ==> es[i] == parse(Blocks(lines)[i])
  {
    seq(|Blocks(lines)|, i requires 0 <= i < |Blocks(lines)| => parse(Blocks(lines)[i]))
  }

  predicate Readable(lines: seq<Line>) {
    forall i :: 0 <= i < |lines| ==> !lines[i].ErrorEvent? && !lines[i].Undecodable?
  }

  /** Progress, then errors: nothing but well-formed errors follows the first error. */
  predicate Orderly(es: seq<Event>) {
    && (forall i :: 0 <= i < |es| ==> es[i].Progress? || es[i].GoodError?)
    && (forall i, j :: 0 <= i < j < |es| && es[i].GoodError? ==> es[j].GoodError?)
  }

  predicate Reports(es: seq<Event>) {
    exists i :: 0 <= i < |es| && es[i].GoodError?
  }

  predicate ReportsVram(es: seq<Event>) {
    exists i :: 0 <= i < |es| && es[i] == GoodError(true)
  }

  predicate Finishes(es: seq<Event>) {
    exists i :: 0 <= i < |es| && es[i] == Progress(true)
  }

  /** The stream came to its end, and every byte of it was understood. */
  predicate CleanEnd(lines: seq<Line>, ended: bool) {
    ended && Readable(lines) && Tail(lines) == []
  }

  // ---------------------------------------------------------------- the reader

  /** Reads the lines as they arrive. ended is false when the connection broke after them. The load
      counts as failed exactly when the stream ended cleanly and its events are progress followed by
      at least one well-formed error and nothing else. */
  method ReadLoad(lines: seq<Line>, ended: bool, parse: seq<string> -> Event)
    returns (verdict: Verdict)
    ensures var es := Events(lines, parse);
            && (verdict.LoadFailed? <==> CleanEnd(lines, ended) && Orderly(es) && Reports(es))
            && (verdict.LoadFailed? ==> verdict.vram == ReportsVram(es))
            && (verdict == Completed <==>
                  CleanEnd(lines, ended) && Orderly(es) && !Reports(es) && Finishes(es))
  {
    var data: seq<string> := [];
    var finished, failed, vram := false, false, false;
    var i := 0;
    while i < |lines|
      invariant 0 <= i <= |lines|
      invariant data == Tail(lines[..i])
      invariant Readable(lines[..i])
      invariant Orderly(Events(lines[..i], parse))
      invariant failed == Reports(Events(lines[..i], parse))
      invariant vram == ReportsVram(Events(lines[..i], parse))
      invariant finished == Finishes(Events(lines[..i], parse))
    {
      ghost var before := Events(lines[..i], parse);
      assert Front(lines[..i + 1]) == lines[..i] && Last(lines[..i + 1]) == lines[i];
      EventsExtend(lines, i, parse);
      match lines[i] {
        case Undecodable =>
          return Unconfirmed;
        case ErrorEvent =>
          return Unconfirmed;
        case Data(text) =>
          data := data + [text];
        case Other =>
        case Blank =>
          if data != [] {
            var event := parse(data);
            data := [];
            assert Events(lines[..i + 1], parse) == before + [event];
            match event {
              case Malformed =>
                BadEvent(lines, i, parse);
                return Unconfirmed;
              case NotAnObject =>
                BadEvent(lines, i, parse);
                return Unconfirmed;
              case BadError =>
                BadEvent(lines, i, parse);
                return Unconfirmed;
              case GoodError(memory) =>
                AddEvent(before, event);
                failed := true;
                vram := vram || memory;
              case Progress(last) =>
                if failed {
                  BadEvent(lines, i, parse);
                  return Unconfirmed;
                }
                AddEvent(before, event);
                finished := finished || last;
            }
          }
      }
      i := i + 1;
    }
    assert lines[..|lines|] == lines;
    if !ended || data != [] || !(finished || failed) {
      return Unconfirmed;
    }
    return if failed then LoadFailed(vram) else Completed;
  }

  /** One more line completes at most one event. */
  lemma EventsExtend(lines: seq<Line>, i: nat, parse: seq<string> -> Event)
    requires i < |lines|
    ensures var before, after := Events(lines[..i], parse), Events(lines[..i + 1], parse);
            after == if lines[i].Blank? && Tail(lines[..i]) != []
                     then before + [parse(Tail(lines[..i]))] else before
  {
    assert Front(lines[..i + 1]) == lines[..i];
  }

  /** The events of a longer stream start with those of a shorter one. */
  lemma {:induction false} EventsPrefix(lines: seq<Line>, i: nat, parse: seq<string> -> Event)
    requires i <= |lines|
    ensures Events(lines[..i], parse) <= Events(lines, parse)
    decreases |lines|
  {
    if i == |lines| {
      assert lines[..i] == lines;
    } else {
      assert Front(lines)[..i] == lines[..i];
      EventsPrefix(Front(lines), i, parse);
      EventsExtend(lines, |lines| - 1, parse);
      assert lines[..|lines| - 1 + 1] == lines;
    }
  }

  /** An event that is neither progress nor a well-formed error, or progress after an error, spoils
      the whole stream. */
  lemma BadEvent(lines: seq<Line>, i: nat, parse: seq<string> -> Event)
    requires i < |lines| && lines[i].Blank? && Tail(lines[..i]) != []
    requires var event := parse(Tail(lines[..i]));
             (!event.Progress? && !event.GoodError?)
             || (event.Progress? && Reports(Events(lines[..i], parse)))
    ensures !Orderly(Events(lines, parse))
  {
    var before, all := Events(lines[..i], parse), Events(lines, parse);
    EventsExtend(lines, i, parse);
    EventsPrefix(lines, i + 1, parse);
    assert all[|before|] == parse(Tail(lines[..i]));
    if Reports(before) {
      var k :| 0 <= k < |before| && before[k].GoodError?;
      assert all[k].GoodError?;
    }
  }

  lemma AddEvent(es: seq<Event>, e: Event)
    requires Orderly(es)
    requires e.GoodError? || (e.Progress? && !Reports(es))
    ensures Orderly(es + [e])
    ensures Reports(es + [e]) == (Reports(es) || e.GoodError?)
    ensures ReportsVram(es + [e]) == (ReportsVram(es) || e == GoodError(true))
    ensures Finishes(es + [e]) == (Finishes(es) || e == Progress(true))
  {
    var after := es + [e];
    assert after[|es|] == e;
    assert forall i :: 0 <= i < |es| ==> after[i] == es[i];
  }

  // ---------------------------------------------------------------- what a server writes is what is read

  function DataLines(texts: seq<string>): seq<Line> {
    if texts == [] then [] else DataLines(Front(texts)) + [Data(Last(texts))]
  }

  /** A stream of events: the data lines of each, and a blank line after it. */
  function Written(blocks: seq<seq<string>>): seq<Line> {
    if blocks == [] then [] else Written(Front(blocks)) + DataLines(Last(blocks)) + [Blank]
  }

  lemma {:induction false} OpenLines(lines: seq<Line>, texts: seq<string>)
    requires Tail(lines) == []
    ensures Tail(lines + DataLines(texts)) == texts && Blocks(lines + DataLines(texts)) == Blocks(lines)
  {
    if texts == [] {
      assert lines + DataLines(texts) == lines;
    } else {
      var before := lines + DataLines(Front(texts));
      OpenLines(lines, Front(texts));
      OneMoreText(before, Last(texts));
      assert lines + DataLines(texts) == before + [Data(Last(texts))];
      assert Front(texts) + [Last(texts)] == texts;
    }
  }

  lemma OneMoreText(lines: seq<Line>, text: string)
    ensures Tail(lines + [Data(text)]) == Tail(lines) + [text] && Blocks(lines + [Data(text)]) == Blocks(lines)
  {
    assert Front(lines + [Data(text)]) == lines;
  }

  /** Round trip: the events read from a stream are the events written to it, line by line and in order. */
  lemma {:induction false} WrittenIsRead(blocks: seq<seq<string>>)
    requires forall i :: 0 <= i < |blocks| ==> blocks[i] != []
    ensures Tail(Written(blocks)) == [] && Blocks(Written(blocks)) == blocks
  {
    if blocks != [] {
      var before := Written(Front(blocks));
      WrittenIsRead(Front(blocks));
      OpenLines(before, Last(blocks));
      var lines := before + DataLines(Last(blocks));
      assert Front(lines + [Blank]) == lines;
      assert Front(blocks) + [Last(blocks)] == blocks;
    }
  }

  /** A line that is no field of an event says nothing, wherever it stands. */
  lemma {:induction false} OthersSayNothing(a: seq<Line>, b: seq<Line>)
    ensures Tail(a + [Other] + b) == Tail(a + b) && Blocks(a + [Other] + b) == Blocks(a + b)
  {
    var with, without := a + [Other] + b, a + b;
    if b == [] {
      assert without == a && with == a + [Other] && Front(with) == a;
    } else {
      OthersSayNothing(a, Front(b));
      assert Front(with) == a + [Other] + Front(b) && Front(without) == a + Front(b);
      assert Last(with) == Last(b) && Last(without) == Last(b);
    }
  }

  /** Nor does a blank line between events. */
  lemma {:induction false} BlanksSayNothing(a: seq<Line>, b: seq<Line>)
    requires Tail(a) == []
    ensures Tail(a + [Blank] + b) == Tail(a + b) && Blocks(a + [Blank] + b) == Blocks(a + b)
  {
    var with, without := a + [Blank] + b, a + b;
    if b == [] {
      assert without == a && with == a + [Blank] && Front(with) == a;
    } else {
      BlanksSayNothing(a, Front(b));
      assert Front(with) == a + [Blank] + Front(b) && Front(without) == a + Front(b);
      assert Last(with) == Last(b) && Last(without) == Last(b);
    }
  }
}
