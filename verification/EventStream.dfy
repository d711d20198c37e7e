/** Framing of an event stream: bytes become lines, and lines become events. */
module EventStream {
  // An empty line dispatches what the fields before it have collected.  Only LF ends a line, one
  // trailing CR is dropped, and data lines are joined with LF once some data is there.

  import opened GoText
  import Machines

  const MAX_EVENT: nat := 1048576

  /** What the lines since the last dispatch have collected. */
  datatype Pending = Pending(data: bytes, event: bytes)

  datatype Framer = Framer(line: bytes, pending: Pending)

  datatype Dispatch = Dispatch(event: bytes, data: bytes)

  type Lined = Machines.Outcome<Pending, Dispatch>
  type Framed = Machines.Outcome<Framer, Dispatch>

  const EMPTY := Pending("", "")
  const OPEN := Framer("", EMPTY)

  // ---- Lines -----------------------------------------------------------------------------

  function WithoutReturn(line: bytes): bytes {
    if |line| > 0 && line[|line| - 1] == '\r' then line[..|line| - 1] else line
  }

  /** Where the first colon is, or the length of the line. */
  function Colon(line: bytes): (n: nat)
    ensures n <= |line| && (n < |line| ==> line[n] == ':') && forall i :: 0 <= i < n ==> line[i] != ':'
  {
    if |line| == 0 || line[0] == ':' then 0 else Colon(line[1..]) + 1
  }

  function FieldName(line: bytes): bytes {
    line[..Colon(line)]
  }

  function FieldValue(line: bytes): bytes {
    var value := if Colon(line) < |line| then line[Colon(line) + 1..] else "";
    if |value| > 0 && value[0] == ' ' then value[1..] else value
  }

  function Joined(data: bytes, value: bytes): bytes {
    if |data| == 0 then value else data + "\n" + value
  }

  /** sseLine, with the dispatch left to whoever consumes the events. */
  function LineStep(p: Pending, line: bytes): Lined {
    if |line| == 0 then Machines.Advance(EMPTY, if |p.data| == 0 then [] else [Dispatch(p.event, p.data)])
    else if line[0] == ':' then Machines.Advance(p, [])
    else if FieldName(line) == "event" then Machines.Advance(p.(event := FieldValue(line)), [])
    else if FieldName(line) == "data" then
      if |p.data| + |FieldValue(line)| + 1 > MAX_EVENT then Machines.Reject
      else Machines.Advance(p.(data := Joined(p.data, FieldValue(line))), [])
    else Machines.Advance(p, [])
  }

  /** A line as it arrives, before its carriage return is dropped. */
  function RawLine(p: Pending, line: bytes): Lined {
    if |line| > MAX_EVENT then Machines.Reject else LineStep(p, WithoutReturn(line))
  }

  // ---- Bytes ---------------------------------------------------------------------------------

  function Step(f: Framer, b: char): Framed {
    if b == '\n' then
      match LineStep(f.pending, WithoutReturn(f.line))
      case Reject => Machines.Reject
      case Advance(p, ds) => Machines.Advance(Framer("", p), ds)
    else if |f.line| >= MAX_EVENT then Machines.Reject
    else Machines.Advance(f.(line := f.line + [b]), [])
  }

  function Frame(f: Framer, text: bytes): Framed {
    Machines.Run(Step, f, text)
  }

  // ---- A text is its lines ----------------------------------------------------------------------

  /** The complete lines of a text. */
  function Lines(text: bytes): seq<bytes> {
    if |text| == 0 then []
    else
      var last := text[|text| - 1];
      var front := text[..|text| - 1];
      if last == '\n' then Lines(front) + [Rest(front)] else Lines(front)
  }

  /** What follows the last LF. */
  function Rest(text: bytes): (r: bytes)
    ensures |r| <= |text|
  {
    if |text| == 0 then ""
    else if text[|text| - 1] == '\n' then "" else Rest(text[..|text| - 1]) + [text[|text| - 1]]
  }

  function Terminated(lines: seq<bytes>): bytes {
    if |lines| == 0 then "" else Terminated(lines[..|lines| - 1]) + lines[|lines| - 1] + "\n"
  }

  /** Lines and rest are the text cut at every LF. */
  lemma {:induction false} CutAtEveryLine(text: bytes)
    ensures Terminated(Lines(text)) + Rest(text) == text
    ensures forall l :: l in Lines(text) ==> '\n' !in l
    ensures '\n' !in Rest(text)
  {
    if |text| > 0 {
      var front, last := text[..|text| - 1], text[|text| - 1];
      CutAtEveryLine(front);
      assert text == front + [last];
      if last == '\n' {
        var lines := Lines(front);
        assert (lines + [Rest(front)])[..|lines|] == lines;
        assert Terminated(Lines(text)) + "" == Terminated(Lines(text));
      } else {
        assert Terminated(Lines(front)) + (Rest(front) + [last]) == Terminated(Lines(front)) + Rest(front) + [last];
      }
    }
  }

  /** The outcome of a text, line by line. */
  function ByLine(p: Pending, lines: seq<bytes>, rest: bytes): Framed {
    match Machines.Run(RawLine, p, lines)
    case Reject => Machines.Reject
    case Advance(p1, ds) => if |rest| > MAX_EVENT then Machines.Reject else Machines.Advance(Framer(rest, p1), ds)
  }

  /** Framing byte by byte is framing line by line. */
  lemma {:induction false} FrameByLine(p: Pending, text: bytes)
    ensures Frame(Framer("", p), text) == ByLine(p, Lines(text), Rest(text))
  {
    if |text| > 0 {
      hide LineStep;
      var front, last := text[..|text| - 1], text[|text| - 1];
      FrameByLine(p, front);
      var lines := Lines(front);
      if last == '\n' {
        assert (lines + [Rest(front)])[..|lines|] == lines;
      } else {
        match Machines.Run(RawLine, p, lines) {
          case Reject =>
          case Advance(p1, ds) => assert ds + [] == ds;
        }
      }
    }
  }

  // ---- Lines and events -----------------------------------------------------------------------------

  predicate IsField(line: bytes, name: bytes) {
    |line| > 0 && line[0] != ':' && FieldName(line) == name
  }

  /** The values of the data lines, in order. */
  function DataValues(lines: seq<bytes>): seq<bytes> {
    if |lines| == 0 then []
    else DataValues(lines[..|lines| - 1]) + (if IsField(lines[|lines| - 1], "data") then [FieldValue(lines[|lines| - 1])] else [])
  }

  function LastEvent(lines: seq<bytes>, default: bytes): bytes {
    if |lines| == 0 then default
    else if IsField(lines[|lines| - 1], "event") then FieldValue(lines[|lines| - 1]) else LastEvent(lines[..|lines| - 1], default)
  }

  function DropEmpty(values: seq<bytes>): seq<bytes> {
    if |values| > 0 && values[0] == "" then DropEmpty(values[1..]) else values
  }

  function Lf(values: seq<bytes>): bytes {
    if |values| == 0 then "" else if |values| == 1 then values[0] else Lf(values[..|values| - 1]) + "\n" + values[|values| - 1]
  }

  lemma {:induction false} DropEmptyGrows(values: seq<bytes>, v: bytes)
    ensures DropEmpty(values + [v]) == if DropEmpty(values) == [] && v == "" then [] else DropEmpty(values) + [v]
  {
    if |values| == 0 {
      assert values + [v] == [v];
      if v == "" { assert [v][1..] == []; }
    } else {
      assert (values + [v])[1..] == values[1..] + [v];
      DropEmptyGrows(values[1..], v);
    }
  }

  lemma {:induction false} DropEmptyHead(values: seq<bytes>)
    ensures |DropEmpty(values)| > 0 ==> |DropEmpty(values)[0]| > 0
  {
    if |values| > 0 && values[0] == "" { DropEmptyHead(values[1..]); }
  }

  lemma {:induction false} LfNonEmpty(values: seq<bytes>)
    requires |values| > 0 && |values[0]| > 0
    ensures |Lf(values)| > 0
  {
    if |values| > 1 { LfNonEmpty(values[..|values| - 1]); }
  }

  /** One line of an event: the data grows, the name changes, or nothing happens. */
  lemma CollectLine(p: Pending, line: bytes)
    requires |line| > 0 && LineStep(p, line).Advance?
    ensures LineStep(p, line) == Machines.Advance(Pending(if IsField(line, "data") then Joined(p.data, FieldValue(line)) else p.data,
                                                          if IsField(line, "event") then FieldValue(line) else p.event), [])
  {
    hide FieldName, FieldValue, Joined;
    assert "data" != "event";
  }

  lemma DataKept(front: seq<bytes>, last: bytes)
    requires !IsField(last, "data")
    ensures DataValues(front + [last]) == DataValues(front)
  {
    hide IsField;
    assert (front + [last])[..|front|] == front;
    assert DataValues(front) + [] == DataValues(front);
  }

  /** Lines of one event, up to the empty line that dispatches it: the data is the data
      values joined with LF, except that leading empty ones vanish. */
  lemma {:induction false} CollectEvent(lines: seq<bytes>)
    requires forall l :: l in lines ==> |l| > 0
    ensures var r := Machines.Run(LineStep, EMPTY, lines);
      r.Advance? ==> r == Machines.Advance(Pending(Lf(DropEmpty(DataValues(lines))), LastEvent(lines, "")), [])
  {
    if |lines| > 0 {
      hide LineStep, DataValues, DropEmpty, Lf, IsField, FieldValue, Joined;
      var front, last := lines[..|lines| - 1], lines[|lines| - 1];
      CollectEvent(front);
      assert last in lines && front + [last] == lines;
      if Machines.Run(LineStep, EMPTY, lines).Advance? {
        CollectLine(Machines.Run(LineStep, EMPTY, front).next, last);
        if IsField(last, "data") { GrowData(front, last); } else { DataKept(front, last); }
      }
    }
  }

  lemma GrowData(front: seq<bytes>, last: bytes)
    requires IsField(last, "data")
    ensures Lf(DropEmpty(DataValues(front + [last]))) == Joined(Lf(DropEmpty(DataValues(front))), FieldValue(last))
  {
    var kept, v := DropEmpty(DataValues(front)), FieldValue(last);
    assert (front + [last])[..|front|] == front;
    DropEmptyGrows(DataValues(front), v);
    DropEmptyHead(DataValues(front));
    if |kept| > 0 {
      LfNonEmpty(kept);
      assert (kept + [v])[..|kept|] == kept;
    } else {
      assert kept + [v] == [v];
    }
  }

  // ---- Writing events -----------------------------------------------------------------------------------

  /** An event as the gateway writes one itself. */
  function Rendered(event: bytes, data: bytes): bytes {
    Terminated(["event: " + event, "data: " + data, ""])
  }

  predicate OneLine(s: bytes) {
    '\n' !in s && (|s| > 0 ==> s[|s| - 1] != '\r')
  }

  lemma {:induction false} LinesOfTerminated(lines: seq<bytes>)
    requires forall l :: l in lines ==> '\n' !in l
    ensures Lines(Terminated(lines)) == lines && Rest(Terminated(lines)) == ""
  {
    if |lines| > 0 {
      var front, last := lines[..|lines| - 1], lines[|lines| - 1];
      LinesOfTerminated(front);
      assert last in lines;
      LinesAppend(Terminated(front), last);
      var text := Terminated(front) + last;
      assert Terminated(lines)[..|text|] == text;
    }
  }

  lemma {:induction false} LinesAppend(text: bytes, more: bytes)
    requires '\n' !in more && Rest(text) == ""
    ensures Lines(text + more) == Lines(text) && Rest(text + more) == more
  {
    if |more| == 0 {
      assert text + more == text;
    } else {
      assert (text + more)[..|text + more| - 1] == text + more[..|more| - 1];
      LinesAppend(text, more[..|more| - 1]);
    }
  }

  lemma ReadNamed(name: bytes, value: bytes)
    requires name in {"event", "data"}
    ensures IsField(name + ": " + value, name) && FieldValue(name + ": " + value) == value
  {
    var line := name + ": " + value;
    assert line[|name|] == ':';
    assert forall i :: 0 <= i < |name| ==> line[i] == name[i] && name[i] != ':';
    assert Colon(line) == |name|;
    assert line[..|name|] == name;
    assert line[|name| + 1..] == " " + value;
    assert (" " + value)[1..] == value;
  }

  lemma ReadEventLine(event: bytes)
    requires OneLine(event) && |event| + 7 <= MAX_EVENT
    ensures RawLine(EMPTY, "event: " + event) == Machines.Advance(Pending("", event), []) && '\n' !in "event: " + event
  {
    ReadNamed("event", event);
    var line := "event: " + event;
    assert line == "event" + ": " + event;
    assert line[|line| - 1] != '\r';
    hide FieldName, FieldValue;
  }

  lemma ReadDataLine(event: bytes, data: bytes)
    requires OneLine(data) && |data| + 6 <= MAX_EVENT
    ensures RawLine(Pending("", event), "data: " + data) == Machines.Advance(Pending(data, event), []) && '\n' !in "data: " + data
  {
    ReadNamed("data", data);
    var line := "data: " + data;
    assert line == "data" + ": " + data;
    assert line[|line| - 1] != '\r';
    assert "data" != "event";
    hide FieldName, FieldValue;
  }

  lemma ThreeLines(a: bytes, b: bytes, c: bytes, p: Pending, q: Pending, d: Dispatch)
    requires RawLine(EMPTY, a) == Machines.Advance(p, []) && RawLine(p, b) == Machines.Advance(q, []) && RawLine(q, c) == Machines.Advance(EMPTY, [d])
    ensures Machines.Run(RawLine, EMPTY, [a, b, c]) == Machines.Advance(EMPTY, [d])
  {
    hide RawLine;
    var lines := [a, b, c];
    assert lines[..2] == [a, b] && [a, b][..1] == [a] && [a][..0] == [];
    Machines.RunOne(RawLine, EMPTY, a);
    assert Machines.Run(RawLine, EMPTY, [a, b]) == Machines.Advance(q, []);
  }

  lemma DispatchAtBlank(event: bytes, data: bytes)
    requires |data| > 0
    ensures RawLine(Pending(data, event), "") == Machines.Advance(EMPTY, [Dispatch(event, data)])
  {
  }

  lemma NoLineFeed(a: bytes, b: bytes)
    requires '\n' !in a && '\n' !in b
    ensures forall l :: l in [a, b, ""] ==> '\n' !in l
  {
  }

  /** What is written is read back as one event. */
  lemma RenderedIsRead(event: bytes, data: bytes)
    requires OneLine(event) && OneLine(data) && |data| > 0 && |event| + 7 <= MAX_EVENT && |data| + 6 <= MAX_EVENT
    ensures Frame(OPEN, Rendered(event, data)) == Machines.Advance(OPEN, [Dispatch(event, data)])
  {
    var a, b := "event: " + event, "data: " + data;
    assert Rendered(event, data) == Terminated([a, b, ""]);
    hide RawLine, LineStep, Terminated, Lines, Rest, Machines.Run, Rendered, OneLine;
    ReadEventLine(event);
    ReadDataLine(event, data);
    DispatchAtBlank(event, data);
    NoLineFeed(a, b);
    LinesOfTerminated([a, b, ""]);
    FrameByLine(EMPTY, Rendered(event, data));
    ThreeLines(a, b, "", Pending("", event), Pending(data, event), Dispatch(event, data));
  }
}
