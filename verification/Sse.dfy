/** internal/sse/sse.go: the event stream reader and writer. */
module Sse {
  import opened Basics

  datatype Event = Event(id: string, event: string, data: string)

  const BLANK := Event("", "", "")

  // ---- Strings, as the Go standard library treats them ----

  function IndexOf(s: string, c: char): (i: nat)
    ensures i <= |s| && (i < |s| ==> s[i] == c) && c !in s[..i]
  {
    if s == "" || s[0] == c then 0 else
    var i := IndexOf(s[1..], c) + 1;
    assert s[..i] == [s[0]] + s[1..][..i - 1];
    i
  }

  /** strings.TrimRight(s, "\r\n") */
  function TrimRight(s: string): (r: string)
    ensures r <= s && (r == "" || (Last(r) != '\r' && Last(r) != '\n'))
  {
    if s != "" && (Last(s) == '\r' || Last(s) == '\n') then TrimRight(Front(s)) else s
  }

  // ---- Lines ----

  datatype Line = Line(text: string, rest: string, eof: bool)

  /** One line off the front: up to a line feed, or whatever is left at the end of the input. */
  function NextLine(s: string): (l: Line)
    ensures |l.rest| <= |s| && (!l.eof ==> |l.rest| < |s|) && (l.eof ==> l.rest == "")
  {
    var i := IndexOf(s, '\n');
    if i < |s| then Line(TrimRight(s[..i + 1]), s[i + 1..], false) else Line(TrimRight(s), "", true)
  }

  // ---- Fields ----

  function FieldOf(line: string): string {
    line[..IndexOf(line, ':')]
  }

  /** What follows the first colon, less one leading space. */
  function ValueOf(line: string): string {
    var i := IndexOf(line, ':');
    if i == |line| then "" else if |line| > i + 1 && line[i + 1] == ' ' then line[i + 2..] else line[i + 1..]
  }

  datatype Pending = Pending(evt: Event, hasData: bool)

  const NOTHING := Pending(BLANK, false)

  function AddField(p: Pending, field: string, value: string): Pending {
    if field == "data" then
      Pending(p.evt.(data := if p.hasData then p.evt.data + "\n" + value else value), true)
    else if field == "event" then p.(evt := p.evt.(event := value))
    else if field == "id" then p.(evt := p.evt.(id := value))
    else p
  }

  /** The rest of one ReadEvent: the event, or None at the end of the input, and the input left. */
  function ReadFrom(s: string, p: Pending): (r: (Option<Event>, string))
    ensures |r.1| <= |s| && (r.0.Some? && !p.hasData ==> |r.1| < |s|)
    decreases |s|
  {
    var l := NextLine(s);
    if l.text == "" then
      if p.hasData then (Some(p.evt), l.rest) else if l.eof then (None, l.rest) else ReadFrom(l.rest, p)
    else if l.text[0] == ':' then
      if l.eof then (None, l.rest) else ReadFrom(l.rest, p)
    else
      var q := AddField(p, FieldOf(l.text), ValueOf(l.text));
      if l.eof then (if q.hasData then Some(q.evt) else None, l.rest) else ReadFrom(l.rest, q)
  }

  /** Repeated ReadEvent until it reports the end of the input. */
  function ReadAll(s: string): seq<Event>
    decreases |s|
  {
    var (e, rest) := ReadFrom(s, NOTHING);
    if e.None? then [] else [e.value] + ReadAll(rest)
  }

  class Reader {
    var rest: string    // the input not yet read

    constructor (input: string)
      ensures rest == input
    {
      rest := input;
    }

    /** One line; err at the end of the input. */
    method ReadLine() returns (line: string, err: bool)
      modifies this
      ensures Line(line, rest, err) == NextLine(old(rest))
    {
      var i := IndexOf(rest, '\n');
      if i == |rest| {
        line, rest := TrimRight(rest), "";
        return line, true;
      }
      line, rest := TrimRight(rest[..i + 1]), rest[i + 1..];
      err := false;
    }

    /** The next event, or None at the end of the input. */
    method ReadEvent() returns (r: Option<Event>)
      modifies this
      ensures (r, rest) == ReadFrom(old(rest), NOTHING)
    {
      var evt, hasData := BLANK, false;
      while true
        invariant ReadFrom(rest, Pending(evt, hasData)) == ReadFrom(old(rest), NOTHING)
        decreases |rest|
      {
        var line, err := ReadLine();
        if line == "" {
          if hasData {
            return Some(evt);
          }
          if err {
            return None;
          }
          continue;
        }
        if line[0] == ':' {
          if err {
            return None;
          }
          continue;
        }
        var field, value := FieldOf(line), ValueOf(line);
        if field == "data" {
          if hasData {
            evt := evt.(data := evt.data + "\n" + value);
          } else {
            evt, hasData := evt.(data := value), true;
          }
        } else if field == "event" {
          evt := evt.(event := value);
        } else if field == "id" {
          evt := evt.(id := value);
        }
        if err {
          return if hasData then Some(evt) else None;
        }
      }
    }
  }

  // ---- The writer ----

  function DataLine(data: string): string {
    "data: " + data + "\n\n"
  }

  function EventLine(event: string): string {
    "event: " + event + "\n"
  }

  class Writer {
    var written: string

    constructor ()
      ensures written == ""
    {
      written := "";
    }

    method WriteEvent(data: string)
      modifies this
      ensures written == old(written) + DataLine(data)
    {
      written := written + ("data: " + data + "\n\n");
    }

    method WriteNamedEvent(event: string, data: string)
      modifies this
      ensures written == old(written) + (EventLine(event) + DataLine(data))
    {
      written := written + ("event: " + event + "\n" + ("data: " + data + "\n\n"));
    }

    method WriteDone()
      modifies this
      ensures written == old(written) + DataLine("[DONE]")
    {
      WriteEvent("[DONE]");
    }
  }

  // ---- Reading back what was written ----

  /** Text that fits on one line of the format. */
  predicate OneLine(s: string) {
    '\n' !in s && (s == "" || Last(s) != '\r')
  }

  lemma {:induction false} IndexOfFirst(a: string, c: char, rest: string)
    requires c !in a
    ensures IndexOf(a + [c] + rest, c) == |a|
  {
    var s := a + [c] + rest;
    if a == "" {
      assert s[0] == c;
    } else {
      assert s[0] == a[0] && s[1..] == a[1..] + [c] + rest;
      IndexOfFirst(a[1..], c, rest);
    }
  }

  lemma {:induction false} TrimEnd(s: string)
    requires s == "" || (Last(s) != '\r' && Last(s) != '\n')
    ensures TrimRight(s + "\n") == s
  {
    SnocParts(s, '\n');
    assert s + "\n" == s + ['\n'];
  }

  /** A line of a field whose value fits on one line reads as that field and that value. */
  lemma {:induction false} WrittenField(name: string, value: string, rest: string)
    requires name != "" && ':' !in name && '\n' !in name && OneLine(value)
    ensures var l := NextLine(name + ": " + value + "\n" + rest);
            && l == Line(name + ": " + value, rest, false)
            && l.text != "" && l.text[0] == name[0] != ':'
            && FieldOf(l.text) == name && ValueOf(l.text) == value
  {
    hide NextLine, FieldOf, ValueOf;
    FieldFits(name, value);
    OneLineRead(name + ": " + value, rest);
    FieldParts(name, value);
  }

  lemma {:induction false} FieldFits(name: string, value: string)
    requires '\n' !in name && OneLine(value)
    ensures OneLine(name + ": " + value)
  {
    var line := name + ": " + value;
    assert Last(line) == if value == "" then ' ' else Last(value);
  }

  lemma {:induction false} OneLineRead(line: string, rest: string)
    requires OneLine(line)
    ensures NextLine(line + "\n" + rest) == Line(line, rest, false)
  {
    hide IndexOf, TrimRight;
    var s := line + "\n" + rest;
    assert s == line + ['\n'] + rest;
    IndexOfFirst(line, '\n', rest);
    assert s[..|line| + 1] == line + "\n" && s[|line| + 1..] == rest;
    NotLineEnd(line);
    TrimEnd(line);
  }

  lemma {:induction false} FieldParts(name: string, value: string)
    requires name != "" && ':' !in name
    ensures var line := name + ": " + value;
            line[0] == name[0] != ':' && FieldOf(line) == name && ValueOf(line) == value
  {
    hide IndexOf;
    var line := name + ": " + value;
    assert line == name + [':'] + (" " + value);
    IndexOfFirst(name, ':', " " + value);
    assert line[..|name|] == name && line[|name| + 2..] == value && line[|name| + 1] == ' ';
  }

  lemma {:induction false} NotLineEnd(value: string)
    requires OneLine(value)
    ensures value != "" ==> Last(value) != '\n' && Last(value) != '\r'
  {
    if value != "" {
      assert Last(value) in value;
    }
  }

  /** A blank line dispatches the pending event. */
  lemma {:induction false} BlankLine(rest: string, p: Pending)
    requires p.hasData
    ensures ReadFrom("\n" + rest, p) == (Some(p.evt), rest)
  {
    var s := "\n" + rest;
    assert s == "" + ['\n'] + rest;
    IndexOfFirst("", '\n', rest);
    assert s[..1] == "" + "\n" && s[1..] == rest;
    TrimEnd("");
  }

  lemma {:induction false} ReadField(name: string, value: string, rest: string, p: Pending)
    requires name != "" && ':' !in name && '\n' !in name && OneLine(value)
    ensures ReadFrom(name + ": " + value + "\n" + rest, p) == ReadFrom(rest, AddField(p, name, value))
  {
    hide NextLine, FieldOf, ValueOf, AddField, OneLine;
    WrittenField(name, value, rest);
  }

  /** Data after an optional event name: empty data, leading spaces and colons all survive. */
  lemma {:induction false} DataRoundTrip(data: string, rest: string, event: string)
    requires OneLine(data)
    ensures ReadFrom(DataLine(data) + rest, Pending(Event("", event, ""), false))
            == (Some(Event("", event, data)), rest)
  {
    hide ReadFrom, OneLine;
    assert DataLine(data) + rest == "data" + ": " + data + "\n" + ("\n" + rest);
    ReadField("data", data, "\n" + rest, Pending(Event("", event, ""), false));
    BlankLine(rest, Pending(Event("", event, data), true));
  }

  datatype Written = Plain(data: string) | Named(event: string, data: string)

  function Written1(w: Written): string {
    match w
    case Plain(data) => DataLine(data)
    case Named(event, data) => EventLine(event) + DataLine(data)
  }

  function WrittenAll(ws: seq<Written>): string {
    if ws == [] then "" else Written1(ws[0]) + WrittenAll(ws[1..])
  }

  function Expected(w: Written): Event {
    match w
    case Plain(data) => Event("", "", data)
    case Named(event, data) => Event("", event, data)
  }

  predicate Fits(w: Written) {
    OneLine(w.data) && (w.Named? ==> OneLine(w.event))
  }

  lemma {:induction false} EndOfInput()
    ensures ReadFrom("", NOTHING) == (None, "")
  {
    assert IndexOf("", '\n') == 0;
  }

  // ---- Reading any event, whatever lines it is written in ----

  /** The lines of the format: a field with its colon and perhaps one space, a field name alone, a comment. */
  datatype FieldLine = Field(name: string, value: string, spaced: bool) | Bare(name: string) | Comment(text: string)

  predicate Writable(l: FieldLine) {
    match l
    case Field(name, value, spaced) =>
      name != "" && ':' !in name && '\n' !in name && OneLine(value) && (spaced || value == "" || value[0] != ' ')
    case Bare(name) => name != "" && ':' !in name && OneLine(name)
    case Comment(text) => OneLine(text)
  }

  function Shape(l: FieldLine): string {
    match l
    case Field(name, value, spaced) => name + (if spaced then ": " else ":") + value
    case Bare(name) => name
    case Comment(text) => ":" + text
  }

  predicate IsLineEnd(eol: string) {
    eol == "\n" || eol == "\r\n"
  }

  function Lines(ls: seq<FieldLine>, eol: string): string {
    if ls == [] then "" else Lines(Front(ls), eol) + (Shape(Last(ls)) + eol)
  }

  // What the lines of one event mean:

  predicate Sets(l: FieldLine, name: string) {
    !l.Comment? && l.name == name
  }

  function ValueIn(l: FieldLine): string {
    if l.Field? then l.value else ""
  }

  /** The value of the last line for a field; none reads as empty. */
  function LastValue(ls: seq<FieldLine>, name: string): string {
    if ls == [] then "" else if Sets(Last(ls), name) then ValueIn(Last(ls)) else LastValue(Front(ls), name)
  }

  function DataValues(ls: seq<FieldLine>): seq<string> {
    if ls == [] then [] else DataValues(Front(ls)) + if Sets(Last(ls), "data") then [ValueIn(Last(ls))] else []
  }

  function JoinLines(vs: seq<string>): string {
    if vs == [] then "" else if |vs| == 1 then vs[0] else JoinLines(Front(vs)) + "\n" + Last(vs)
  }

  function Meaning(ls: seq<FieldLine>): Event {
    Event(LastValue(ls, "id"), LastValue(ls, "event"), JoinLines(DataValues(ls)))
  }

  function AddLine(p: Pending, l: FieldLine): Pending {
    if l.Comment? then p else AddField(p, l.name, ValueIn(l))
  }

  function AddLines(p: Pending, ls: seq<FieldLine>): Pending {
    if ls == [] then p else AddLine(AddLines(p, Front(ls)), Last(ls))
  }

  lemma {:induction false} ShapeFits(l: FieldLine)
    requires Writable(l)
    ensures OneLine(Shape(l)) && Shape(l) != ""
  {
    match l
    case Field(name, value, spaced) =>
      var line := Shape(l);
      assert Last(line) == if value != "" then Last(value) else if spaced then ' ' else ':';
    case Bare(name) =>
    case Comment(text) =>
      assert Last(":" + text) == if text == "" then ':' else Last(text);
  }

  lemma {:induction false} LineRead(line: string, eol: string, rest: string)
    requires OneLine(line) && IsLineEnd(eol)
    ensures NextLine(line + eol + rest) == Line(line, rest, false)
  {
    if eol == "\n" {
      OneLineRead(line, rest);
    } else {
      hide IndexOf, TrimRight;
      var s, text := line + eol + rest, line + "\r";
      assert s == text + ['\n'] + rest;
      IndexOfFirst(text, '\n', rest);
      assert s[..|text| + 1] == text + "\n" && s[|text| + 1..] == rest;
      NotLineEnd(line);
      TrimBoth(line);
    }
  }

  lemma {:induction false} TrimBoth(line: string)
    requires line == "" || (Last(line) != '\r' && Last(line) != '\n')
    ensures TrimRight(line + "\r" + "\n") == line
  {
    hide TrimRight;
    TrimOne(line + "\r", '\n');
    TrimOne(line, '\r');
    assert line + "\r" + "\n" == (line + "\r") + ['\n'] && line + "\r" == line + ['\r'];
    TrimNone(line);
  }

  lemma {:induction false} TrimOne(s: string, c: char)
    requires c == '\r' || c == '\n'
    ensures TrimRight(s + [c]) == TrimRight(s)
  {
    SnocParts(s, c);
  }

  lemma {:induction false} TrimNone(s: string)
    requires s == "" || (Last(s) != '\r' && Last(s) != '\n')
    ensures TrimRight(s) == s
  {
  }

  lemma {:induction false} IndexOfNone(s: string, c: char)
    requires c !in s
    ensures IndexOf(s, c) == |s|
  {
    if s != "" {
      assert s[0] in s;
      IndexOfNone(s[1..], c);
    }
  }

  lemma {:induction false} UnspacedParts(name: string, value: string)
    requires name != "" && ':' !in name && (value == "" || value[0] != ' ')
    ensures var line := name + ":" + value; line[0] != ':' && FieldOf(line) == name && ValueOf(line) == value
  {
    hide IndexOf;
    var line := name + ":" + value;
    assert line == name + [':'] + value;
    IndexOfFirst(name, ':', value);
    assert line[..|name|] == name && line[|name| + 1..] == value;
  }

  lemma {:induction false} BareParts(name: string)
    requires name != "" && ':' !in name
    ensures name[0] != ':' && FieldOf(name) == name && ValueOf(name) == ""
  {
    assert name[..|name|] == name;
    IndexOfNone(name, ':');
  }

  /** One line is read as what it means. */
  lemma {:induction false} ReadLineOf(l: FieldLine, eol: string, rest: string, p: Pending)
    requires Writable(l) && IsLineEnd(eol)
    ensures ReadFrom(Shape(l) + eol + rest, p) == ReadFrom(rest, AddLine(p, l))
  {
    hide NextLine, FieldOf, ValueOf, AddField, OneLine;
    ShapeFits(l);
    LineRead(Shape(l), eol, rest);
    match l
    case Field(name, value, spaced) =>
      if spaced {
        FieldParts(name, value);
      } else {
        UnspacedParts(name, value);
      }
    case Bare(name) => BareParts(name);
    case Comment(text) =>
  }

  lemma {:induction false} ReadLines(ls: seq<FieldLine>, eol: string, rest: string, p: Pending)
    requires (forall i :: 0 <= i < |ls| ==> Writable(ls[i])) && IsLineEnd(eol)
    ensures ReadFrom(Lines(ls, eol) + rest, p) == ReadFrom(rest, AddLines(p, ls))
  {
    hide ReadFrom, Writable, Shape, AddLine, IsLineEnd;
    if ls == [] {
      assert "" + rest == rest;
    } else {
      var before, l := Front(ls), Last(ls);
      ReadLines(before, eol, Shape(l) + eol + rest, p);
      assert Lines(before, eol) + (Shape(l) + eol) + rest == Lines(before, eol) + (Shape(l) + eol + rest);
      ReadLineOf(l, eol, rest, AddLines(p, before));
    }
  }

  /** What has been gathered is what the lines mean. */
  lemma {:induction false} GatheredMeaning(ls: seq<FieldLine>)
    ensures AddLines(NOTHING, ls) == Pending(Meaning(ls), DataValues(ls) != [])
  {
    if ls != [] {
      var before, l := Front(ls), Last(ls);
      GatheredMeaning(before);
      if Sets(l, "data") {
        SnocParts(DataValues(before), ValueIn(l));
      } else {
        assert DataValues(before) + [] == DataValues(before);
      }
    }
  }

  /** Any event, written in whatever lines: one or many data lines, a space after the colon or none, bare
      field names, comments, unknown fields, either line end. It is read as the last id, the last event
      name and all data joined by line feeds, and nothing after its blank line is touched. The end of the
      input ends an event as a blank line does. */
  lemma {:induction false} EventIsRead(ls: seq<FieldLine>, eol: string, rest: string)
    requires (forall i :: 0 <= i < |ls| ==> Writable(ls[i])) && IsLineEnd(eol) && DataValues(ls) != []
    ensures ReadFrom(Lines(ls, eol) + (eol + rest), NOTHING)
            == (Some(Event(LastValue(ls, "id"), LastValue(ls, "event"), JoinLines(DataValues(ls)))), rest)
    ensures ReadFrom(Lines(ls, eol), NOTHING)
            == (Some(Event(LastValue(ls, "id"), LastValue(ls, "event"), JoinLines(DataValues(ls)))), "")
  {
    hide ReadFrom, Lines, DataValues, LastValue, JoinLines, Writable, IsLineEnd;
    GatheredMeaning(ls);
    ReadLines(ls, eol, eol + rest, NOTHING);
    AnyBlankLine(eol, rest, Pending(Meaning(ls), true));
    ReadLines(ls, eol, "", NOTHING);
    assert Lines(ls, eol) + "" == Lines(ls, eol);
    InputEnds(Pending(Meaning(ls), true));
  }

  /** A blank line ends an event; without data it changes nothing, and the gathered name is kept. */
  lemma {:induction false} AnyBlankLine(eol: string, rest: string, p: Pending)
    requires IsLineEnd(eol)
    ensures ReadFrom(eol + rest, p) == if p.hasData then (Some(p.evt), rest) else ReadFrom(rest, p)
  {
    hide NextLine, IsLineEnd;
    LineRead("", eol, rest);
    assert "" + eol + rest == eol + rest;
  }

  lemma {:induction false} InputEnds(p: Pending)
    ensures ReadFrom("", p) == if p.hasData then (Some(p.evt), "") else (None, "")
  {
    assert IndexOf("", '\n') == 0;
  }

  /** Several data lines, in particular, are joined by line feeds. */
  lemma {:induction false} DataLinesJoin(vs: seq<string>, rest: string)
    requires vs != [] && forall i :: 0 <= i < |vs| ==> OneLine(vs[i])
    ensures ReadFrom(DataLines(vs) + ("\n" + rest), NOTHING) == (Some(Event("", "", JoinLines(vs))), rest)
  {
    hide ReadFrom, JoinLines, OneLine;
    var ls := AsDataLines(vs);
    DataLinesAre(vs);
    EventIsRead(ls, "\n", rest);
  }

  /** A "data: " line for each value. */
  function DataLines(vs: seq<string>): string {
    if vs == [] then "" else DataLines(Front(vs)) + "data: " + Last(vs) + "\n"
  }

  function AsDataLines(vs: seq<string>): (ls: seq<FieldLine>)
    ensures |ls| == |vs|
  {
    seq(|vs|, i requires 0 <= i < |vs| => Field("data", vs[i], true))
  }

  lemma {:induction false} DataLinesAre(vs: seq<string>)
    requires forall i :: 0 <= i < |vs| ==> OneLine(vs[i])
    ensures var ls := AsDataLines(vs);
            && Lines(ls, "\n") == DataLines(vs) && DataValues(ls) == vs
            && LastValue(ls, "id") == "" && LastValue(ls, "event") == ""
            && forall i :: 0 <= i < |ls| ==> Writable(ls[i])
  {
    hide OneLine, Lines, DataValues, LastValue, Writable, DataLines;
    NoLines();
    if vs == [] {
      assert AsDataLines(vs) == [];
    } else {
      var before, v := Front(vs), Last(vs);
      DataLinesAre(before);
      assert before + [v] == vs && AsDataLines(vs) == AsDataLines(before) + [Field("data", v, true)];
      OneMoreDataLine(AsDataLines(before), v);
      DataLinesSnoc(before, v);
    }
  }

  lemma {:induction false} NoLines()
    ensures Lines([], "\n") == DataLines([]) == "" && DataValues([]) == []
    ensures LastValue([], "id") == LastValue([], "event") == ""
  {
  }

  lemma {:induction false} DataLinesSnoc(vs: seq<string>, v: string)
    ensures DataLines(vs + [v]) == DataLines(vs) + ("data: " + v + "\n")
  {
    SnocParts(vs, v);
    assert DataLines(vs) + "data: " + v + "\n" == DataLines(vs) + ("data: " + v + "\n");
  }

  lemma {:induction false} OneMoreDataLine(ls: seq<FieldLine>, v: string)
    requires OneLine(v)
    ensures var more := ls + [Field("data", v, true)];
            && Lines(more, "\n") == Lines(ls, "\n") + ("data: " + v + "\n")
            && DataValues(more) == DataValues(ls) + [v]
            && LastValue(more, "id") == LastValue(ls, "id") && LastValue(more, "event") == LastValue(ls, "event")
    ensures Writable(Field("data", v, true))
  {
    hide OneLine;
    SnocParts(ls, Field("data", v, true));
  }

  // ---- Exactly when a pending event is lost ----

  /** No line is blank, and the last one, cut short by the end of the input, is a comment. */
  predicate EndsInBareComment(s: string)
    decreases |s|
  {
    var l := NextLine(s);
    l.text != "" && if l.eof then l.text[0] == ':' else EndsInBareComment(l.rest)
  }

  /** A pending event is lost exactly when no blank line follows and the input breaks off in a comment. */
  lemma {:induction false} PendingLostIff(s: string, p: Pending)
    requires p.hasData
    ensures ReadFrom(s, p).0.None? <==> EndsInBareComment(s)
    decreases |s|
  {
    hide NextLine, FieldOf, ValueOf;
    var l := NextLine(s);
    if l.text != "" && !l.eof {
      PendingLostIff(l.rest, if l.text[0] == ':' then p else AddField(p, FieldOf(l.text), ValueOf(l.text)));
    }
  }

  /** Such an input: the data line has been read, and the comment that follows it breaks off. */
  lemma {:induction false} PendingCanBeLost()
    ensures EndsInBareComment(":") && forall p: Pending :: p.hasData ==> ReadFrom(":", p) == (None, "")
    ensures ReadFrom("data: x\n:", NOTHING) == (None, "")
  {
    assert IndexOf("", '\n') == 0 && ":"[1..] == "";
    assert NextLine(":") == Line(":", "", true);
    assert "data: x\n:" == "data" + ": " + "x" + "\n" + ":";
    assert OneLine("x");
    ReadField("data", "x", ":", NOTHING);
  }

  // ---- Exactly which events survive ----

  /** The value of a line fits on a line. */
  lemma {:induction false} ValuesFit(s: string)
    ensures OneLine(ValueOf(NextLine(s).text))
  {
    hide *;
    TextFits(s);
    ValueIsTail(NextLine(s).text);
    TailFits(NextLine(s).text, |NextLine(s).text| - |ValueOf(NextLine(s).text)|);
  }

  lemma {:induction false} ValueIsTail(line: string)
    ensures var v := ValueOf(line); |v| <= |line| && v == line[|line| - |v|..]
  {
  }

  lemma {:induction false} TailFits(t: string, i: nat)
    requires i <= |t| && OneLine(t)
    ensures OneLine(t[i..])
  {
  }

  /** A line never holds a line feed and never ends in a carriage return. */
  lemma {:induction false} TextFits(s: string)
    ensures OneLine(NextLine(s).text)
  {
    var i := IndexOf(s, '\n');
    if i < |s| {
      assert Last(s[..i + 1]) == '\n' && Front(s[..i + 1]) == s[..i];
      assert NextLine(s).text == TrimRight(s[..i]);
    } else {
      assert s[..i] == s;
    }
    PrefixHoldsNo(TrimRight(s[..i]), s[..i]);
  }

  lemma {:induction false} PrefixHoldsNo(t: string, s: string)
    requires t <= s && '\n' !in s
    ensures '\n' !in t
  {
    assert forall k :: 0 <= k < |t| ==> t[k] == s[k];
  }

  /** Event names read always fit on a line. */
  lemma {:induction false} NamesFit(s: string, p: Pending)
    requires OneLine(p.evt.event)
    ensures ReadFrom(s, p).0.Some? ==> OneLine(ReadFrom(s, p).0.value.event)
    decreases |s|
  {
    hide NextLine, ValueOf, FieldOf, OneLine;
    var l := NextLine(s);
    ValuesFit(s);
    if l.text == "" || l.text[0] == ':' {
      if !l.eof {
        NamesFit(l.rest, p);
      }
    } else {
      var q := AddField(p, FieldOf(l.text), ValueOf(l.text));
      if !l.eof {
        NamesFit(l.rest, q);
      }
    }
  }

  /** Each further data line adds less than its own length: the field name costs more than the joining
      line feed gives. */
  lemma {:induction false} DataGrowsSlowly(s: string, p: Pending)
    requires p.hasData
    ensures var r := ReadFrom(s, p).0;
            r.Some? ==> |r.value.data| <= |p.evt.data| + if |s| > 3 then |s| - 3 else 0
    decreases |s|
  {
    hide NextLine, ValueOf, FieldOf;
    var l := NextLine(s);
    LineLength(s);
    if l.text == "" || l.text[0] == ':' {
      if !l.eof {
        DataGrowsSlowly(l.rest, p);
      }
    } else {
      FieldLength(l.text);
      var q := AddField(p, FieldOf(l.text), ValueOf(l.text));
      if !l.eof {
        DataGrowsSlowly(l.rest, q);
      }
    }
  }

  lemma {:induction false} LineLength(s: string)
    ensures var l := NextLine(s); if l.eof then |l.text| <= |s| else |l.text| + 1 + |l.rest| <= |s|
  {
    var i := IndexOf(s, '\n');
    if i < |s| {
      assert Last(s[..i + 1]) == '\n';
    }
  }

  lemma {:induction false} FieldLength(line: string)
    ensures FieldOf(line) == "data" ==> |line| >= 4 && |ValueOf(line)| <= (if |line| > 5 then |line| - 5 else 0)
  {
  }

  /** Input that closes whatever event is pending, wherever the next line starts. */
  predicate Closes(s: string) {
    s == "\n" || (|s| >= 2 && s[|s| - 2] == '\n' && s[|s| - 1] == '\n')
  }

  lemma {:induction false} FirstLine(s: string, rest: string)
    requires Closes(s)
    ensures var l := NextLine(s);
            && !l.eof && NextLine(s + rest) == l.(rest := l.rest + rest)
            && (l.text != "" ==> Closes(l.rest))
  {
    hide NextLine, IndexOf, TrimRight;
    ClosingFeed(s);
    FirstLineAppend(s, rest);
    FirstLineRest(s);
    if s == "\n" {
      OnlyFeed();
    }
  }

  lemma {:induction false} ClosingFeed(s: string)
    requires Closes(s)
    ensures IndexOf(s, '\n') < |s| && (|s| >= 2 ==> IndexOf(s, '\n') <= |s| - 2)
  {
    hide IndexOf;
    var i := IndexOf(s, '\n');
    assert forall k :: 0 <= k < i ==> s[k] in s[..i];
    assert '\n' == s[if |s| >= 2 then |s| - 2 else 0];
  }

  lemma {:induction false} FirstLineAppend(s: string, rest: string)
    requires IndexOf(s, '\n') < |s|
    ensures NextLine(s + rest) == NextLine(s).(rest := NextLine(s).rest + rest)
  {
    hide IndexOf, TrimRight;
    var i := IndexOf(s, '\n');
    assert s + rest == s[..i] + ['\n'] + (s[i + 1..] + rest);
    IndexOfFirst(s[..i], '\n', s[i + 1..] + rest);
    assert (s + rest)[..i + 1] == s[..i + 1] && (s + rest)[i + 1..] == s[i + 1..] + rest;
  }

  lemma {:induction false} FirstLineRest(s: string)
    requires IndexOf(s, '\n') < |s|
    ensures !NextLine(s).eof && NextLine(s).rest == s[IndexOf(s, '\n') + 1..]
  {
    hide IndexOf, TrimRight;
  }

  lemma {:induction false} OnlyFeed()
    ensures NextLine("\n").text == ""
  {
    TrimEnd("");
    assert "" + "\n" == "\n";
    IndexOfFirst("", '\n', "");
    assert "" + ['\n'] + "" == "\n" && "\n"[..1] == "\n";
  }

  /** A pending event is settled by the first blank line: nothing after it matters. */
  lemma {:induction false} SettledByBlankLine(s: string, rest: string, p: Pending)
    requires Closes(s) && p.hasData
    ensures ReadFrom(s + rest, p).0 == ReadFrom(s, p).0
    decreases |s|
  {
    hide NextLine, ValueOf, FieldOf, Closes;
    FirstLine(s, rest);
    var l := NextLine(s);
    if l.text != "" {
      SettledByBlankLine(l.rest, rest, if l.text[0] == ':' then p else AddField(p, FieldOf(l.text), ValueOf(l.text)));
    }
  }

  /** Data that does not fit on a line never comes back: a trailing carriage return is trimmed, and text
      after a line feed comes back shorter or not at all. */
  lemma {:induction false} UnfitDataIsLost(data: string, event: string, rest: string)
    requires !OneLine(data)
    ensures ReadFrom(DataLine(data) + rest, Pending(Event("", event, ""), false)).0 != Some(Event("", event, data))
  {
    hide ReadFrom;
    var s := DataLine(data) + rest;
    var i := IndexOf(data, '\n');
    var a := data[..i];
    var line := "data: " + a;
    var more := if i < |data| then data[i + 1..] + "\n\n" else "\n";
    assert s == line + ['\n'] + (more + rest);
    DataFieldLine(a, more + rest);
    var value := ValueOf(NextLine(s).text);
    OneStep(s, event);
    SettledByBlankLine(more, rest, Pending(Event("", event, value), true));
    DataGrowsSlowly(more, Pending(Event("", event, value), true));
    if i == |data| {
      BlankLine(rest, Pending(Event("", event, value), true));
      ValuesFit(s);
    }
  }

  /** The line of data that holds no line feed: its value is the data, less trailing carriage returns. */
  lemma {:induction false} DataFieldLine(a: string, rest: string)
    requires '\n' !in a
    ensures var l := NextLine("data: " + a + ['\n'] + rest);
            && l.rest == rest && !l.eof && l.text != "" && l.text[0] != ':'
            && FieldOf(l.text) == "data" && |ValueOf(l.text)| <= |a|
  {
    hide ValueOf, FieldOf, TrimRight;
    var line := "data: " + a;
    var s := line + ['\n'] + rest;
    assert '\n' !in line;
    IndexOfFirst(line, '\n', rest);
    assert s[..|line| + 1] == line + ['\n'] && s[|line| + 1..] == rest;
    TrimmedDataLine(a);
  }

  lemma {:induction false} TrimmedDataLine(a: string)
    ensures var t := TrimRight("data: " + a + ['\n']);
            t != "" && t[0] != ':' && FieldOf(t) == "data" && |ValueOf(t)| <= |a|
  {
    hide ValueOf, FieldOf, TrimRight;
    TrimKeeps("data: ", a + ['\n']);
    assert "data: " + (a + ['\n']) == "data: " + a + ['\n'];
    TrimDrops("data: " + a);
    var t := TrimRight("data: " + a + ['\n']);
    var v := t[6..];
    assert t == "data: " + v;
    DataField(v);
  }

  lemma {:induction false} TrimDrops(line: string)
    ensures |TrimRight(line + ['\n'])| <= |line|
  {
    SnocParts(line, '\n');
  }

  lemma {:induction false} DataField(v: string)
    ensures FieldOf("data: " + v) == "data" && ValueOf("data: " + v) == v
  {
    assert "data: " + v == "data" + [':'] + (" " + v);
    IndexOfFirst("data", ':', " " + v);
  }

  /** Trimming does not reach past a character that is no line end. */
  lemma {:induction false} TrimKeeps(a: string, b: string)
    requires a != "" && Last(a) != '\r' && Last(a) != '\n'
    ensures a <= TrimRight(a + b)
    decreases |b|
  {
    if b == "" {
      assert a + b == a;
    } else {
      assert Front(a + b) == a + Front(b) && Last(a + b) == Last(b);
      if Last(b) == '\r' || Last(b) == '\n' {
        TrimKeeps(a, Front(b));
      }
    }
  }

  lemma {:induction false} OneStep(s: string, event: string)
    requires var l := NextLine(s); !l.eof && l.text != "" && l.text[0] != ':' && FieldOf(l.text) == "data"
    ensures ReadFrom(s, Pending(Event("", event, ""), false))
            == ReadFrom(NextLine(s).rest, Pending(Event("", event, ValueOf(NextLine(s).text)), true))
  {
    hide NextLine, ValueOf, FieldOf;
  }

  /** An event comes back as it was written exactly when its name and its data fit on a line: no line
      feed, no carriage return at the end. */
  lemma {:induction false} RoundTripIff(w: Written, rest: string)
    ensures ReadFrom(Written1(w) + rest, NOTHING).0 == Some(Expected(w)) <==> Fits(w)
    ensures Fits(w) ==> ReadFrom(Written1(w) + rest, NOTHING).1 == rest
  {
    hide ReadFrom, OneLine;
    match w
    case Plain(data) =>
      if OneLine(data) {
        DataRoundTrip(data, rest, "");
      } else {
        UnfitDataIsLost(data, "", rest);
      }
    case Named(event, data) =>
      NothingFits();
      NamesFit(Written1(w) + rest, NOTHING);
      if OneLine(event) {
        var more := DataLine(data) + rest;
        assert Written1(w) + rest == "event" + ": " + event + "\n" + more;
        ReadField("event", event, more, NOTHING);
        if OneLine(data) {
          DataRoundTrip(data, rest, event);
        } else {
          UnfitDataIsLost(data, event, rest);
        }
      }
  }

  lemma {:induction false} NothingFits()
    ensures OneLine(NOTHING.evt.event)
  {
  }

  function ExpectedAll(ws: seq<Written>): (r: seq<Event>) {
    if ws == [] then [] else [Expected(ws[0])] + ExpectedAll(ws[1..])
  }

  /** A list of events is read back as the same list, followed by the end of the input, exactly when
      every one of them fits. */
  lemma {:induction false} ListRoundTripIff(ws: seq<Written>)
    ensures ReadAll(WrittenAll(ws)) == ExpectedAll(ws) <==> forall i :: 0 <= i < |ws| ==> Fits(ws[i])
  {
    hide ReadFrom, Written1, Fits, Expected;
    if ws == [] {
      EndOfInput();
    } else {
      RoundTripIff(ws[0], WrittenAll(ws[1..]));
      ListRoundTripIff(ws[1..]);
      AllFit(ws);
      if Fits(ws[0]) {
        assert ReadAll(WrittenAll(ws)) == [Expected(ws[0])] + ReadAll(WrittenAll(ws[1..]));
        SameHead(Expected(ws[0]), ReadAll(WrittenAll(ws[1..])), ExpectedAll(ws[1..]));
      } else {
        var e := ReadFrom(WrittenAll(ws), NOTHING).0;
        assert e.Some? ==> ReadAll(WrittenAll(ws))[0] == e.value;
        assert ExpectedAll(ws)[0] == Expected(ws[0]);
      }
    }
  }

  /** Such a list: one event whose data ends in a carriage return. */
  lemma {:induction false} CarriageReturnIsLost()
    ensures ReadAll(WrittenAll([Plain("a\r")])) != ExpectedAll([Plain("a\r")])
  {
    hide ReadAll, WrittenAll, ExpectedAll;
    ListRoundTripIff([Plain("a\r")]);
    assert !Fits([Plain("a\r")][0]);
  }

  lemma {:induction false} SameHead(e: Event, a: seq<Event>, b: seq<Event>)
    ensures [e] + a == [e] + b <==> a == b
  {
    assert ([e] + a)[1..] == a && ([e] + b)[1..] == b;
  }

  lemma {:induction false} AllFit(ws: seq<Written>)
    requires ws != []
    ensures (forall i :: 0 <= i < |ws| ==> Fits(ws[i]))
            <==> Fits(ws[0]) && forall i :: 0 <= i < |ws[1..]| ==> Fits(ws[1..][i])
  {
    hide Fits;
    assert forall i :: 1 <= i < |ws| ==> ws[i] == ws[1..][i - 1];
  }
}
