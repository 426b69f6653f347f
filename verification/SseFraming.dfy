/** The browser's reader of the event stream: incremental frame splitting, and parsing of one frame.  JSON decoding is
    an arbitrary partial function. */
module SseFraming {
  import opened Common

  // ---- the two separators ----

  /** Length of a line end, \r?\n, at the start of the text; 0 when there is none. */
  function LineEnd(t: string): nat {
    if |t| > 0 && t[0] == '\n' then 1
    else if |t| > 1 && t[0] == '\r' && t[1] == '\n' then 2
    else 0
  }

  /** Length of a frame end, \r?\n\r?\n, at the start of the text; 0 when there is none. */
  function FrameEnd(t: string): (n: nat)
    ensures n <= |t|
  {
    var a := LineEnd(t);
    if a == 0 || LineEnd(t[a..]) == 0 then 0 else a + LineEnd(t[a..])
  }

  predicate HasLineEnd(t: string) { t != "" && (LineEnd(t) > 0 || HasLineEnd(t[1..])) }

  predicate HasFrameEnd(t: string) { t != "" && (FrameEnd(t) > 0 || HasFrameEnd(t[1..])) }

  /** The text before the first line end, and the text after it. */
  function FirstLine(t: string): string
    requires HasLineEnd(t)
  {
    if LineEnd(t) > 0 then "" else [t[0]] + FirstLine(t[1..])
  }

  function AfterLine(t: string): (rest: string)
    requires HasLineEnd(t)
    ensures |rest| < |t|
  {
    if LineEnd(t) > 0 then t[LineEnd(t)..] else AfterLine(t[1..])
  }

  /** The text before the first frame end, and the text after it. */
  function FirstFrame(t: string): (frame: string)
    requires HasFrameEnd(t)
    ensures frame <= t
  {
    if FrameEnd(t) > 0 then "" else [t[0]] + FirstFrame(t[1..])
  }

  function AfterFrame(t: string): (rest: string)
    requires HasFrameEnd(t)
    ensures |rest| < |t|
  {
    if FrameEnd(t) > 0 then t[FrameEnd(t)..] else AfterFrame(t[1..])
  }

  /** text.split(/\r?\n/) */
  function Lines(t: string): (lines: seq<string>)
    ensures |lines| >= 1
    decreases |t|
  {
    if HasLineEnd(t) then [FirstLine(t)] + Lines(AfterLine(t)) else [t]
  }

  /** text.split(/\r?\n\r?\n/) */
  function Split(t: string): (frames: seq<string>)
    ensures |frames| >= 1
    decreases |t|
  {
    if HasFrameEnd(t) then [FirstFrame(t)] + Split(AfterFrame(t)) else [t]
  }

  // ---- one frame ----

  /** The characters that trim() removes. */
  predicate IsTrimmed(c: char) {
    || c == ' ' || '\t' <= c <= '\r' || c == '\U{00A0}' || c == '\U{1680}' || '\U{2000}' <= c <= '\U{200A}'
    || c == '\U{2028}' || c == '\U{2029}' || c == '\U{202F}' || c == '\U{205F}' || c == '\U{3000}' || c == '\U{FEFF}'
  }

  function TrimStart(t: string): string {
    if t != "" && IsTrimmed(t[0]) then TrimStart(t[1..]) else t
  }

  function TrimEnd(t: string): string {
    if t != "" && IsTrimmed(t[|t| - 1]) then TrimEnd(t[..|t| - 1]) else t
  }

  function Trim(t: string): string { TrimEnd(TrimStart(t)) }

  /** The value of a data line: what follows the field name, less one leading space. */
  function DataOf(line: string): seq<string> {
    if "data:" <= line then
      var value := line[5..];
      [if value != "" && value[0] == ' ' then value[1..] else value]
    else []
  }

  function DataLines(lines: seq<string>): seq<string> {
    if lines == [] then [] else DataOf(lines[0]) + DataLines(lines[1..])
  }

  function Join(lines: seq<string>): string {
    if lines == [] then "" else if |lines| == 1 then lines[0] else lines[0] + "\n" + Join(lines[1..])
  }

  /** The event carried by the collected data lines, if there is one. */
  function Decode<T>(data: seq<string>, json: string -> Option<T>): Option<T> {
    if data == [] then None
    else
      var raw := Trim(Join(data));
      if raw == "" then None else json(raw)
  }

  function ParseEvent<T>(frame: string, json: string -> Option<T>): Option<T> {
    Decode(DataLines(Lines(frame)), json)
  }

  function AsSeq<T>(e: Option<T>): seq<T> { if e.Some? then [e.value] else [] }

  // ---- the read loop ----

  /** The events of a list of frames. */
  ghost function EventsOf<T>(frames: seq<string>, json: string -> Option<T>): seq<T> {
    if frames == [] then [] else AsSeq(ParseEvent(frames[0], json)) + EventsOf(frames[1..], json)
  }

  /** Reads decoded chunks into a buffer, yields the event of every complete frame, and keeps the rest. */
  method StreamEvents<T>(chunks: seq<string>, json: string -> Option<T>) returns (events: seq<T>)
    ensures events == EventsOf(Split(Concat(chunks)), json)
  {
    hide Split, EventsOf, ParseEvent;
    var buffer := "";
    events := [];
    ghost var complete: seq<string> := [];
    NothingRead(json);
    for c := 0 to |chunks|
      invariant Buffered(Concat(chunks[..c]), complete, buffer)
      invariant events == EventsOf(complete, json)
    {
      ghost var read := Concat(chunks[..c]);
      assert chunks[..c + 1][..c] == chunks[..c];
      BufferNext(read, complete, buffer, chunks[c]);
      buffer := buffer + chunks[c];
      var frames := Split(buffer);
      buffer := frames[|frames| - 1];
      frames := frames[..|frames| - 1];
      var more := YieldFrames(frames, json);
      EventsConcat(complete, frames, json);
      events := events + more;
      complete := complete + frames;
    }
    assert chunks[..|chunks|] == chunks;
    if buffer != "" {
      var event := ParseEvent(buffer, json);
      if event.Some? {
        events := events + [event.value];
      }
    }
    LastFrame(Concat(chunks), complete, buffer, json);
  }

  /** The inner loop over the complete frames. */
  method YieldFrames<T>(frames: seq<string>, json: string -> Option<T>) returns (events: seq<T>)
    ensures events == EventsOf(frames, json)
  {
    hide ParseEvent;
    events := [];
    for f := 0 to |frames|
      invariant events == EventsOf(frames[..f], json)
    {
      var event := ParseEvent(frames[f], json);
      if event.Some? {
        events := events + [event.value];
      }
      EventsConcat(frames[..f], [frames[f]], json);
      assert frames[..f + 1] == frames[..f] + [frames[f]];
    }
    assert frames[..|frames|] == frames;
  }

  /** The text read so far consists of the complete frames and the buffer, and so does every continuation of it. */
  ghost predicate Buffered(read: string, complete: seq<string>, buffer: string) {
    && Split(buffer) == [buffer]
    && Split(read) == complete + [buffer]
    && forall rest :: Split(read + rest) == complete + Split(buffer + rest)
  }

  lemma NothingRead<T>(json: string -> Option<T>)
    ensures Buffered("", [], "") && EventsOf([], json) == []
  {
    forall rest ensures Split("" + rest) == [] + Split("" + rest) {
    }
  }

  lemma {:induction false} BufferNext(read: string, complete: seq<string>, buffer: string, chunk: string)
    requires Buffered(read, complete, buffer)
    ensures var frames := Split(buffer + chunk);
            Buffered(read + chunk, complete + frames[..|frames| - 1], frames[|frames| - 1])
  {
    hide Split;
    var frames := Split(buffer + chunk);
    var done, open := frames[..|frames| - 1], frames[|frames| - 1];
    assert frames == done + [open];
    LastIsOpen(buffer + chunk);
    forall rest ensures Split(read + chunk + rest) == complete + done + Split(open + rest) {
      assert read + chunk + rest == read + (chunk + rest);
      assert buffer + (chunk + rest) == buffer + chunk + rest;
      SplitAppend(buffer + chunk, rest);
      assert complete + (done + Split(open + rest)) == complete + done + Split(open + rest);
    }
    assert complete + (done + [open]) == complete + done + [open];
  }

  lemma {:induction false} LastIsOpen(t: string)
    ensures Split(Split(t)[|Split(t)| - 1]) == [Split(t)[|Split(t)| - 1]]
    decreases |t|
  {
    if HasFrameEnd(t) {
      LastIsOpen(AfterFrame(t));
    }
  }

  lemma {:induction false} LastFrame<T>(read: string, complete: seq<string>, buffer: string, json: string -> Option<T>)
    requires Buffered(read, complete, buffer)
    ensures EventsOf(Split(read), json) == EventsOf(complete, json) + AsSeq(ParseEvent(buffer, json))
    ensures buffer == "" ==> ParseEvent(buffer, json) == None
  {
    EventsConcat(complete, [buffer], json);
    assert Lines("") == [""];
  }

  lemma {:induction false} EventsConcat<T>(a: seq<string>, b: seq<string>, json: string -> Option<T>)
    ensures EventsOf(a + b, json) == EventsOf(a, json) + EventsOf(b, json)
    ensures |b| == 1 ==> EventsOf(b, json) == AsSeq(ParseEvent(b[0], json))
  {
    hide ParseEvent;
    if a == [] {
      assert a + b == b;
    } else {
      assert (a + b)[1..] == a[1..] + b;
      EventsConcat(a[1..], b, json);
    }
  }

  lemma FrameEndPrefix(t: string, rest: string)
    requires FrameEnd(t) > 0
    ensures FrameEnd(t + rest) == FrameEnd(t) && (t + rest)[FrameEnd(t)..] == t[FrameEnd(t)..] + rest
  {
    var a := LineEnd(t);
    assert (t + rest)[a..] == t[a..] + rest;
  }

  /** A frame end cannot straddle the cut when another one starts later in the prefix. */
  lemma NoFrameEndAcross(t: string, rest: string)
    requires t != "" && FrameEnd(t) == 0 && HasFrameEnd(t[1..])
    ensures FrameEnd(t + rest) == 0
  {
    var a := LineEnd(t + rest);
    if a > 0 {
      TwoCharacters(t[1..]);
      assert LineEnd(t) == a;
      assert (t + rest)[a..] == t[a..] + rest;
      if |t[a..]| < 2 {
        ThreeCharacters(t);
      }
    }
  }

  lemma TwoCharacters(t: string)
    requires HasFrameEnd(t)
    ensures |t| >= 2
  {
  }

  lemma ThreeCharacters(t: string)
    requires |t| == 3 && HasFrameEnd(t[1..]) && LineEnd(t) == 2
    ensures FrameEnd(t) > 0
  {
    var u := t[1..];
    assert |u| == 2 && |u[1..]| == 1;
    if FrameEnd(u) == 0 {
      TwoCharacters(u[1..]);
    }
    assert u[1] == t[2] && t[2..] == u[1..];
  }

  /** A frame end found in a prefix is the first one of the whole text. */
  lemma {:induction false} FrameEndIsStable(t: string, rest: string)
    requires HasFrameEnd(t)
    ensures HasFrameEnd(t + rest) && FirstFrame(t + rest) == FirstFrame(t)
    ensures AfterFrame(t + rest) == AfterFrame(t) + rest
  {
    if FrameEnd(t) > 0 {
      FrameEndPrefix(t, rest);
    } else {
      FrameEndIsStable(t[1..], rest);
      NoFrameEndAcross(t, rest);
      assert (t + rest)[1..] == t[1..] + rest;
    }
  }

  /** Splitting a longer text keeps all complete frames and goes on from the open one. */
  lemma {:induction false} SplitAppend(t: string, rest: string)
    ensures var frames := Split(t);
            Split(t + rest) == frames[..|frames| - 1] + Split(frames[|frames| - 1] + rest)
    decreases |t|
  {
    hide HasFrameEnd, FirstFrame, AfterFrame;
    if HasFrameEnd(t) {
      FrameEndIsStable(t, rest);
      SplitAppend(AfterFrame(t), rest);
      var frames := Split(AfterFrame(t));
      assert ([FirstFrame(t)] + frames)[..|frames|] == [FirstFrame(t)] + frames[..|frames| - 1];
    }
  }

  /** Chunk invariance: however one text is cut, the same events come out. */
  method ChunkInvariant<T>(first: seq<string>, second: seq<string>, json: string -> Option<T>)
    returns (a: seq<T>, b: seq<T>)
    requires Concat(first) == Concat(second)
    ensures a == b
  {
    a := StreamEvents(first, json);
    b := StreamEvents(second, json);
  }

  // ---- the line-by-line reading of the standard ----

  /** Interpretation line by line (section 9.2.6 of the WHATWG HTML Standard, `data` fields only): data lines
      collect, a blank line dispatches.  At the end of the stream the collected data is dispatched as well, which the
      standard would discard. */
  ghost function LineEvents<T>(lines: seq<string>, data: seq<string>, json: string -> Option<T>): seq<T> {
    if lines == [] then AsSeq(Decode(data, json))
    else if lines[0] == "" then AsSeq(Decode(data, json)) + LineEvents(lines[1..], [], json)
    else LineEvents(lines[1..], data + DataOf(lines[0]), json)
  }

  lemma {:induction false} DataLinesCons(line: string, lines: seq<string>)
    ensures DataLines([line] + lines) == DataOf(line) + DataLines(lines)
  {
    assert ([line] + lines)[1..] == lines;
  }

  lemma LineEventsCons<T>(line: string, lines: seq<string>, data: seq<string>, json: string -> Option<T>)
    ensures line == "" ==>
              LineEvents([line] + lines, data, json) == AsSeq(Decode(data, json)) + LineEvents(lines, [], json)
    ensures line != "" ==>
              LineEvents([line] + lines, data, json) == LineEvents(lines, data + DataOf(line), json)
  {
    assert ([line] + lines)[1..] == lines;
  }

  lemma {:induction false} NoFrameWithoutLineEnd(t: string)
    requires !HasLineEnd(t)
    ensures !HasFrameEnd(t)
  {
    if t != "" {
      NoFrameWithoutLineEnd(t[1..]);
    }
  }

  /** A blank line after the first line closes its frame. */
  lemma {:induction false} BlankLineCloses(t: string)
    requires HasLineEnd(t) && LineEnd(AfterLine(t)) > 0
    ensures HasLineEnd(AfterLine(t)) && FirstLine(AfterLine(t)) == ""
    ensures HasFrameEnd(t) && FirstFrame(t) == FirstLine(t) && AfterFrame(t) == AfterLine(AfterLine(t))
    ensures !HasLineEnd(FirstLine(t))
  {
    if LineEnd(t) > 0 {
      var a := LineEnd(t);
      assert t[a..][LineEnd(t[a..])..] == t[a + LineEnd(t[a..])..];
    } else {
      BlankLineCloses(t[1..]);
      FirstLineIsPrefix(t[1..]);
      assert ([t[0]] + FirstLine(t[1..]))[1..] == FirstLine(t[1..]);
    }
  }

  lemma FirstLineIsPrefix(t: string)
    requires HasLineEnd(t)
    ensures FirstLine(t) <= t
  {
  }

  /** The frame that the text begins with, closed or still open. */
  ghost function LeadingFrame(t: string): (frame: string)
    ensures frame <= t
  {
    if HasFrameEnd(t) then FirstFrame(t) else t
  }

  /** A first line that no blank line follows only extends the frame that the rest begins with. */
  lemma {:induction false} LineExtendsFrame(t: string)
    requires HasLineEnd(t) && LineEnd(AfterLine(t)) == 0
    ensures HasFrameEnd(t) == HasFrameEnd(AfterLine(t))
    ensures HasFrameEnd(t) ==> AfterFrame(t) == AfterFrame(AfterLine(t))
    ensures HasLineEnd(LeadingFrame(t)) && FirstLine(LeadingFrame(t)) == FirstLine(t)
    ensures AfterLine(LeadingFrame(t)) == LeadingFrame(AfterLine(t))
  {
    var frame := LeadingFrame(t);
    if LineEnd(t) == 2 {
      assert t[1..][1..] == t[2..] && LineEnd(t[1..]) == 1;
      assert FrameEnd(t) == 0 && FrameEnd(t[1..]) == 0;
      assert LeadingFrame(t[1..]) == "\n" + LeadingFrame(t[2..]);
      assert frame == "\r" + LeadingFrame(t[1..]) == "\r\n" + LeadingFrame(t[2..]);
      assert frame[2..] == LeadingFrame(t[2..]);
    } else if LineEnd(t) == 1 {
      assert FrameEnd(t) == 0;
      assert frame == "\n" + LeadingFrame(t[1..]);
      assert frame[1..] == LeadingFrame(t[1..]);
    } else {
      LineExtendsFrame(t[1..]);
      assert frame == [t[0]] + LeadingFrame(t[1..]);
      assert frame[1..] == LeadingFrame(t[1..]);
    }
  }

  /** What the line reader should make of a text after the given data. */
  ghost function FrameView<T>(t: string, data: seq<string>, json: string -> Option<T>): seq<T> {
    AsSeq(Decode(data + DataLines(Lines(LeadingFrame(t))), json))
    + if HasFrameEnd(t) then EventsOf(Split(AfterFrame(t)), json) else []
  }

  lemma OpenLine<T>(t: string, data: seq<string>, json: string -> Option<T>)
    requires !HasLineEnd(t)
    ensures LineEvents(Lines(t), data, json) == FrameView(t, data, json)
  {
    hide HasLineEnd, HasFrameEnd, FirstLine, AfterLine, FirstFrame, AfterFrame, Decode, DataOf, LineEvents, DataLines;
    NoFrameWithoutLineEnd(t);
    LineEventsCons(t, [], data, json);
    LineEventsNil(data + DataOf(t), json);
    LineEventsNil([], json);
    LineEventsNil(data, json);
    DataLinesCons(t, []);
    assert Lines(t) == [t] == [t] + [] && LeadingFrame(t) == t;
    assert DataLines(Lines(t)) == DataOf(t) + [] == DataOf(t);
    assert t == "" ==> data + DataOf(t) == data;
  }

  lemma {:induction false} BlankLineNext<T>(t: string, data: seq<string>, json: string -> Option<T>)
    requires data == [] || LineEnd(t) == 0
    requires HasLineEnd(t) && LineEnd(AfterLine(t)) > 0
    requires var open := AfterLine(AfterLine(t)); LineEvents(Lines(open), [], json) == FrameView(open, [], json)
    ensures LineEvents(Lines(t), data, json) == FrameView(t, data, json)
  {
    hide HasLineEnd, HasFrameEnd, FirstLine, AfterLine, FirstFrame, AfterFrame, Decode, DataOf, LineEvents, DataLines;
    var line, rest := FirstLine(t), AfterLine(t);
    LineEventsNil(data, json);
    FirstLineEmpty(t);
    LineEventsCons(line, Lines(rest), data, json);
    BlankLineCloses(t);
    var open := AfterLine(rest);
    LineEventsCons("", Lines(open), data + DataOf(line), json);
    LineEventsCons("", Lines(open), [], json);
    LineEventsNil([], json);
    DataLinesCons(line, []);
    FirstFrameEvents(open, json);
    assert data + (DataOf(line) + []) == data + DataOf(line);
    var tail := LineEvents(Lines(open), [], json);
    assert Lines(LeadingFrame(t)) == [line] && tail == EventsOf(Split(open), json);
    assert [] + tail == tail && [] + (data + DataOf(line)) == data + DataOf(line);
    assert [line] + [] == [line];
  }

  lemma {:induction false} OpenLineNext<T>(t: string, data: seq<string>, json: string -> Option<T>)
    requires data == [] || LineEnd(t) == 0
    requires HasLineEnd(t) && LineEnd(AfterLine(t)) == 0
    requires var more := data + DataOf(FirstLine(t));
             LineEvents(Lines(AfterLine(t)), more, json) == FrameView(AfterLine(t), more, json)
    ensures LineEvents(Lines(t), data, json) == FrameView(t, data, json)
  {
    hide HasLineEnd, HasFrameEnd, FirstLine, AfterLine, FirstFrame, AfterFrame, Decode, DataOf, LineEvents, DataLines;
    var line, rest := FirstLine(t), AfterLine(t);
    LineEventsNil(data, json);
    FirstLineEmpty(t);
    LineEventsCons(line, Lines(rest), data, json);
    LineExtendsFrame(t);
    DataLinesCons(line, Lines(LeadingFrame(rest)));
    var more := DataLines(Lines(LeadingFrame(rest)));
    assert data + (DataOf(line) + more) == data + DataOf(line) + more;
    LineEventsNil([], json);
    assert [] + LineEvents(Lines(rest), [], json) == LineEvents(Lines(rest), [], json);
  }

  /** The frame reader and the line reader agree on every text, also with data collected before it. */
  lemma {:induction false} FramesAreLines<T>(t: string, data: seq<string>, json: string -> Option<T>)
    requires data == [] || LineEnd(t) == 0
    ensures LineEvents(Lines(t), data, json) == FrameView(t, data, json)
    decreases |t|
  {
    hide FrameView, LineEvents;
    if !HasLineEnd(t) {
      OpenLine(t, data, json);
    } else if LineEnd(AfterLine(t)) > 0 {
      FramesAreLines(AfterLine(AfterLine(t)), [], json);
      BlankLineNext(t, data, json);
    } else {
      FramesAreLines(AfterLine(t), data + DataOf(FirstLine(t)), json);
      OpenLineNext(t, data, json);
    }
  }

  lemma FirstLineEmpty(t: string)
    requires HasLineEnd(t)
    ensures FirstLine(t) == "" <==> LineEnd(t) > 0
  {
  }

  lemma LineEventsNil<T>(data: seq<string>, json: string -> Option<T>)
    ensures LineEvents([], data, json) == AsSeq(Decode(data, json))
    ensures AsSeq(Decode([], json)) == [] && DataOf("") == [] && DataLines([]) == []
  {
  }

  lemma {:induction false} FirstFrameEvents<T>(t: string, json: string -> Option<T>)
    ensures EventsOf(Split(t), json) ==
            AsSeq(Decode([] + DataLines(Lines(LeadingFrame(t))), json))
            + if HasFrameEnd(t) then EventsOf(Split(AfterFrame(t)), json) else []
  {
    var frame := LeadingFrame(t);
    assert [] + DataLines(Lines(frame)) == DataLines(Lines(frame));
    if HasFrameEnd(t) {
      assert ([frame] + Split(AfterFrame(t)))[1..] == Split(AfterFrame(t));
    } else {
      assert [t][1..] == [];
    }
  }

  /** Frame splitting followed by parsing is the line-by-line interpretation of the whole text. */
  lemma {:induction false} FrameReaderIsLineReader<T>(t: string, json: string -> Option<T>)
    ensures EventsOf(Split(t), json) == LineEvents(Lines(t), [], json)
  {
    FramesAreLines(t, [], json);
    FirstFrameEvents(t, json);
  }

  // ---- what is sent comes back ----

  /** A frame as the server sends it: payload lines, or a comment. */
  datatype Item = Data(payload: seq<string>) | Comment(text: string)

  ghost predicate Plain(line: string) {
    forall i :: 0 <= i < |line| ==> line[i] != '\r' && line[i] != '\n'
  }

  ghost predicate Printable(item: Item) {
    match item
    case Data(payload) => payload != [] && forall i :: 0 <= i < |payload| ==> Plain(payload[i])
    case Comment(text) => Plain(text)
  }

  function PrintData(payload: seq<string>, eol: string): string {
    if payload == [] then "" else "data: " + payload[0] + eol + PrintData(payload[1..], eol)
  }

  function Print(items: seq<Item>, eol: string): string {
    if items == [] then ""
    else
      (match items[0]
       case Data(payload) => PrintData(payload, eol)
       case Comment(text) => ":" + text + eol)
      + eol + Print(items[1..], eol)
  }

  /** The events that the data items carry, in order; comments carry none. */
  ghost function Sent<T>(items: seq<Item>, json: string -> Option<T>): seq<T> {
    if items == [] then []
    else (if items[0].Data? then AsSeq(Decode(items[0].payload, json)) else []) + Sent(items[1..], json)
  }

  ghost predicate IsEol(eol: string) { eol == "\n" || eol == "\r\n" }

  lemma {:induction false} LineRoundTrip(line: string, eol: string, rest: string)
    requires Plain(line) && IsEol(eol)
    ensures Lines(line + eol + rest) == [line] + Lines(rest)
  {
    PlainLine(line, eol, rest);
  }

  lemma {:induction false} PlainLine(line: string, eol: string, rest: string)
    requires Plain(line) && IsEol(eol)
    ensures HasLineEnd(line + eol + rest)
    ensures FirstLine(line + eol + rest) == line && AfterLine(line + eol + rest) == rest
  {
    if line == "" {
      assert line + eol + rest == eol + rest && (eol + rest)[|eol|..] == rest;
    } else {
      assert (line + eol + rest)[1..] == line[1..] + eol + rest;
      PlainLine(line[1..], eol, rest);
    }
  }

  lemma {:induction false} DataRoundTrip<T>(payload: seq<string>, eol: string, rest: string, data: seq<string>,
                                            json: string -> Option<T>)
    requires IsEol(eol) && forall i :: 0 <= i < |payload| ==> Plain(payload[i])
    ensures LineEvents(Lines(PrintData(payload, eol) + rest), data, json) ==
            LineEvents(Lines(rest), data + payload, json)
  {
    if payload == [] {
      assert "" + rest == rest && data + payload == data;
    } else {
      var line := "data: " + payload[0];
      var more := PrintData(payload[1..], eol) + rest;
      assert PrintData(payload, eol) + rest == line + eol + more;
      LineRoundTrip(line, eol, more);
      LineEventsCons(line, Lines(more), data, json);
      assert line[5..] == " " + payload[0] && (" " + payload[0])[1..] == payload[0];
      assert DataOf(line) == [payload[0]];
      DataRoundTrip(payload[1..], eol, rest, data + [payload[0]], json);
      assert data + [payload[0]] + payload[1..] == data + payload;
    }
  }

  /** Whatever the server prints, with either line end and any comments in between, is read back in order. */
  lemma {:induction false} PrintedEventsComeBack<T>(items: seq<Item>, eol: string, json: string -> Option<T>)
    requires IsEol(eol) && forall i :: 0 <= i < |items| ==> Printable(items[i])
    ensures EventsOf(Split(Print(items, eol)), json) == Sent(items, json)
  {
    FrameReaderIsLineReader(Print(items, eol), json);
    PrintedLines(items, eol, json);
  }

  lemma {:induction false} PrintedLines<T>(items: seq<Item>, eol: string, json: string -> Option<T>)
    requires IsEol(eol) && forall i :: 0 <= i < |items| ==> Printable(items[i])
    ensures LineEvents(Lines(Print(items, eol)), [], json) == Sent(items, json)
  {
    if items == [] {
      assert Lines("") == [""];
      LineEventsCons("", [], [], json);
      assert [""] + [] == [""];
    } else {
      PrintedLines(items[1..], eol, json);
      PrintedItem(items, eol, json);
    }
  }

  lemma {:induction false} PrintedItem<T>(items: seq<Item>, eol: string, json: string -> Option<T>)
    requires IsEol(eol) && items != [] && Printable(items[0])
    ensures LineEvents(Lines(Print(items, eol)), [], json) ==
            (if items[0].Data? then AsSeq(Decode(items[0].payload, json)) else [])
            + LineEvents(Lines(Print(items[1..], eol)), [], json)
  {
    hide Lines, LineEvents, PrintData, DataOf, Decode;
    var more := Print(items[1..], eol);
    LineEventsNil([], json);
    assert eol + more == "" + eol + more;
    LineRoundTrip("", eol, more);
    match items[0]
    case Data(payload) =>
      assert Print(items, eol) == PrintData(payload, eol) + (eol + more);
      DataRoundTrip(payload, eol, eol + more, [], json);
      assert [] + payload == payload;
      LineEventsCons("", Lines(more), payload, json);
    case Comment(text) =>
      var line := ":" + text;
      assert Print(items, eol) == line + eol + (eol + more);
      LineRoundTrip(line, eol, eol + more);
      LineEventsCons(line, Lines(eol + more), [], json);
      LineEventsCons("", Lines(more), [], json);
      CommentHasNoData(text);
      assert line != "" && [] + DataOf(line) == [];
      var after := LineEvents(Lines(more), [], json);
      assert [] + after == after;
  }

  lemma CommentHasNoData(text: string)
    ensures DataOf(":" + text) == []
  {
    assert (":" + text)[0] == ':' && "data:"[0] == 'd';
  }

  /** A single payload reaches the JSON decoder unchanged exactly when it is not blank and has no surrounding space. */
  lemma PayloadUnchangedExactly(payload: string, eol: string)
    requires IsEol(eol) && Plain(payload)
    ensures EventsOf(Split(Print([Data([payload])], eol)), (raw: string) => Some(raw)) == [payload]
            <==> payload != "" && Trim(payload) == payload
  {
    var json := (raw: string) => Some(raw);
    var items := [Data([payload])];
    PrintedEventsComeBack(items, eol, json);
    assert items[1..] == [];
    assert Sent(items, json) == AsSeq(Decode([payload], json)) + [];
    assert Join([payload]) == payload;
    assert Trim("") == "";
  }
}
