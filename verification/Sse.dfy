/** The incremental `text/event-stream` decoder: text arrives in chunks cut anywhere, frames
    come out whole. */
module Sse {
  import opened Options

  datatype Frame = Frame(event: Option<string>, id: Option<string>, data: string)

  /** The fields gathered since the last blank line. */
  datatype Gathered = Gathered(event: Option<string>, id: Option<string>, data: seq<string>)

  const Nothing := Gathered(None, None, [])

  datatype State = State(buffer: string, gathered: Gathered)

  const Start := State("", Nothing)

  /** The first index of `c`, or the length when it does not occur. */
  function IndexOf(s: string, c: char): (k: nat)
    ensures k <= |s| && (k < |s| ==> s[k] == c)
    ensures forall j | 0 <= j < k :: s[j] != c
  {
    IndexFrom(s, c, 0)
  }

  function IndexFrom(s: string, c: char, i: nat): (k: nat)
    requires i <= |s|
    ensures i <= k <= |s| && (k < |s| ==> s[k] == c)
    ensures forall j | i <= j < k :: s[j] != c
    decreases |s| - i
  {
    if i == |s| || s[i] == c then i else IndexFrom(s, c, i + 1)
  }

  function StripCr(line: string): string {
    if line != "" && line[|line| - 1] == '\r' then line[..|line| - 1] else line
  }

  /** The complete lines of a text: each ends at an LF and loses one CR before it. */
  function Lines(text: string): seq<string>
    decreases |text|
  {
    var k := IndexOf(text, '\n');
    if k == |text| then [] else [StripCr(text[..k])] + Lines(text[k + 1..])
  }

  /** What follows the last LF. */
  function Rest(text: string): string
    decreases |text|
  {
    var k := IndexOf(text, '\n');
    if k == |text| then text else Rest(text[k + 1..])
  }

  function Join(lines: seq<string>): string {
    if lines == [] then "" else if |lines| == 1 then lines[0] else lines[0] + "\n" + Join(lines[1..])
  }

  function FieldName(line: string): string {
    line[..IndexOf(line, ':')]
  }

  function FieldValue(line: string): string {
    var colon := IndexOf(line, ':');
    var raw := if colon == |line| then "" else line[colon + 1..];
    if raw != "" && raw[0] == ' ' then raw[1..] else raw
  }

  function SetField(g: Gathered, name: string, value: string): Gathered {
    if name == "event" then g.(event := Some(value))
    else if name == "data" then g.(data := g.data + [value])
    else if name == "id" then g.(id := Some(value))
    else g
  }

  /** One line: an empty one dispatches what was gathered, any other may set a field. */
  function Consume(g: Gathered, line: string): (Gathered, seq<Frame>) {
    if line == "" then
      if g.data == [] && g.event == None then (g.(id := None), [])
      else (Nothing, [Frame(g.event, g.id, Join(g.data))])
    else if line[0] == ':' then (g, [])
    else (SetField(g, FieldName(line), FieldValue(line)), [])
  }

  function Digest(g: Gathered, lines: seq<string>): (Gathered, seq<Frame>)
    decreases |lines|
  {
    if lines == [] then (g, [])
    else
      var (next, first) := Consume(g, lines[0]);
      var (last, frames) := Digest(next, lines[1..]);
      (last, first + frames)
  }

  /** What one chunk does to the decoder. */
  function Feed(st: State, chunk: string): (State, seq<Frame>) {
    var text := st.buffer + chunk;
    var (g, frames) := Digest(st.gathered, Lines(text));
    (State(Rest(text), g), frames)
  }

  lemma TailOfConcat(a: seq<string>, b: seq<string>)
    requires a != []
    ensures a + b != [] && (a + b)[0] == a[0] && (a + b)[1..] == a[1..] + b
  {
  }

  lemma Associate(a: seq<Frame>, b: seq<Frame>, c: seq<Frame>)
    ensures a + (b + c) == (a + b) + c
  {
  }

  lemma {:induction false} DigestConcat(g: Gathered, a: seq<string>, b: seq<string>)
    ensures var (mid, first) := Digest(g, a);
            var (end, second) := Digest(mid, b);
            Digest(g, a + b) == (end, first + second)
    decreases |a|
  {
    if a == [] {
      assert a + b == b;
      var second := Digest(g, b).1;
      assert [] + second == second;
    } else {
      var (next, frame) := Consume(g, a[0]);
      DigestConcat(next, a[1..], b);
      TailOfConcat(a, b);
      var (mid, first) := Digest(next, a[1..]);
      Associate(frame, first, Digest(mid, b).1);
    }
  }

  lemma OneLine(g: Gathered, line: string)
    ensures Digest(g, [line]) == Consume(g, line)
  {
    var (next, first) := Consume(g, line);
    assert first + [] == first;
  }

  lemma FirstLine(text: string)
    ensures var k := IndexOf(text, '\n');
            k < |text| ==> && Lines(text) == [StripCr(text[..k])] + Lines(text[k + 1..])
                           && Rest(text) == Rest(text[k + 1..])
  {
  }

  /** A blank line dispatches whatever has data or an event name, data or not, and forgets it;
      otherwise it only forgets the id. */
  lemma WhatABlankLineDoes(g: Gathered)
    ensures Digest(g, [""]) ==
              if |g.data| > 0 then (Nothing, [Frame(g.event, g.id, Join(g.data))])
              else if g.event.Some? then (Nothing, [Frame(g.event, g.id, "")])
              else (Nothing, [])
  {
    OneLine(g, "");
  }

  lemma AnotherLine(g: Gathered, done: seq<string>, line: string)
    ensures var (mid, frames) := Digest(g, done);
            var (next, frame) := Consume(mid, line);
            Digest(g, done + [line]) == (next, frames + frame)
  {
    var (mid, frames) := Digest(g, done);
    DigestConcat(g, done, [line]);
    OneLine(mid, line);
  }

  lemma DigestSilently(g: Gathered, a: seq<string>, mid: Gathered, b: seq<string>)
    requires Digest(g, a) == (mid, [])
    ensures Digest(g, a + b) == Digest(mid, b)
  {
    DigestConcat(g, a, b);
    var frames := Digest(mid, b).1;
    assert [] + frames == frames;
  }

  class SseParser {
    var buffer: string
    var event: Option<string>
    var id: Option<string>
    var data: seq<string>

    ghost function Fields(): Gathered
      reads this
    {
      Gathered(event, id, data)
    }

    ghost function Current(): State
      reads this
    {
      State(buffer, Fields())
    }

    constructor ()
      ensures Current() == Start
    {
      buffer, event, id, data := "", None, None, [];
    }

    method Push(chunk: string) returns (frames: seq<Frame>)
      modifies this
      ensures (Current(), frames) == Feed(old(Current()), chunk)
    {
      buffer := buffer + chunk;
      frames := [];
      ghost var text := buffer;
      ghost var done: seq<string> := [];
      while true
        invariant Lines(text) == done + Lines(buffer) && Rest(text) == Rest(buffer)
        invariant (Fields(), frames) == Digest(old(Fields()), done)
        decreases |buffer|
      {
        var newline := IndexOf(buffer, '\n');
        if newline == |buffer| {
          assert Lines(buffer) == [] && done + [] == done;
          break;
        }
        FirstLine(buffer);
        var line := StripCr(buffer[..newline]);
        buffer := buffer[newline + 1..];
        AnotherLine(old(Fields()), done, line);
        var frame := ConsumeLine(line);
        frames := frames + frame;
        assert done + ([line] + Lines(buffer)) == done + [line] + Lines(buffer);
        done := done + [line];
      }
    }

    /** At most one frame, as the one-element list the caller appends. */
    method ConsumeLine(line: string) returns (frame: seq<Frame>)
      modifies this`event, this`id, this`data
      ensures (Fields(), frame) == Consume(old(Fields()), line)
    {
      if line == "" {
        if data == [] && event == None {
          id := None;
          return [];
        }
        frame := [Frame(event, id, Join(data))];
        event, id, data := None, None, [];
        return;
      }
      if line[0] == ':' {
        return [];
      }
      var colon := IndexOf(line, ':');
      var field := line[..colon];
      var raw := if colon == |line| then "" else line[colon + 1..];
      var value := if raw != "" && raw[0] == ' ' then raw[1..] else raw;
      if field == "event" {
        event := Some(value);
      } else if field == "data" {
        data := data + [value];
      } else if field == "id" {
        id := Some(value);
      }
      frame := [];
    }
  }

  // ---- Cutting the text differently changes nothing ----

  predicate NoLf(s: string) {
    '\n' !in s
  }

  lemma IndexIsFirst(s: string, c: char, k: nat)
    requires k < |s| && s[k] == c && forall j | 0 <= j < k :: s[j] != c
    ensures IndexOf(s, c) == k
  {
  }

  lemma IndexIsNone(s: string, c: char)
    requires c !in s
    ensures IndexOf(s, c) == |s|
  {
  }

  /** The first line of a text goes with the lines of what follows it. */
  lemma LineThenRest(line: string, text: string)
    requires NoLf(line)
    ensures Lines(line + "\n" + text) == [StripCr(line)] + Lines(text)
    ensures Rest(line + "\n" + text) == Rest(text)
  {
    var all := line + "\n" + text;
    assert forall j | 0 <= j < |line| :: all[j] == line[j] && line[j] in line;
    IndexIsFirst(all, '\n', |line|);
    assert all[..|line|] == line && all[|line| + 1..] == text;
  }

  lemma NoLineYet(text: string)
    requires NoLf(text)
    ensures Lines(text) == [] && Rest(text) == text
  {
    IndexIsNone(text, '\n');
  }

  lemma {:induction false} RestHasNoLine(text: string)
    ensures NoLf(Rest(text))
    decreases |text|
  {
    var k := IndexOf(text, '\n');
    if k < |text| {
      RestHasNoLine(text[k + 1..]);
    }
  }

  lemma IndexInLonger(text: string, more: string, c: char)
    requires IndexOf(text, c) < |text|
    ensures IndexOf(text + more, c) == IndexOf(text, c)
  {
    var k, long := IndexOf(text, c), text + more;
    assert forall j | 0 <= j <= k :: long[j] == text[j];
    IndexIsFirst(long, c, k);
  }

  lemma FirstLineOfMore(text: string, more: string)
    ensures var k := IndexOf(text, '\n');
            k < |text| ==> && Lines(text + more) == [StripCr(text[..k])] + Lines(text[k + 1..] + more)
                           && Rest(text + more) == Rest(text[k + 1..] + more)
  {
    var k, long := IndexOf(text, '\n'), text + more;
    if k < |text| {
      IndexInLonger(text, more, '\n');
      FirstLine(long);
      assert long[..k] == text[..k];
      assert long[k + 1..] == text[k + 1..] + more;
    }
  }

  /** The lines of a longer text: those of its start, then those that start in what was left. */
  lemma {:induction false} LinesOfMore(text: string, more: string)
    ensures Lines(text + more) == Lines(text) + Lines(Rest(text) + more)
    ensures Rest(text + more) == Rest(Rest(text) + more)
    decreases |text|
  {
    var k := IndexOf(text, '\n');
    FirstLine(text);
    FirstLineOfMore(text, more);
    if k < |text| {
      var tail := text[k + 1..];
      LinesOfMore(tail, more);
      var line, later := [StripCr(text[..k])], Lines(Rest(tail) + more);
      assert line + (Lines(tail) + later) == line + Lines(tail) + later;
    }
  }

  function Concat(chunks: seq<string>): string {
    if chunks == [] then "" else chunks[0] + Concat(chunks[1..])
  }

  function FeedAll(st: State, chunks: seq<string>): (State, seq<Frame>)
    decreases |chunks|
  {
    if chunks == [] then (st, [])
    else
      var (next, frames) := Feed(st, chunks[0]);
      var (last, rest) := FeedAll(next, chunks[1..]);
      (last, frames + rest)
  }

  lemma FeedTwice(st: State, a: string, b: string)
    ensures var (mid, first) := Feed(st, a);
            var (end, second) := Feed(mid, b);
            Feed(st, a + b) == (end, first + second)
  {
    var text := st.buffer + a;
    assert st.buffer + (a + b) == text + b;
    LinesOfMore(text, b);
    DigestConcat(st.gathered, Lines(text), Lines(Rest(text) + b));
  }

  /** However a text is cut into chunks, the frames and the state left behind are those of
      pushing it whole. */
  lemma {:induction false} ChunkingIsInvisible(st: State, chunks: seq<string>)
    requires NoLf(st.buffer)
    ensures FeedAll(st, chunks) == Feed(st, Concat(chunks))
    decreases |chunks|
  {
    if chunks == [] {
      assert st.buffer + "" == st.buffer;
      NoLineYet(st.buffer);
    } else {
      var (next, frames) := Feed(st, chunks[0]);
      RestHasNoLine(st.buffer + chunks[0]);
      ChunkingIsInvisible(next, chunks[1..]);
      FeedTwice(st, chunks[0], Concat(chunks[1..]));
    }
  }

  /** The frames of a whole text. */
  function Frames(text: string): seq<Frame> {
    Digest(Nothing, Lines(text)).1
  }

  lemma FeedFromStart(text: string)
    ensures Feed(Start, text) == (State(Rest(text), Digest(Nothing, Lines(text)).0), Frames(text))
  {
    assert "" + text == text;
  }

  /** A stream that is cut short yields a prefix of the full stream's frames. */
  lemma CutStreamYieldsPrefix(text: string, rest: string)
    ensures Frames(text) <= Frames(text + rest)
  {
    LinesOfMore(text, rest);
    DigestConcat(Nothing, Lines(text), Lines(Rest(text) + rest));
  }

  // ---- Reading back what a server writes ----

  /** The lines of a value, split at every LF. */
  function Split(s: string): (lines: seq<string>)
    ensures lines != []
    decreases |s|
  {
    var k := IndexOf(s, '\n');
    if k == |s| then [s] else [s[..k]] + Split(s[k + 1..])
  }

  function FieldLine(name: string, value: string): string {
    name + ": " + value
  }

  function DataLines(values: seq<string>): seq<string> {
    if values == [] then [] else [FieldLine("data", values[0])] + DataLines(values[1..])
  }

  function OptionalLine(name: string, value: Option<string>): seq<string> {
    if value.Some? then [FieldLine(name, value.value)] else []
  }

  /** A frame as lines: its event, its id, each line of its data, a blank. */
  function FrameLines(f: Frame): seq<string> {
    OptionalLine("event", f.event) + OptionalLine("id", f.id) + DataLines(Split(f.data)) + [""]
  }

  function AllLines(frames: seq<Frame>): seq<string> {
    if frames == [] then [] else FrameLines(frames[0]) + AllLines(frames[1..])
  }

  function Written(lines: seq<string>): string {
    if lines == [] then "" else lines[0] + "\n" + Written(lines[1..])
  }

  /** The text a server sends for some frames. */
  function Wire(frames: seq<Frame>): string {
    Written(AllLines(frames))
  }

  predicate EndsInCr(s: string) {
    s != "" && s[|s| - 1] == '\r'
  }

  predicate Whole(value: Option<string>) {
    value.Some? ==> NoLf(value.value) && !EndsInCr(value.value)
  }

  /** No field line of the frame contains an LF or ends in a CR. */
  predicate WellFormed(f: Frame) {
    Whole(f.event) && Whole(f.id) && forall line | line in Split(f.data) :: !EndsInCr(line)
  }

  predicate SingleLine(value: Option<string>) {
    value.Some? ==> NoLf(value.value)
  }

  predicate SingleLineFields(f: Frame) {
    SingleLine(f.event) && SingleLine(f.id)
  }

  function StripAll(lines: seq<string>): (r: seq<string>)
    ensures |r| == |lines| && forall i | 0 <= i < |lines| :: r[i] == StripCr(lines[i])
  {
    if lines == [] then [] else [StripCr(lines[0])] + StripAll(lines[1..])
  }

  lemma {:induction false} WrittenLinesAreRead(lines: seq<string>)
    requires AllNoLf(lines)
    ensures Lines(Written(lines)) == StripAll(lines) && Rest(Written(lines)) == ""
    decreases |lines|
  {
    if lines == [] {
      NoLineYet("");
    } else {
      WrittenLinesAreRead(lines[1..]);
      LineThenRest(lines[0], Written(lines[1..]));
    }
  }

  lemma {:induction false} StripAllConcat(a: seq<string>, b: seq<string>)
    ensures StripAll(a + b) == StripAll(a) + StripAll(b)
  {
  }

  lemma {:induction false} SplitLinesHaveNoLf(s: string)
    ensures AllNoLf(Split(s))
    decreases |s|
  {
    var k := IndexOf(s, '\n');
    if k < |s| {
      SplitLinesHaveNoLf(s[k + 1..]);
    }
  }

  lemma JoinFirst(line: string, lines: seq<string>)
    requires lines != []
    ensures Join([line] + lines) == line + "\n" + Join(lines)
  {
    assert ([line] + lines)[1..] == lines;
  }

  lemma CutAt(s: string, k: nat)
    requires k < |s| && s[k] == '\n'
    ensures s[..k] + "\n" + s[k + 1..] == s
  {
  }

  lemma {:induction false} JoinSplit(s: string)
    ensures Join(Split(s)) == s
    decreases |s|
  {
    var k := IndexOf(s, '\n');
    if k < |s| {
      var line, rest := s[..k], s[k + 1..];
      JoinSplit(rest);
      JoinFirst(line, Split(rest));
      CutAt(s, k);
    }
  }

  lemma SplitAtLine(line: string, text: string)
    requires NoLf(line)
    ensures Split(line + "\n" + text) == [line] + Split(text)
  {
    var all := line + "\n" + text;
    assert forall j | 0 <= j < |line| :: all[j] == line[j] && line[j] in line;
    IndexIsFirst(all, '\n', |line|);
    assert all[..|line|] == line && all[|line| + 1..] == text;
  }

  lemma {:induction false} SplitJoin(lines: seq<string>)
    requires lines != [] && forall i | 0 <= i < |lines| :: NoLf(lines[i])
    ensures Split(Join(lines)) == lines
    decreases |lines|
  {
    if |lines| == 1 {
      IndexIsNone(lines[0], '\n');
    } else {
      SplitJoin(lines[1..]);
      SplitAtLine(lines[0], Join(lines[1..]));
    }
  }

  lemma FieldLineParts(name: string, value: string)
    requires name in {"event", "id", "data"}
    ensures var line := FieldLine(name, value);
            line[0] != ':' && FieldName(line) == name && FieldValue(line) == value
  {
    var line := FieldLine(name, value);
    assert line[0] == name[0] && line[|name|] == ':';
    assert forall j | 0 <= j < |name| :: line[j] == name[j] && name[j] != ':';
    IndexIsFirst(line, ':', |name|);
    assert line[..|name|] == name;
    assert line[|name| + 1..] == " " + value;
    assert (" " + value)[1..] == value;
  }

  /** A line sets the event, the id, or one more line of data by its name before the first colon,
      to what follows without one leading space; comments and other names are ignored. */
  lemma WhatALineSets(g: Gathered, name: string, text: string)
    requires ':' !in name
    ensures var value := if text != "" && text[0] == ' ' then text[1..] else text;
            Digest(g, [name + ":" + text]) ==
              (if name == "event" then g.(event := Some(value)) else if name == "id" then g.(id := Some(value))
               else if name == "data" then g.(data := g.data + [value]) else g, [])
    ensures name != "" ==>
              Digest(g, [name]) ==
                (if name == "event" then g.(event := Some("")) else if name == "id" then g.(id := Some(""))
                 else if name == "data" then g.(data := g.data + [""]) else g, [])
  {
    var line := name + ":" + text;
    assert forall j | 0 <= j < |name| :: line[j] == name[j] && name[j] in name;
    IndexIsFirst(line, ':', |name|);
    assert line[..|name|] == name && line[|name| + 1..] == text;
    OneLine(g, line);
    IndexIsNone(name, ':');
    assert name[..|name|] == name;
    OneLine(g, name);
    assert name != "" ==> name[0] in name;
  }

  /** A written field line sets that field, to its value without one trailing CR. */
  lemma FieldLineIsRead(g: Gathered, name: string, value: string)
    requires name in {"event", "id", "data"}
    ensures Digest(g, [StripCr(FieldLine(name, value))]) == (SetField(g, name, StripCr(value)), [])
  {
    assert StripCr(FieldLine(name, value)) == FieldLine(name, StripCr(value));
    FieldLineParts(name, StripCr(value));
    OneLine(g, FieldLine(name, StripCr(value)));
  }

  lemma FirstDataLine(values: seq<string>)
    requires values != []
    ensures StripAll(DataLines(values))
         == [StripCr(FieldLine("data", values[0]))] + StripAll(DataLines(values[1..]))
  {
    var first, rest := [FieldLine("data", values[0])], DataLines(values[1..]);
    assert DataLines(values) == first + rest;
    assert StripAll(first) == [StripCr(first[0])];
    StripAllConcat(first, rest);
  }

  lemma FirstStripped(before: seq<string>, values: seq<string>)
    requires values != []
    ensures before + [StripCr(values[0])] + StripAll(values[1..]) == before + StripAll(values)
  {
  }

  lemma {:induction false} DataLinesAreRead(g: Gathered, values: seq<string>)
    ensures Digest(g, StripAll(DataLines(values))) == (g.(data := g.data + StripAll(values)), [])
    decreases |values|
  {
    if values == [] {
      assert g.data + [] == g.data;
    } else {
      var next := g.(data := g.data + [StripCr(values[0])]);
      FieldLineIsRead(g, "data", values[0]);
      FirstDataLine(values);
      DigestSilently(g, [StripCr(FieldLine("data", values[0]))], next, StripAll(DataLines(values[1..])));
      DataLinesAreRead(next, values[1..]);
      FirstStripped(g.data, values);
    }
  }

  function StripOption(v: Option<string>): Option<string> {
    if v.Some? then Some(StripCr(v.value)) else None
  }

  lemma OptionalLineIsRead(g: Gathered, name: string, value: Option<string>)
    requires name in {"event", "id"}
    ensures Digest(g, StripAll(OptionalLine(name, value)))
         == (if value.Some? then SetField(g, name, StripCr(value.value)) else g, [])
  {
    if value.Some? {
      FieldLineIsRead(g, name, value.value);
      assert StripAll(OptionalLine(name, value)) == [StripCr(FieldLine(name, value.value))];
    }
  }

  /** What comes back of a frame: one CR is lost at the end of every field line. */
  function Stripped(f: Frame): Frame {
    Frame(StripOption(f.event), StripOption(f.id), Join(StripAll(Split(f.data))))
  }

  /** The field lines of a frame, read one group after another. */
  lemma FieldsAreRead(f: Frame, event: seq<string>, id: seq<string>, data: seq<string>)
    requires event == StripAll(OptionalLine("event", f.event)) && id == StripAll(OptionalLine("id", f.id))
    requires data == StripAll(DataLines(Split(f.data)))
    ensures Digest(Nothing, event + id + data)
         == (Gathered(StripOption(f.event), StripOption(f.id), StripAll(Split(f.data))), [])
  {
    var g1 := Gathered(StripOption(f.event), None, []);
    var g2 := g1.(id := StripOption(f.id));
    OptionalLineIsRead(Nothing, "event", f.event);
    OptionalLineIsRead(g1, "id", f.id);
    DigestSilently(Nothing, event, g1, id);
    DigestSilently(Nothing, event + id, g2, data);
    DataLinesAreRead(g2, Split(f.data));
    assert g2.data + StripAll(Split(f.data)) == StripAll(Split(f.data));
  }

  lemma FrameIsRead(f: Frame)
    ensures Digest(Nothing, StripAll(FrameLines(f))) == (Nothing, [Stripped(f)])
  {
    var event, id, data := OptionalLine("event", f.event), OptionalLine("id", f.id), DataLines(Split(f.data));
    StripAllConcat(event + id + data, [""]);
    StripAllConcat(event + id, data);
    StripAllConcat(event, id);
    FieldsAreRead(f, StripAll(event), StripAll(id), StripAll(data));
    var g := Gathered(StripOption(f.event), StripOption(f.id), StripAll(Split(f.data)));
    DigestSilently(Nothing, StripAll(event) + StripAll(id) + StripAll(data), g, [""]);
    OneLine(g, "");
    assert StripAll([""]) == [""];
  }

  function StrippedAll(frames: seq<Frame>): (r: seq<Frame>)
    ensures |r| == |frames| && forall i | 0 <= i < |frames| :: r[i] == Stripped(frames[i])
  {
    if frames == [] then [] else [Stripped(frames[0])] + StrippedAll(frames[1..])
  }

  lemma {:induction false} FramesAreRead(frames: seq<Frame>)
    ensures Digest(Nothing, StripAll(AllLines(frames))) == (Nothing, StrippedAll(frames))
    decreases |frames|
  {
    if frames != [] {
      FrameIsRead(frames[0]);
      FramesAreRead(frames[1..]);
      var first, rest := FrameLines(frames[0]), AllLines(frames[1..]);
      StripAllConcat(first, rest);
      DigestConcat(Nothing, StripAll(first), StripAll(rest));
    }
  }

  predicate AllNoLf(lines: seq<string>) {
    forall i | 0 <= i < |lines| :: NoLf(lines[i])
  }

  lemma {:induction false} DataLinesHaveNoLf(values: seq<string>)
    requires AllNoLf(values)
    ensures AllNoLf(DataLines(values))
    decreases |values|
  {
    if values != [] {
      DataLinesHaveNoLf(values[1..]);
    }
  }

  lemma {:induction false} LinesHaveNoLf(frames: seq<Frame>)
    requires forall i | 0 <= i < |frames| :: SingleLineFields(frames[i])
    ensures AllNoLf(AllLines(frames))
    decreases |frames|
  {
    if frames != [] {
      LinesHaveNoLf(frames[1..]);
      SplitLinesHaveNoLf(frames[0].data);
      DataLinesHaveNoLf(Split(frames[0].data));
    }
  }

  lemma WireLines(frames: seq<Frame>)
    requires forall i | 0 <= i < |frames| :: SingleLineFields(frames[i])
    ensures Lines(Wire(frames)) == StripAll(AllLines(frames)) && Rest(Wire(frames)) == ""
  {
    LinesHaveNoLf(frames);
    WrittenLinesAreRead(AllLines(frames));
  }

  /** The stream of any frames without an LF in event or id reads as them, CRs stripped. */
  lemma WireIsRead(frames: seq<Frame>)
    requires forall i | 0 <= i < |frames| :: SingleLineFields(frames[i])
    ensures Feed(Start, Wire(frames)) == (Start, StrippedAll(frames))
    ensures Frames(Wire(frames)) == StrippedAll(frames)
  {
    WireLines(frames);
    FramesAreRead(frames);
    FeedFromStart(Wire(frames));
  }

  predicate NoLfGathered(g: Gathered) {
    SingleLine(g.event) && SingleLine(g.id)
  }

  lemma ReadFieldIsSingleLine(g: Gathered, line: string)
    requires NoLfGathered(g) && NoLf(line)
    ensures NoLfGathered(Consume(g, line).0)
    ensures forall f | f in Consume(g, line).1 :: SingleLineFields(f)
  {
    assert forall c | c in FieldValue(line) :: c in line;
  }

  /** Fields never hold an LF once read, whatever the text was. */
  lemma {:induction false} ReadFieldsAreSingleLine(g: Gathered, lines: seq<string>)
    requires NoLfGathered(g) && AllNoLf(lines)
    ensures forall f | f in Digest(g, lines).1 :: SingleLineFields(f)
    decreases |lines|
  {
    if lines != [] {
      ReadFieldIsSingleLine(g, lines[0]);
      ReadFieldsAreSingleLine(Consume(g, lines[0]).0, lines[1..]);
    }
  }

  lemma {:induction false} ReadLinesHaveNoLf(text: string)
    ensures AllNoLf(Lines(text))
    decreases |text|
  {
    var k := IndexOf(text, '\n');
    if k < |text| {
      ReadLinesHaveNoLf(text[k + 1..]);
    }
  }

  lemma StrippedDataIsSame(f: Frame)
    ensures Join(StripAll(Split(f.data))) == f.data <==> forall line | line in Split(f.data) :: !EndsInCr(line)
  {
    var lines := Split(f.data);
    SplitLinesHaveNoLf(f.data);
    JoinSplit(f.data);
    SplitJoin(StripAll(lines));
    if Join(StripAll(lines)) == f.data {
      forall line | line in lines ensures !EndsInCr(line) {
        var i :| 0 <= i < |lines| && lines[i] == line;
        assert StripAll(lines)[i] == line;
      }
    }
    if forall line | line in lines :: !EndsInCr(line) {
      assert forall i | 0 <= i < |lines| :: lines[i] in lines;
      assert StripAll(lines) == lines;
    }
  }

  lemma StrippedIsSame(f: Frame)
    requires SingleLineFields(f)
    ensures Stripped(f) == f <==> WellFormed(f)
  {
    StrippedDataIsSame(f);
  }

  lemma StrippedAllIsSame(frames: seq<Frame>)
    requires forall i | 0 <= i < |frames| :: SingleLineFields(frames[i])
    ensures StrippedAll(frames) == frames <==> forall i | 0 <= i < |frames| :: WellFormed(frames[i])
  {
    forall i | 0 <= i < |frames| ensures StrippedAll(frames)[i] == frames[i] <==> WellFormed(frames[i]) {
      StrippedIsSame(frames[i]);
    }
    if forall i | 0 <= i < |frames| :: WellFormed(frames[i]) {
      assert forall i | 0 <= i < |frames| :: StrippedAll(frames)[i] == frames[i];
    }
  }

  /** Written frames are read back exactly when no field line holds an LF or ends in a CR. */
  lemma RoundTripExactlyWhenWellFormed(frames: seq<Frame>)
    ensures Frames(Wire(frames)) == frames <==> forall i | 0 <= i < |frames| :: WellFormed(frames[i])
    ensures (forall i | 0 <= i < |frames| :: WellFormed(frames[i])) ==> Feed(Start, Wire(frames)) == (Start, frames)
  {
    if Frames(Wire(frames)) == frames {
      ReadLinesHaveNoLf(Wire(frames));
      ReadFieldsAreSingleLine(Nothing, Lines(Wire(frames)));
      assert forall i | 0 <= i < |frames| :: frames[i] in frames;
      WireIsRead(frames);
      StrippedAllIsSame(frames);
    }
    if forall i | 0 <= i < |frames| :: WellFormed(frames[i]) {
      WireIsRead(frames);
      StrippedAllIsSame(frames);
    }
  }
}
