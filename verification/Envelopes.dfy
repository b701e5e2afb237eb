/** Context blocks and input messages as they are written, and what is read back from them. */
module Envelopes {
  import opened Options
  import opened Xml
  import opened XmlWriting

  // ---- Stripping ----

  /** The white space that stripping removes. */
  predicate IsSpace(c: char) {
    c in {' ', '\t', '\n', '\r', '\U{0B}', '\U{0C}', '\U{1C}', '\U{1D}', '\U{1E}', '\U{1F}', '\U{85}', '\U{A0}',
          '\U{1680}', '\U{2028}', '\U{2029}', '\U{202F}', '\U{205F}', '\U{3000}'}
    || '\U{2000}' <= c <= '\U{200A}'
  }

  function StripLeft(t: string): string
    decreases |t|
  {
    if t != "" && IsSpace(t[0]) then StripLeft(t[1..]) else t
  }

  function StripRight(t: string): string
    decreases |t|
  {
    if t != "" && IsSpace(t[|t| - 1]) then StripRight(t[..|t| - 1]) else t
  }

  function Strip(t: string): string {
    StripRight(StripLeft(t))
  }

  lemma {:induction false} StripLeftOfEnded(t: string)
    ensures StripLeft(t + "\n") == if StripLeft(t) == "" then "" else StripLeft(t) + "\n"
    decreases |t|
  {
    if t == "" {
      assert t + "\n" == "\n" && "\n"[1..] == "";
    } else {
      assert (t + "\n")[1..] == t[1..] + "\n";
      StripLeftOfEnded(t[1..]);
    }
  }

  /** Line feeds put around a text are stripped with it. */
  lemma StripAround(t: string)
    ensures Strip("\n" + (t + "\n")) == Strip(t)
  {
    assert ("\n" + (t + "\n"))[1..] == t + "\n";
    StripLeftOfEnded(t);
    if StripLeft(t) != "" {
      var left := StripLeft(t);
      assert (left + "\n")[..|left + "\n"| - 1] == left;
    }
  }

  // ---- Fields ----

  type Field = (string, string)

  /** Each line of a value indented by two spaces, but for the first line's own indent. */
  function Indented(t: string): string
    decreases |t|
  {
    if t == "" then "" else (if t[0] == '\n' then "\n  " else [t[0]]) + Indented(t[1..])
  }

  function Line(name: string, text: string): string {
    if '\n' in text then name + (":\n  " + Indented(text)) else name + (": " + text)
  }

  /** Every line feed in the text is followed by two spaces. */
  predicate LinesIndented(t: string) {
    forall i | 0 <= i < |t| && t[i] == '\n' :: i + 2 < |t| && t[i + 1] == ' ' && t[i + 2] == ' '
  }

  lemma StaysIndented(a: string, b: string)
    requires LinesIndented(a) && LinesIndented(b)
    ensures LinesIndented(a + b)
  {
    forall i | 0 <= i < |a + b| && (a + b)[i] == '\n'
      ensures i + 2 < |a + b| && (a + b)[i + 1] == ' ' && (a + b)[i + 2] == ' '
    {
      assert if i < |a| then a[i] == '\n' else b[i - |a|] == '\n';
    }
  }

  lemma {:induction false} IndentingIndents(t: string)
    ensures LinesIndented(Indented(t))
    decreases |t|
  {
    if t != "" {
      IndentingIndents(t[1..]);
      StaysIndented(if t[0] == '\n' then "\n  " else [t[0]], Indented(t[1..]));
    }
  }

  /** A value of several lines can never be read as another field: each of its lines starts with
      two spaces, and the field's own line with its name. */
  lemma ValueLinesAreIndented(name: string, text: string)
    requires '\n' !in name
    ensures LinesIndented(Line(name, text)) && name + ":" <= Line(name, text)
  {
    if '\n' in text {
      IndentingIndents(text);
      assert LinesIndented(name) && LinesIndented(":\n  ");
      StaysIndented(":\n  ", Indented(text));
      StaysIndented(name, ":\n  " + Indented(text));
      assert Line(name, text)[..|name| + 1] == name + ":";
    } else {
      assert Line(name, text)[..|name| + 1] == name + ":";
    }
  }

  /** Nothing but the indents is added to a value: without them it is the value again. */
  lemma {:induction false} IndentsComeOff(t: string)
    ensures Unindented(Indented(t)) == t
    decreases |t|
  {
    if t != "" {
      IndentsComeOff(t[1..]);
      if t[0] == '\n' {
        assert ("\n  " + Indented(t[1..]))[1..][2..] == Indented(t[1..]);
      } else {
        assert ([t[0]] + Indented(t[1..]))[1..] == Indented(t[1..]);
      }
    }
  }

  /** The text without two characters after each line feed. */
  function Unindented(t: string): string
    decreases |t|
  {
    if t == "" then ""
    else if t[0] == '\n' && |t| >= 3 then "\n" + Unindented(t[1..][2..])
    else [t[0]] + Unindented(t[1..])
  }

  /** The lines of the fields that are not empty. */
  function Lines(fields: seq<Field>, escape: bool): string
    decreases |fields|
  {
    if fields == [] then ""
    else
      var (name, value) := fields[0];
      var rest := Lines(fields[1..], escape);
      if value == "" then rest
      else
        var line := Line(name, if escape then Escape(value, false) else value);
        if AllEmpty(fields[1..]) then line else line + ("\n" + rest)
  }

  predicate AllEmpty(fields: seq<Field>) {
    forall i | 0 <= i < |fields| :: fields[i].1 == ""
  }

  /** One field is nothing when it is empty, a line when it has one, and else its name and its
      indented lines. */
  lemma LinesOfOneField(name: string, value: string)
    ensures Lines([(name, value)], false) ==
              if value == "" then "" else if '\n' !in value then name + (": " + value)
              else name + (":\n  " + Indented(value))
  {
    assert [(name, value)][1..] == [];
  }

  lemma {:induction false} NoLinesWhenAllEmpty(fields: seq<Field>, escape: bool)
    ensures Lines(fields, escape) == "" <==> AllEmpty(fields)
    decreases |fields|
  {
    if fields != [] {
      NoLinesWhenAllEmpty(fields[1..], escape);
      assert AllEmpty(fields) <==> fields[0].1 == "" && AllEmpty(fields[1..]);
    }
  }

  /** The lines of more fields follow on a line of their own. */
  lemma {:induction false} LinesOfMoreFields(a: seq<Field>, b: seq<Field>, escape: bool)
    ensures var first, second := Lines(a, escape), Lines(b, escape);
            Lines(a + b, escape) ==
              if first == "" then second else if second == "" then first else first + ("\n" + second)
    decreases |a|
  {
    if a == [] {
      assert a + b == b;
    } else {
      var rest := a[1..];
      assert (a + b)[0] == a[0] && (a + b)[1..] == rest + b;
      LinesOfMoreFields(rest, b, escape);
      NoLinesWhenAllEmpty(rest, escape);
      NoLinesWhenAllEmpty(b, escape);
      NoLinesWhenAllEmpty(rest + b, escape);
      if a[0].1 != "" {
        var line := Line(a[0].0, if escape then Escape(a[0].1, false) else a[0].1);
        Associate(line, "\n" + Lines(rest, escape), "\n" + Lines(b, escape));
        Associate("\n", Lines(rest, escape), "\n" + Lines(b, escape));
      }
    }
  }

  /** Field names in plain characters, which need no escaping. */
  predicate PlainNames(fields: seq<Field>) {
    forall i | 0 <= i < |fields| :: Escape(fields[i].0, false) == fields[i].0
  }

  lemma {:induction false} EscapeConcat(a: string, b: string)
    ensures Escape(a + b, false) == Escape(a, false) + Escape(b, false)
    decreases |a|
  {
    if a == "" {
      assert a + b == b && Escape(a, false) + Escape(b, false) == Escape(b, false);
    } else {
      assert (a + b)[1..] == a[1..] + b;
      EscapeConcat(a[1..], b);
      Associate(EscapedChar(a[0], false), Escape(a[1..], false), Escape(b, false));
    }
  }

  lemma {:induction false} EscapeKeepsLineFeeds(t: string)
    ensures '\n' in Escape(t, false) <==> '\n' in t
    decreases |t|
  {
    if t != "" {
      EscapeKeepsLineFeeds(t[1..]);
      var first := EscapedChar(t[0], false);
      assert '\n' in first <==> t[0] == '\n';
      assert Escape(t, false) == first + Escape(t[1..], false);
      assert t == [t[0]] + t[1..];
    }
  }

  lemma {:induction false} IndentedConcat(a: string, b: string)
    ensures Indented(a + b) == Indented(a) + Indented(b)
    decreases |a|
  {
    if a == "" {
      assert a + b == b && Indented(a) + Indented(b) == Indented(b);
    } else {
      assert (a + b)[1..] == a[1..] + b;
      IndentedConcat(a[1..], b);
      Associate(if a[0] == '\n' then "\n  " else [a[0]], Indented(a[1..]), Indented(b));
    }
  }

  lemma IndentedEscape(c: char)
    ensures Indented(EscapedChar(c, false)) == Escape(Indented([c]), false)
  {
    if c == '\n' {
      assert Indented("\n") == "\n  " + Indented("");
      assert Indented([c]) == "\n  ";
      PlainEscapes();
    } else {
      assert [c][1..] == "" && Indented([c]) == [c];
      assert Escape([c], false) == EscapedChar(c, false);
      if EscapedChar(c, false) != [c] {
        PlainIndents(EscapedChar(c, false));
      }
    }
  }

  lemma {:induction false} PlainIndents(t: string)
    requires '\n' !in t
    ensures Indented(t) == t
    decreases |t|
  {
    if t != "" {
      PlainIndents(t[1..]);
      assert t == [t[0]] + t[1..];
    }
  }

  lemma PlainEscapes()
    ensures Escape("\n", false) == "\n" && Escape("\n  ", false) == "\n  "
    ensures Escape(": ", false) == ": " && Escape(":\n  ", false) == ":\n  "
  {
    assert "\n"[1..] == "" && "\n  "[1..] == "  " && "  "[1..] == " " && " "[1..] == "";
    assert ": "[1..] == " " && ":\n  "[1..] == "\n  ";
    assert Escape(" ", false) == " " && Escape("  ", false) == "  ";
  }

  lemma {:induction false} IndentEscapes(t: string)
    ensures Indented(Escape(t, false)) == Escape(Indented(t), false)
    decreases |t|
  {
    if t != "" {
      var first, rest := EscapedChar(t[0], false), Escape(t[1..], false);
      IndentedConcat(first, rest);
      IndentEscapes(t[1..]);
      IndentedEscape(t[0]);
      assert Indented(t) == Indented([t[0]]) + Indented(t[1..]) by {
        IndentedConcat([t[0]], t[1..]);
        assert t == [t[0]] + t[1..];
      }
      EscapeConcat(Indented([t[0]]), Indented(t[1..]));
    }
  }

  lemma LineEscapes(name: string, text: string)
    requires Escape(name, false) == name
    ensures Line(name, Escape(text, false)) == Escape(Line(name, text), false)
  {
    PlainEscapes();
    EscapeKeepsLineFeeds(text);
    if '\n' in text {
      IndentEscapes(text);
      EscapeConcat(":\n  ", Indented(text));
      EscapeConcat(name, ":\n  " + Indented(text));
    } else {
      EscapeConcat(": ", text);
      EscapeConcat(name, ": " + text);
    }
  }

  /** Escaping each value as it is written escapes the lines as a whole. */
  lemma {:induction false} LinesEscapeAsOne(fields: seq<Field>)
    requires PlainNames(fields)
    ensures Lines(fields, true) == Escape(Lines(fields, false), false)
    decreases |fields|
  {
    if fields != [] {
      var (name, value) := fields[0];
      LinesEscapeAsOne(fields[1..]);
      LineEscapes(name, value);
      PlainEscapes();
      EscapeConcat("\n", Lines(fields[1..], false));
      EscapeConcat(Line(name, value), "\n" + Lines(fields[1..], false));
    }
  }

  // ---- Messages ----

  /** A data element inside a message. */
  datatype Data = Data(tag: string, fields: seq<Field>)

  function Framed(lines: string): string {
    if lines == "" then "" else "\n" + (lines + "\n")
  }

  function WrittenData(d: Data): string {
    WrittenElement(d.tag, [], Framed(Lines(d.fields, true)))
  }

  /** What the writer itself keeps to. */
  predicate Formed(d: Data) {
    Spelled(d.tag) && PlainNames(d.fields)
  }

  /** What XML accepts of it. */
  predicate Sound(d: Data) {
    IsName(d.tag) && AllLegal(Lines(d.fields, false))
  }

  /** Each data element, and the line feed after it. */
  function WrittenChildren(data: seq<Data>): string
    decreases |data|
  {
    if data == [] then "" else WrittenData(data[0]) + ("\n" + WrittenChildren(data[1..]))
  }

  function WrittenMessage(text: string, attributes: seq<Attribute>, data: seq<Data>): string {
    WrittenElement("input-message", attributes, "\n" + (Escape(text, false) + ("\n" + WrittenChildren(data))))
  }

  function ReadData(d: Data): Element {
    Element(d.tag, [], Normalized(Framed(Lines(d.fields, false))), [])
  }

  function ReadChildren(data: seq<Data>): seq<Child>
    decreases |data|
  {
    if data == [] then [] else [Child(ReadData(data[0]), "\n")] + ReadChildren(data[1..])
  }

  lemma FramedLegal(lines: string)
    ensures AllLegal(Framed(lines)) <==> AllLegal(lines)
  {
    AroundLegal(lines);
  }

  lemma AroundLegal(text: string)
    ensures AllLegal("\n" + (text + "\n")) <==> AllLegal(text)
  {
    var around := "\n" + (text + "\n");
    if AllLegal(around) {
      forall i | 0 <= i < |text| ensures Legal(text[i]) {
        assert around[i + 1] == text[i];
      }
    }
  }

  lemma FramedEscapes(lines: string)
    ensures Framed(Escape(lines, false)) == Escape(Framed(lines), false)
  {
    PlainEscapes();
    EscapeConcat(lines, "\n");
    EscapeConcat("\n", lines + "\n");
  }

  lemma EndTagFollows(name: string, rest: string)
    ensures TagFollows("</" + (name + rest)) && Starts("</" + (name + rest), "</")
  {
    var s := "</" + (name + rest);
    assert s[0] == '<' && s[1] == '/';
  }

  lemma TextContentReads(t: string, rest: string)
    requires TagFollows(rest) && Starts(rest, "</")
    ensures ReadContent(Escape(t, false) + rest) == if AllLegal(t) then Some((Normalized(t), [], rest)) else None
  {
    TextReadsBack(t, rest);
  }

  /** An element of fields is read back as its lines, exactly when XML accepts its tag and them. */
  lemma FieldsReadBack(tag: string, attributes: seq<Attribute>, fields: seq<Field>, rest: string)
    requires Spelled(tag) && AllSpelled(attributes) && PlainNames(fields)
    ensures var lines := Lines(fields, false);
            ReadElement(WrittenElement(tag, attributes, Framed(Lines(fields, true))) + rest) ==
              if TagIsWell(tag, attributes) && AllLegal(lines)
              then Some((Element(tag, SpacedAll(attributes), Normalized(Framed(lines)), []), rest))
              else None
  {
    var lines := Lines(fields, false);
    LinesEscapeAsOne(fields);
    FramedEscapes(lines);
    FramedLegal(lines);
    EndTagFollows(tag, ">" + rest);
    TextContentReads(Framed(lines), "</" + (tag + (">" + rest)));
    ElementReads(tag, attributes, Framed(Lines(fields, true)), rest, Normalized(Framed(lines)), []);
  }

  lemma DataReadsBack(d: Data, rest: string)
    requires Formed(d)
    ensures ReadElement(WrittenData(d) + rest) == if Sound(d) then Some((ReadData(d), rest)) else None
    ensures var lines := Lines(d.fields, false);
            ReadData(d) == Element(d.tag, [], Normalized(if lines == "" then "" else "\n" + (lines + "\n")), [])
  {
    FieldsReadBack(d.tag, [], d.fields, rest);
  }

  lemma TagStarts(name: string, x: string, rest: string)
    requires Spelled(name)
    ensures var s := ("<" + (name + x)) + rest; TagFollows(s) && !Starts(s, "</")
  {
    var s := ("<" + (name + x)) + rest;
    assert s[0] == '<' && s[1] == name[0];
  }

  lemma DataStarts(d: Data, rest: string)
    requires Formed(d)
    ensures TagFollows(WrittenData(d) + rest) && !Starts(WrittenData(d) + rest, "</")
  {
    TagStarts(d.tag, WrittenAttributes([]) + (">" + (Framed(Lines(d.fields, true)) + ("</" + (d.tag + ">")))), rest);
  }

  predicate AllFormed(data: seq<Data>) {
    forall i | 0 <= i < |data| :: Formed(data[i])
  }

  predicate AllSound(data: seq<Data>) {
    forall i | 0 <= i < |data| :: Sound(data[i])
  }

  lemma ChildrenUnfold(data: seq<Data>, rest: string)
    requires data != []
    ensures WrittenChildren(data) + rest == WrittenData(data[0]) + ("\n" + (WrittenChildren(data[1..]) + rest))
  {
    Associate(WrittenData(data[0]), "\n" + WrittenChildren(data[1..]), rest);
    Associate("\n", WrittenChildren(data[1..]), rest);
  }

  lemma SoundParts(data: seq<Data>)
    requires data != []
    ensures AllSound(data) <==> Sound(data[0]) && AllSound(data[1..])
  {
    assert data == [data[0]] + data[1..];
  }

  /** Text, then data elements each followed by a line feed, up to the end tag, exactly when
      XML accepts them all. */
  lemma {:induction false} ContentReadsBack(t: string, data: seq<Data>, rest: string)
    requires AllFormed(data) && TagFollows(rest) && Starts(rest, "</")
    ensures ReadContent(Escape(t, false) + (WrittenChildren(data) + rest)) ==
              if AllLegal(t) && AllSound(data) then Some((Normalized(t), ReadChildren(data), rest)) else None
    decreases |data|
  {
    if data == [] {
      assert WrittenChildren(data) + rest == rest;
      TextContentReads(t, rest);
    } else {
      var later := WrittenChildren(data[1..]) + rest;
      ChildrenUnfold(data, rest);
      DataStarts(data[0], "\n" + later);
      TextReadsBack(t, WrittenData(data[0]) + ("\n" + later));
      DataReadsBack(data[0], "\n" + later);
      PlainEscapes();
      NormalizedIsSame("\n");
      ContentReadsBack("\n", data[1..], rest);
      SoundParts(data);
    }
  }

  lemma LineFeedsRegroup(text: string, children: string, rest: string)
    ensures ("\n" + (text + ("\n" + children))) + rest == ("\n" + (text + "\n")) + (children + rest)
  {
  }

  lemma MessageContent(text: string, children: string, rest: string)
    ensures ("\n" + (Escape(text, false) + ("\n" + children))) + rest ==
            Escape("\n" + (text + "\n"), false) + (children + rest)
  {
    PlainEscapes();
    EscapeConcat(text, "\n");
    EscapeConcat("\n", text + "\n");
    LineFeedsRegroup(Escape(text, false), children, rest);
  }

  lemma TheNamesAreNames()
    ensures IsName("input-message") && IsName("dynamic-context") && IsName("kind") && IsName("id")
  {
  }

  /** What XML accepts of a message: legal characters, and names that are names, none twice. */
  predicate MessageIsWell(text: string, attributes: seq<Attribute>, data: seq<Data>) {
    AllLegal(text) && Writable(attributes) && DistinctNames(attributes) && AllSound(data)
  }

  /** A serialized message is one element, whose attributes, text and data are as written, up
      to what XML does with line ends and with white space in attributes, exactly when XML
      accepts it; otherwise nothing is read. */
  lemma MessageReadsBack(text: string, attributes: seq<Attribute>, data: seq<Data>)
    requires AllSpelled(attributes) && AllFormed(data)
    ensures Parse(WrittenMessage(text, attributes, data)) ==
              if MessageIsWell(text, attributes, data)
              then Some(Element("input-message", SpacedAll(attributes), Normalized("\n" + (text + "\n")),
                                ReadChildren(data)))
              else None
  {
    TheNamesAreNames();
    MessageElementReads("input-message", text, attributes, data);
  }

  lemma MessageElementReads(name: string, text: string, attributes: seq<Attribute>, data: seq<Data>)
    requires IsName(name) && AllSpelled(attributes) && AllFormed(data)
    ensures Parse(WrittenElement(name, attributes, "\n" + (Escape(text, false) + ("\n" + WrittenChildren(data))))) ==
              if MessageIsWell(text, attributes, data)
              then Some(Element(name, SpacedAll(attributes), Normalized("\n" + (text + "\n")), ReadChildren(data)))
              else None
  {
    var end := "</" + (name + (">" + ""));
    var content := "\n" + (Escape(text, false) + ("\n" + WrittenChildren(data)));
    EndTagFollows(name, ">" + "");
    MessageContent(text, WrittenChildren(data), end);
    AroundLegal(text);
    ContentReadsBack("\n" + (text + "\n"), data, end);
    ElementReads(name, attributes, content, "", Normalized("\n" + (text + "\n")), ReadChildren(data));
    assert WrittenElement(name, attributes, content) + "" == WrittenElement(name, attributes, content);
  }

  // ---- The authored text of a message ----

  /** The text of the first child with this name, as older messages carried theirs. */
  function ChildText(children: seq<Child>, name: string): string
    decreases |children|
  {
    if children == [] then ""
    else if children[0].element.name == name then children[0].element.text
    else ChildText(children[1..], name)
  }

  /** A message's own text, or else that child's, when either is more than white space. */
  function Authored(own: string, child: string): Option<string> {
    if own != "" then Some(own) else if child != "" then Some(child) else None
  }

  function InputMessageText(content: string): Option<string> {
    var e := Parse(content);
    if e.None? || e.value.name != "input-message" then None
    else Authored(Strip(e.value.text), Strip(ChildText(e.value.children, "content")))
  }

  predicate AllSpace(t: string) {
    forall i | 0 <= i < |t| :: IsSpace(t[i])
  }

  lemma {:induction false} StripLeftOfNormalized(t: string)
    ensures StripLeft(Normalized(t)) == Normalized(StripLeft(t))
    decreases |t|
  {
    if t != "" {
      if t[0] == '\r' {
        var past := PastLineEnd(t);
        StripLeftOfNormalized(past);
        assert Normalized(t)[1..] == Normalized(past);
        if |t| > 1 && t[1] == '\n' {
          assert t[1..][1..] == t[2..];
          assert StripLeft(t[1..]) == StripLeft(t[2..]);
        }
      } else if IsSpace(t[0]) {
        StripLeftOfNormalized(t[1..]);
        assert Normalized(t)[1..] == Normalized(t[1..]);
      }
    }
  }

  lemma {:induction false} StripRightSplits(t: string) returns (trail: string)
    ensures t == StripRight(t) + trail && AllSpace(trail)
    decreases |t|
  {
    if t != "" && IsSpace(t[|t| - 1]) {
      var rest := StripRightSplits(t[..|t| - 1]);
      trail := rest + [t[|t| - 1]];
      Associate(StripRight(t), rest, [t[|t| - 1]]);
      assert t == t[..|t| - 1] + [t[|t| - 1]];
    } else {
      trail := "";
    }
  }

  lemma {:induction false} StripRightDropsSpace(t: string, trail: string)
    requires AllSpace(trail)
    ensures StripRight(t + trail) == StripRight(t)
    decreases |trail|
  {
    if trail == "" {
      assert t + trail == t;
    } else {
      assert (t + trail)[..|t + trail| - 1] == t + trail[..|trail| - 1];
      StripRightDropsSpace(t, trail[..|trail| - 1]);
    }
  }

  lemma {:induction false} NormalizedConcat(a: string, b: string)
    requires NoReturn(a)
    ensures Normalized(a + b) == a + Normalized(b)
    decreases |a|
  {
    if a == "" {
      assert a + b == b;
    } else {
      assert (a + b)[1..] == a[1..] + b;
      NormalizedConcat(a[1..], b);
      assert a == [a[0]] + a[1..];
      Associate([a[0]], a[1..], Normalized(b));
    }
  }

  lemma {:induction false} NormalizedSpace(t: string)
    requires AllSpace(t)
    ensures AllSpace(Normalized(t))
    decreases |t|
  {
    if t != "" {
      NormalizedSpace(if t[0] == '\r' then PastLineEnd(t) else t[1..]);
    }
  }

  lemma {:induction false} NormalizedHasNoReturn(t: string)
    ensures NoReturn(Normalized(t))
    decreases |t|
  {
    if t != "" {
      NormalizedHasNoReturn(if t[0] == '\r' then PastLineEnd(t) else t[1..]);
    }
  }

  lemma {:induction false} StripRightTwice(t: string)
    ensures StripRight(StripRight(t)) == StripRight(t)
    decreases |t|
  {
    if t != "" && IsSpace(t[|t| - 1]) {
      StripRightTwice(t[..|t| - 1]);
    }
  }

  /** Reading line ends changes a stripped text only when a carriage return is inside it. */
  lemma StripOfNormalized(t: string)
    requires NoReturn(Strip(t))
    ensures Strip(Normalized(t)) == Strip(t)
  {
    StripLeftOfNormalized(t);
    var trail := StripRightSplits(StripLeft(t));
    NormalizedConcat(Strip(t), trail);
    NormalizedSpace(trail);
    StripRightDropsSpace(Strip(t), Normalized(trail));
    StripRightTwice(StripLeft(t));
  }

  lemma {:induction false} StripKeepsNoReturn(t: string)
    requires NoReturn(t)
    ensures NoReturn(StripLeft(t))
    decreases |t|
  {
    if t != "" && IsSpace(t[0]) {
      StripKeepsNoReturn(t[1..]);
    }
  }

  lemma StripHasNoReturn(t: string)
    requires NoReturn(t)
    ensures NoReturn(Strip(t))
  {
    StripKeepsNoReturn(t);
    var trail := StripRightSplits(StripLeft(t));
    forall i | 0 <= i < |Strip(t)| ensures Strip(t)[i] != '\r' {
      assert StripLeft(t)[i] == Strip(t)[i];
    }
  }

  /** The text read from a serialized message. */
  lemma WhatIsRead(text: string, attributes: seq<Attribute>, data: seq<Data>)
    requires AllSpelled(attributes) && AllFormed(data)
    ensures InputMessageText(WrittenMessage(text, attributes, data)) ==
              if MessageIsWell(text, attributes, data)
              then Authored(Strip(Normalized("\n" + (text + "\n"))), Strip(ChildText(ReadChildren(data), "content")))
              else None
  {
    MessageReadsBack(text, attributes, data);
  }

  /** The authored text comes back stripped exactly when XML accepts the message and no carriage
      return is inside the text. */
  lemma AuthoredTextComesBack(text: string, attributes: seq<Attribute>, data: seq<Data>)
    requires AllSpelled(attributes) && AllFormed(data) && Strip(text) != ""
    ensures InputMessageText(WrittenMessage(text, attributes, data)) == Some(Strip(text))
       <==> MessageIsWell(text, attributes, data) && NoReturn(Strip(text))
  {
    var around, child := "\n" + (text + "\n"), ChildText(ReadChildren(data), "content");
    WhatIsRead(text, attributes, data);
    StripAround(text);
    NormalizedHasNoReturn(around);
    StripHasNoReturn(Normalized(around));
    ChildTextHasNoReturn(data);
    StripHasNoReturn(child);
    if NoReturn(Strip(text)) {
      StripOfNormalized(around);
    }
  }

  lemma {:induction false} ChildTextHasNoReturn(data: seq<Data>)
    ensures NoReturn(ChildText(ReadChildren(data), "content"))
    decreases |data|
  {
    if data != [] {
      NormalizedHasNoReturn(Framed(Lines(data[0].fields, false)));
      ChildTextHasNoReturn(data[1..]);
      assert ReadChildren(data)[1..] == ReadChildren(data[1..]);
    }
  }

  // ---- Run contexts ----

  function Section(body: string): string {
    CDataOpen + ("\n" + (SplitCloses(body) + ("\n" + CDataClose)))
  }

  function RunContext(id: string, guidance: string): string {
    WrittenElement("dynamic-context", BlockAttributes("run", id), Section(Strip(guidance)))
  }

  lemma RejoinSection(split: string, rest: string)
    ensures (CDataOpen + ("\n" + (split + ("\n" + CDataClose)))) + rest ==
            CDataOpen + (("\n" + (split + "\n")) + (CDataClose + rest))
  {
  }

  lemma OpenedReads(x: string)
    ensures ReadText(CDataOpen + x) == ReadOn(x)
  {
    PrefixOf(CDataOpen, x);
    assert (CDataOpen + x)[0] == '<';
  }

  lemma {:induction false} SplitKeepsEnd(t: string)
    ensures SplitCloses(t + "\n") == SplitCloses(t) + "\n"
    decreases |t|
  {
    if t == "" {
      assert t + "\n" == "\n" && "\n"[1..] == "";
      assert !Starts("\n", CDataClose);
    } else if Starts(t, CDataClose) {
      assert (t + "\n")[..3] == t[..3] && (t + "\n")[3..] == t[3..] + "\n";
      SplitKeepsEnd(t[3..]);
      Associate("]]]]><![CDATA[>", SplitCloses(t[3..]), "\n");
    } else {
      NoCloseAtEnd(t);
      assert (t + "\n")[1..] == t[1..] + "\n";
      SplitKeepsEnd(t[1..]);
      Associate([t[0]], SplitCloses(t[1..]), "\n");
    }
  }

  lemma NoCloseAtEnd(t: string)
    requires t != "" && !Starts(t, CDataClose)
    ensures !Starts(t + "\n", CDataClose)
  {
    if |t| >= 3 {
      assert (t + "\n")[..3] == t[..3];
    } else {
      assert (t + "\n")[|t|] == '\n';
    }
  }

  lemma SplitAround(t: string)
    ensures SplitCloses("\n" + (t + "\n")) == "\n" + (SplitCloses(t) + "\n")
  {
    var around := "\n" + (t + "\n");
    assert around[0] == '\n' && around[1..] == t + "\n";
    SplitKeepsEnd(t);
  }

  lemma SectionReads(body: string, rest: string)
    requires TagFollows(rest)
    ensures ReadText(Section(body) + rest) ==
              if AllLegal(body) then Got(Normalized("\n" + (body + "\n")), rest) else Bad
  {
    var around := "\n" + (body + "\n");
    RejoinSection(SplitCloses(body), rest);
    SplitAround(body);
    OpenedReads(SplitCloses(around) + (CDataClose + rest));
    SplitTextReadsBack(around, rest);
    AroundLegal(body);
  }

  lemma SectionElementReads(name: string, attributes: seq<Attribute>, body: string)
    requires Spelled(name) && AllSpelled(attributes)
    ensures Parse(WrittenElement(name, attributes, Section(body))) ==
              if TagIsWell(name, attributes) && AllLegal(body)
              then Some(Element(name, SpacedAll(attributes), Normalized("\n" + (body + "\n")), []))
              else None
  {
    EndTagFollows(name, ">" + "");
    SectionReads(body, "</" + (name + (">" + "")));
    ElementReads(name, attributes, Section(body), "", Normalized("\n" + (body + "\n")), []);
    assert WrittenElement(name, attributes, Section(body)) + "" == WrittenElement(name, attributes, Section(body));
  }

  /** The attributes of a context block. */
  function BlockAttributes(kind: string, id: string): seq<Attribute> {
    [("kind", kind), ("id", id)]
  }

  lemma BlockAttributesRead(kind: string, id: string)
    ensures var attributes := BlockAttributes(kind, id);
            && AllSpelled(attributes) && DistinctNames(attributes)
            && (Writable(attributes) <==> AllLegal(kind) && AllLegal(id))
            && SpacedAll(attributes) == BlockAttributes(Spaced(kind), Spaced(id))
  {
    TheNamesAreNames();
    var attributes := BlockAttributes(kind, id);
    assert |attributes[0].0| != |attributes[1].0|;
    assert attributes[0] == ("kind", kind) && attributes[1] == ("id", id);
    SpacedAllAt(attributes);
  }

  lemma RunIsPlain()
    ensures AllLegal("run") && Spaced("run") == "run"
  {
    SpacedIsSame("run");
  }

  /** A run context is one element whose character data is the stripped guidance with a line
      feed on each side, line ends normalized, whatever closes of CDATA sections the guidance
      holds; and it is one exactly when its id and the stripped guidance are legal. */
  lemma RunContextReadsBack(id: string, guidance: string)
    ensures Parse(RunContext(id, guidance)) ==
              if AllLegal(id) && AllLegal(Strip(guidance))
              then Some(Element("dynamic-context", BlockAttributes("run", Spaced(id)),
                                Normalized("\n" + (Strip(guidance) + "\n")), []))
              else None
  {
    TheNamesAreNames();
    RunIsPlain();
    BlockAttributesRead("run", id);
    SectionElementReads("dynamic-context", BlockAttributes("run", id), Strip(guidance));
  }

  /** The guidance itself is the character data exactly when it also has no carriage return. */
  lemma GuidanceIsReadWhole(id: string, guidance: string)
    ensures Parse(RunContext(id, guidance)) ==
              Some(Element("dynamic-context", BlockAttributes("run", Spaced(id)), "\n" + (Strip(guidance) + "\n"), []))
       <==> AllLegal(id) && AllLegal(Strip(guidance)) && NoReturn(Strip(guidance))
  {
    RunContextReadsBack(id, guidance);
    NormalizedIsSame("\n" + (Strip(guidance) + "\n"));
    NoReturnAround(Strip(guidance));
  }

  lemma NoReturnAround(text: string)
    ensures NoReturn("\n" + (text + "\n")) <==> NoReturn(text)
  {
    var around := "\n" + (text + "\n");
    if NoReturn(around) {
      forall i | 0 <= i < |text| ensures text[i] != '\r' {
        assert around[i + 1] == text[i];
      }
    }
  }

  /** A block that introduces a person, a channel or a system. */
  function EntityContext(kind: string, id: string, fields: seq<Field>): string {
    WrittenElement("dynamic-context", BlockAttributes(kind, id), Framed(Lines(fields, true)))
  }

  /** An introduction is read back exactly when its id and its lines are legal. */
  lemma EntityContextReadsBack(kind: string, id: string, fields: seq<Field>)
    requires AllLegal(kind) && PlainNames(fields)
    ensures Parse(EntityContext(kind, id, fields)) ==
              if AllLegal(id) && AllLegal(Lines(fields, false))
              then Some(Element("dynamic-context", BlockAttributes(Spaced(kind), Spaced(id)),
                                Normalized(Framed(Lines(fields, false))), []))
              else None
  {
    TheNamesAreNames();
    BlockAttributesRead(kind, id);
    FieldsReadBack("dynamic-context", BlockAttributes(kind, id), fields, "");
    assert EntityContext(kind, id, fields) + "" == EntityContext(kind, id, fields);
  }
}
