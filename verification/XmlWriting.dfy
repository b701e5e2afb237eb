/** Escaped text, attribute values, CDATA sections and elements, each read back. */
module XmlWriting {
  import opened Options
  import opened Xml

  // ---- Text ----

  function EscapedChar(c: char, quote: bool): string {
    if c == '&' then "&amp;"
    else if c == '<' then "&lt;"
    else if c == '>' then "&gt;"
    else if quote && c == '"' then "&quot;"
    else if quote && c == '\'' then "&#x27;"
    else [c]
  }

  function Escape(t: string, quote: bool): string
    decreases |t|
  {
    if t == "" then "" else EscapedChar(t[0], quote) + Escape(t[1..], quote)
  }

  /** What a reader makes of a text's line ends (section 2.11). */
  function Normalized(t: string): string
    decreases |t|
  {
    if t == "" then ""
    else if t[0] == '\r' then "\n" + Normalized(PastLineEnd(t))
    else [t[0]] + Normalized(t[1..])
  }

  predicate NoReturn(t: string) {
    forall i | 0 <= i < |t| :: t[i] != '\r'
  }

  /** Reading keeps a text's line ends exactly when it has no carriage return. */
  lemma {:induction false} NormalizedIsSame(t: string)
    ensures Normalized(t) == t <==> NoReturn(t)
    decreases |t|
  {
    if t != "" {
      assert t == [t[0]] + t[1..];
      if t[0] == '\r' {
        assert Normalized(t)[0] == '\n';
      } else {
        NormalizedIsSame(t[1..]);
        assert ([t[0]] + Normalized(t[1..]))[1..] == Normalized(t[1..]);
      }
    }
  }

  lemma PrefixOf(p: string, x: string)
    ensures Starts(p + x, p) && (p + x)[|p|..] == x
  {
  }

  /** A text that a tag follows, rather than a CDATA section. */
  predicate TagFollows(rest: string) {
    rest != "" && rest[0] == '<' && !Starts(rest, CDataOpen)
  }

  lemma {:induction false} EscapeHidesMarkup(t: string)
    ensures forall i | 0 <= i < |Escape(t, false)| :: Escape(t, false)[i] != '>' && Escape(t, false)[i] != '<'
    decreases |t|
  {
    if t != "" {
      EscapeHidesMarkup(t[1..]);
    }
  }

  lemma EscapeStarts(t: string, rest: string)
    requires TagFollows(rest)
    ensures Escape(t, false) + rest != ""
    ensures (Escape(t, false) + rest)[0] == '\n' <==> t != "" && t[0] == '\n'
    ensures !Starts(Escape(t, false) + rest, CDataClose)
    ensures t != "" ==> !Starts(Escape(t, false) + rest, CDataOpen)
  {
    EscapeHidesMarkup(t);
    var s, n := Escape(t, false) + rest, |Escape(t, false)|;
    assert s[n] == '<';
    if n > 2 {
      assert s[2] != '>';
    }
    if t != "" {
      assert s[0] == EscapedChar(t[0], false)[0];
    }
  }

  /** Each escape is read as the character it stands for. */
  lemma EscapeIsReference(c: char, x: string)
    requires EscapedChar(c, true) != [c]
    ensures Reference(EscapedChar(c, true) + x) == Some((c, x))
    ensures (EscapedChar(c, true) + x)[0] == '&'
  {
    PrefixOf(EscapedChar(c, true), x);
  }

  /** One escaped character, before anything that does not make it a CDATA close. */
  lemma EscapedCharReads(c: char, x: string)
    requires Legal(c) && c != '\r' && !(c == ']' && Starts([c] + x, CDataClose))
    ensures ReadText(EscapedChar(c, false) + x) == Then([c], ReadText(x))
  {
    if c in {'&', '<', '>'} {
      EscapeIsReference(c, x);
    } else {
      assert ([c] + x)[1..] == x && ([c] + x)[0] == c;
    }
  }

  lemma UnescapedReturn(c: char, left: string)
    requires c == '\r'
    ensures PastLineEnd([c] + left) == if left != "" && left[0] == '\n' then left[1..] else left
  {
  }

  lemma PastEscapedReturn(t: string, rest: string)
    requires TagFollows(rest) && t != "" && t[0] == '\r'
    ensures var left := Escape(t[1..], false) + rest;
            (if left != "" && left[0] == '\n' then left[1..] else left) == Escape(PastLineEnd(t), false) + rest
  {
    EscapeStarts(t[1..], rest);
    if |t| > 1 && t[1] == '\n' {
      assert t[1..][1..] == t[2..];
      assert Escape(t[1..], false) == ['\n'] + Escape(t[2..], false);
      assert (['\n'] + Escape(t[2..], false)) + rest == ['\n'] + (Escape(t[2..], false) + rest);
    }
  }

  lemma PastLineEndLegal(t: string)
    requires t != "" && t[0] == '\r'
    ensures AllLegal(t) <==> AllLegal(PastLineEnd(t))
  {
    if AllLegal(PastLineEnd(t)) {
      forall i | 0 <= i < |t| ensures Legal(t[i]) {
        if i > 0 && !(|t| > 1 && t[1] == '\n') {
          assert t[i] == t[1..][i - 1];
        } else if i > 1 {
          assert t[i] == t[2..][i - 2];
        }
      }
    }
  }

  lemma HeadLegal(t: string)
    requires t != ""
    ensures AllLegal(t) <==> Legal(t[0]) && AllLegal(t[1..])
  {
    if Legal(t[0]) && AllLegal(t[1..]) {
      forall i | 0 <= i < |t| ensures Legal(t[i]) {
        assert i > 0 ==> t[i] == t[1..][i - 1];
      }
    }
  }

  lemma EscapeUnfolds(t: string, rest: string)
    requires t != ""
    ensures Escape(t, false) + rest == EscapedChar(t[0], false) + (Escape(t[1..], false) + rest)
  {
  }

  lemma IllegalReads(c: char, left: string)
    requires !Legal(c)
    ensures ReadText(EscapedChar(c, false) + left) == Bad
  {
    assert (EscapedChar(c, false) + left)[0] == c;
  }

  lemma ReturnReads(t: string, rest: string)
    requires TagFollows(rest) && t != "" && t[0] == '\r'
    ensures ReadText(Escape(t, false) + rest) == Then("\n", ReadText(Escape(PastLineEnd(t), false) + rest))
  {
    var left := Escape(t[1..], false) + rest;
    assert Escape(t, false) + rest == ['\r'] + left;
    UnescapedReturn('\r', left);
    PastEscapedReturn(t, rest);
  }

  lemma CharReads(t: string, rest: string)
    requires TagFollows(rest) && t != "" && t[0] != '\r'
    ensures ReadText(Escape(t, false) + rest) ==
              if Legal(t[0]) then Then([t[0]], ReadText(Escape(t[1..], false) + rest)) else Bad
  {
    var left := Escape(t[1..], false) + rest;
    EscapeUnfolds(t, rest);
    if Legal(t[0]) {
      EscapeStarts(t, rest);
      EscapedCharReads(t[0], left);
    } else {
      IllegalReads(t[0], left);
    }
  }

  /** Escaped text is read back, with its line ends normalized, exactly when it is legal. */
  lemma {:induction false} TextReadsBack(t: string, rest: string)
    requires TagFollows(rest)
    ensures ReadText(Escape(t, false) + rest) == if AllLegal(t) then Got(Normalized(t), rest) else Bad
    decreases |t|
  {
    if t == "" {
      assert Escape(t, false) + rest == rest;
    } else if t[0] == '\r' {
      ReturnReads(t, rest);
      PastLineEndLegal(t);
      TextReadsBack(PastLineEnd(t), rest);
    } else {
      CharReads(t, rest);
      HeadLegal(t);
      TextReadsBack(t[1..], rest);
    }
  }

  // ---- Attributes ----

  /** What a reader makes of a value's white space (section 3.3.3). */
  function Spaced(v: string): string
    decreases |v|
  {
    if v == "" then ""
    else if v[0] == '\r' then " " + Spaced(PastLineEnd(v))
    else [if v[0] in {'\t', '\n'} then ' ' else v[0]] + Spaced(v[1..])
  }

  /** A value is read back as it was when it has no white space but spaces. */
  lemma {:induction false} SpacedIsSame(v: string)
    requires forall i | 0 <= i < |v| :: v[i] !in {'\t', '\n', '\r'}
    ensures Spaced(v) == v
    decreases |v|
  {
    if v != "" {
      SpacedIsSame(v[1..]);
      assert v == [v[0]] + v[1..];
    }
  }

  lemma ValueCharReads(c: char, left: string)
    requires c != '\r'
    ensures ReadValue(EscapedChar(c, true) + left) ==
              if Legal(c) then Then([if c in {'\t', '\n'} then ' ' else c], ReadValue(left)) else Bad
  {
    if EscapedChar(c, true) != [c] {
      EscapeIsReference(c, left);
    } else {
      assert ([c] + left)[1..] == left && ([c] + left)[0] == c;
    }
  }

  lemma PastQuotedReturn(v: string, end: string)
    requires v != "" && v[0] == '\r' && end != "" && end[0] != '\n'
    ensures var left := Escape(v[1..], true) + end;
            (if left != "" && left[0] == '\n' then left[1..] else left) == Escape(PastLineEnd(v), true) + end
  {
    if |v| == 1 {
      assert Escape(v[1..], true) + end == end;
    } else {
      var first, tail := EscapedChar(v[1], true), Escape(v[2..], true);
      assert v[1..][1..] == v[2..];
      assert Escape(v[1..], true) == first + tail;
      assert (first + tail) + end == first + (tail + end);
    }
  }

  lemma QuotedReturn(v: string, rest: string)
    requires v != "" && v[0] == '\r'
    ensures ReadValue(Escape(v, true) + ("\"" + rest)) ==
              Then(" ", ReadValue(Escape(PastLineEnd(v), true) + ("\"" + rest)))
  {
    var left := Escape(v[1..], true) + ("\"" + rest);
    assert Escape(v, true) + ("\"" + rest) == ['\r'] + left;
    UnescapedReturn('\r', left);
    PastQuotedReturn(v, "\"" + rest);
  }

  /** An escaped value is read back, with its white space as spaces, exactly when it is legal. */
  lemma {:induction false} ValueReadsBack(v: string, rest: string)
    ensures ReadValue(Escape(v, true) + ("\"" + rest)) == if AllLegal(v) then Got(Spaced(v), rest) else Bad
    decreases |v|
  {
    if v == "" {
      assert Escape(v, true) + ("\"" + rest) == "\"" + rest;
      assert ("\"" + rest)[1..] == rest;
    } else if v[0] == '\r' {
      QuotedReturn(v, rest);
      PastLineEndLegal(v);
      ValueReadsBack(PastLineEnd(v), rest);
    } else {
      assert Escape(v, true) + ("\"" + rest) == EscapedChar(v[0], true) + (Escape(v[1..], true) + ("\"" + rest));
      ValueCharReads(v[0], Escape(v[1..], true) + ("\"" + rest));
      HeadLegal(v);
      ValueReadsBack(v[1..], rest);
    }
  }

  lemma {:induction false} NameIsFound(name: string, x: string)
    requires (forall i | 0 <= i < |name| :: NameChar(name[i])) && (x == "" || !NameChar(x[0]))
    ensures NameLength(name + x) == |name|
    decreases |name|
  {
    if name == "" {
      assert name + x == x;
    } else {
      assert (name + x)[1..] == name[1..] + x;
      NameIsFound(name[1..], x);
    }
  }

  /** A name in name characters, which may still start with a wrong one. */
  predicate Spelled(name: string) {
    name != "" && forall i | 0 <= i < |name| :: NameChar(name[i])
  }

  lemma NameSplits(name: string, x: string)
    requires Spelled(name) && (x == "" || !NameChar(x[0]))
    ensures NameLength(name + x) == |name| && (name + x)[..|name|] == name && (name + x)[|name|..] == x
  {
    NameIsFound(name, x);
  }

  function WrittenAttributes(attributes: seq<Attribute>): string
    decreases |attributes|
  {
    if attributes == [] then ""
    else
      " " + (attributes[0].0 + ("=\"" + (Escape(attributes[0].1, true) + ("\"" + WrittenAttributes(attributes[1..])))))
  }

  predicate AllSpelled(attributes: seq<Attribute>) {
    forall i | 0 <= i < |attributes| :: Spelled(attributes[i].0)
  }

  /** Names and values that XML accepts. */
  predicate Writable(attributes: seq<Attribute>) {
    forall i | 0 <= i < |attributes| :: IsName(attributes[i].0) && AllLegal(attributes[i].1)
  }

  function SpacedAll(attributes: seq<Attribute>): seq<Attribute>
    decreases |attributes|
  {
    if attributes == [] then [] else [(attributes[0].0, Spaced(attributes[0].1))] + SpacedAll(attributes[1..])
  }

  lemma {:induction false} SpacedAllAt(attributes: seq<Attribute>)
    ensures |SpacedAll(attributes)| == |attributes|
    ensures forall i | 0 <= i < |attributes| :: SpacedAll(attributes)[i] == (attributes[i].0, Spaced(attributes[i].1))
    decreases |attributes|
  {
    if attributes != [] {
      SpacedAllAt(attributes[1..]);
    }
  }

  /** One attribute, before whatever follows it. */
  lemma AttributeReads(name: string, value: string, more: string)
    requires Spelled(name)
    ensures ReadAttributes(" " + (name + ("=\"" + (Escape(value, true) + ("\"" + more))))) ==
              if IsName(name) && AllLegal(value) && ReadAttributes(more).Some?
              then Some(([(name, Spaced(value))] + ReadAttributes(more).value.0, ReadAttributes(more).value.1))
              else None
  {
    var after := "=\"" + (Escape(value, true) + ("\"" + more));
    var s := " " + (name + after);
    assert s[1..] == name + after;
    NameSplits(name, after);
    PrefixOf("=\"", Escape(value, true) + ("\"" + more));
    ValueReadsBack(value, more);
  }

  lemma Rejoin(a: string, b: string, c: string, d: string, more: string, rest: string)
    ensures (" " + (a + (b + (c + (d + more))))) + rest == " " + (a + (b + (c + (d + (more + rest)))))
  {
  }

  /** Written attributes are read back, in order, exactly when XML accepts them all. */
  lemma {:induction false} AttributesReadBack(attributes: seq<Attribute>, rest: string)
    requires AllSpelled(attributes)
    ensures ReadAttributes(WrittenAttributes(attributes) + (">" + rest)) ==
              if Writable(attributes) then Some((SpacedAll(attributes), rest)) else None
    decreases |attributes|
  {
    if attributes == [] {
      assert WrittenAttributes(attributes) + (">" + rest) == ">" + rest;
      assert (">" + rest)[1..] == rest;
    } else {
      var (name, value) := attributes[0];
      var more := WrittenAttributes(attributes[1..]) + (">" + rest);
      Rejoin(name, "=\"", Escape(value, true), "\"", WrittenAttributes(attributes[1..]), ">" + rest);
      AttributesReadBack(attributes[1..], rest);
      AttributeReads(name, value, more);
      WritableParts(attributes);
    }
  }

  lemma WritableParts(attributes: seq<Attribute>)
    requires attributes != []
    ensures Writable(attributes) <==>
              IsName(attributes[0].0) && AllLegal(attributes[0].1) && Writable(attributes[1..])
  {
    assert attributes == [attributes[0]] + attributes[1..];
  }

  // ---- Elements ----

  function WrittenElement(name: string, attributes: seq<Attribute>, content: string): string {
    "<" + (name + (WrittenAttributes(attributes) + (">" + (content + ("</" + (name + ">"))))))
  }

  lemma RejoinElement(name: string, attributes: string, content: string, rest: string)
    ensures ("<" + (name + (attributes + (">" + (content + ("</" + (name + ">"))))))) + rest ==
            "<" + (name + (attributes + (">" + (content + ("</" + (name + (">" + rest)))))))
  {
  }

  lemma EndsWithTag(name: string, rest: string)
    ensures Starts("</" + (name + (">" + rest)), "</" + name + ">")
    ensures ("</" + (name + (">" + rest)))[|"</" + name + ">"|..] == rest
  {
    assert "</" + (name + (">" + rest)) == ("</" + name + ">") + rest;
    PrefixOf("</" + name + ">", rest);
  }

  lemma AttributesStart(attributes: seq<Attribute>, x: string)
    ensures var s := WrittenAttributes(attributes) + (">" + x); s != "" && s[0] in {' ', '>'}
  {
  }

  /** A start tag that XML accepts. */
  predicate TagIsWell(name: string, attributes: seq<Attribute>) {
    IsName(name) && Writable(attributes) && DistinctNames(attributes)
  }

  lemma SpacedAllNames(attributes: seq<Attribute>)
    ensures DistinctNames(SpacedAll(attributes)) <==> DistinctNames(attributes)
  {
    SpacedAllAt(attributes);
  }

  lemma StartTagReads(name: string, attributes: seq<Attribute>, inner: string)
    requires Spelled(name) && AllSpelled(attributes)
    ensures ReadStartTag("<" + (name + (WrittenAttributes(attributes) + (">" + inner)))) ==
              if TagIsWell(name, attributes) then Some((name, SpacedAll(attributes), inner)) else None
  {
    var tail := WrittenAttributes(attributes) + (">" + inner);
    assert ("<" + (name + tail))[1..] == name + tail;
    AttributesStart(attributes, inner);
    NameSplits(name, tail);
    AttributesReadBack(attributes, inner);
    SpacedAllNames(attributes);
  }

  /** An element is read back exactly when its tag is well written and its content is read. */
  lemma ElementReads(name: string, attributes: seq<Attribute>, content: string, rest: string,
                     text: string, children: seq<Child>)
    requires Spelled(name) && AllSpelled(attributes)
    requires var read := ReadContent(content + ("</" + (name + (">" + rest))));
             read.None? || read == Some((text, children, "</" + (name + (">" + rest))))
    ensures ReadElement(WrittenElement(name, attributes, content) + rest) ==
              if TagIsWell(name, attributes) && ReadContent(content + ("</" + (name + (">" + rest)))).Some?
              then Some((Element(name, SpacedAll(attributes), text, children), rest))
              else None
  {
    var inner := content + ("</" + (name + (">" + rest)));
    RejoinElement(name, WrittenAttributes(attributes), content, rest);
    StartTagReads(name, attributes, inner);
    EndsWithTag(name, rest);
  }

  // ---- CDATA sections ----

  /** A text with every CDATA close in it split over two sections. */
  function SplitCloses(t: string): string
    decreases |t|
  {
    if t == "" then ""
    else if Starts(t, CDataClose) then "]]]]><![CDATA[>" + SplitCloses(t[3..])
    else [t[0]] + SplitCloses(t[1..])
  }

  /** Reading on from inside a CDATA section. */
  function ReadOn(s: string): Read {
    var section := ReadCData(s);
    if section.Bad? then Bad else Then(section.text, ReadText(section.rest))
  }

  lemma ReadOnChar(c: char, x: string)
    requires Legal(c) && c != '\r' && !Starts([c] + x, CDataClose)
    ensures ReadOn([c] + x) == Then([c], ReadOn(x))
  {
    assert ([c] + x)[1..] == x;
    var section := ReadCData(x);
    if section.Got? {
      var after := ReadText(section.rest);
      assert after.Got? ==> [c] + (section.text + after.text) == ([c] + section.text) + after.text;
    }
  }

  lemma ReopenedReads(x: string)
    ensures ReadOn(CDataClose + (CDataOpen + x)) == ReadOn(x)
  {
    PrefixOf(CDataClose, CDataOpen + x);
    PrefixOf(CDataOpen, x);
    assert (CDataOpen + x)[0] == '<';
    EmptyThen(ReadText(CDataOpen + x));
  }

  lemma BracketReads(x: string)
    requires |x| > 1 && x[1] == ']'
    ensures ReadOn("]" + x) == Then("]", ReadOn(x))
  {
    assert ("]" + x)[2] == ']';
    ReadOnChar(']', x);
  }

  lemma GreaterReads(x: string)
    ensures ReadOn(">" + x) == Then(">", ReadOn(x))
  {
    assert (">" + x)[0] == '>';
    ReadOnChar('>', x);
  }

  /** The split of a close reads as the close. */
  lemma SplitCloseReads(x: string)
    ensures ReadOn("]" + ("]" + (CDataClose + (CDataOpen + (">" + x))))) == Then(CDataClose, ReadOn(x))
  {
    var close := CDataClose + (CDataOpen + (">" + x));
    assert close[1] == ']' && ("]" + close)[1] == ']';
    BracketReads("]" + close);
    BracketReads(close);
    ReopenedReads(">" + x);
    GreaterReads(x);
    ThenTwice(ReadOn(x));
  }

  lemma EmptyThen(r: Read)
    ensures Then("", r) == r
  {
    assert r.Got? ==> "" + r.text == r.text;
  }

  lemma ThenTwice(r: Read)
    ensures Then("]", Then("]", Then(">", r))) == Then(CDataClose, r)
  {
    assert r.Got? ==> "]" + ("]" + (">" + r.text)) == CDataClose + r.text;
  }

  /** Splitting makes no close where there was none. */
  lemma SplitMakesNoClose(t: string, end: string)
    requires t != "" && !Starts(t, CDataClose) && Starts(end, CDataClose)
    ensures !Starts([t[0]] + (SplitCloses(t[1..]) + end), CDataClose)
  {
    var s := SplitCloses(t[1..]) + end;
    assert end[0] == ']' && end[1] == ']';
    if |t| == 1 {
      assert s == end;
      assert ([t[0]] + s)[2] == ']';
    } else if Starts(t[1..], CDataClose) {
      assert s[1] == ']';
      assert ([t[0]] + s)[2] == ']';
    } else {
      assert s[0] == t[1];
      SecondOfSplit(t[1..], end);
      assert ([t[0]] + s)[1] == t[1] && ([t[0]] + s)[2] == s[1];
      if |t| > 2 {
        assert t[..3] == [t[0], t[1], t[2]];
      }
    }
  }

  lemma SecondOfSplit(t: string, end: string)
    requires t != "" && !Starts(t, CDataClose) && Starts(end, CDataClose)
    ensures |SplitCloses(t) + end| > 1
    ensures (SplitCloses(t) + end)[1] == '>' ==> |t| > 1 && t[1] == '>'
  {
    assert end[0] == ']';
    assert SplitCloses(t) == [t[0]] + SplitCloses(t[1..]);
    assert (SplitCloses(t) + end)[1] == (SplitCloses(t[1..]) + end)[0];
    if |t| > 1 {
      assert t[1..] != "";
    }
  }

  /** A section's text ends at its close. */
  lemma EndOfSection(rest: string)
    requires TagFollows(rest)
    ensures ReadOn(CDataClose + rest) == Got("", rest)
  {
    PrefixOf(CDataClose, rest);
    EmptyThen(ReadText(rest));
  }

  lemma Associate(a: string, b: string, c: string)
    ensures (a + b) + c == a + (b + c)
  {
  }

  lemma SplitLiteral(x: string)
    ensures "]]]]><![CDATA[>" + x == "]" + ("]" + (CDataClose + (CDataOpen + (">" + x))))
  {
  }

  lemma SplitAtClose(t: string, end: string)
    requires Starts(t, CDataClose)
    ensures t == CDataClose + t[3..]
    ensures SplitCloses(t) + end == "]" + ("]" + (CDataClose + (CDataOpen + (">" + (SplitCloses(t[3..]) + end)))))
  {
    Associate("]]]]><![CDATA[>", SplitCloses(t[3..]), end);
    SplitLiteral(SplitCloses(t[3..]) + end);
  }

  lemma SplitAtChar(t: string, end: string)
    requires t != "" && !Starts(t, CDataClose)
    ensures t == [t[0]] + t[1..]
    ensures SplitCloses(t) + end == [t[0]] + (SplitCloses(t[1..]) + end)
  {
  }

  lemma FirstOfSplit(t: string, end: string)
    requires end != "" && end[0] == ']'
    ensures SplitCloses(t) + end != ""
    ensures (SplitCloses(t) + end)[0] == '\n' <==> t != "" && t[0] == '\n'
  {
  }

  /** Past a line end inside a section, the split goes on past the line end. */
  lemma PastSplitReturn(t: string, end: string)
    requires t != "" && t[0] == '\r' && end != "" && end[0] == ']'
    ensures var left := SplitCloses(t[1..]) + end;
            (if left[0] == '\n' then left[1..] else left) == SplitCloses(PastLineEnd(t)) + end
  {
    FirstOfSplit(t[1..], end);
    if |t| > 1 && t[1] == '\n' {
      assert t[1..][1..] == t[2..] && !Starts(t[1..], CDataClose);
      assert SplitCloses(t[1..]) == ['\n'] + SplitCloses(t[2..]);
      assert (['\n'] + SplitCloses(t[2..])) + end == ['\n'] + (SplitCloses(t[2..]) + end);
    }
  }

  lemma SplitReturnReads(t: string, end: string)
    requires t != "" && t[0] == '\r' && Starts(end, CDataClose)
    ensures ReadOn(SplitCloses(t) + end) == Then("\n", ReadOn(SplitCloses(PastLineEnd(t)) + end))
  {
    var left := SplitCloses(t[1..]) + end;
    assert end[0] == ']' && !Starts(t, CDataClose);
    SplitAtChar(t, end);
    assert SplitCloses(t) + end == ['\r'] + left;
    FirstOfSplit(t[1..], end);
    UnescapedReturn('\r', left);
    PastSplitReturn(t, end);
    ReadOnReturn(left);
  }

  lemma ReadOnReturn(left: string)
    ensures ReadOn(['\r'] + left) == Then("\n", ReadOn(PastLineEnd(['\r'] + left)))
  {
    var s := ['\r'] + left;
    assert s[0] == '\r';
    var section := ReadCData(PastLineEnd(s));
    if section.Got? {
      var after := ReadText(section.rest);
      assert after.Got? ==> "\n" + (section.text + after.text) == ("\n" + section.text) + after.text;
    }
  }

  lemma SplitCharReads(t: string, end: string)
    requires t != "" && t[0] != '\r' && !Starts(t, CDataClose) && Starts(end, CDataClose)
    ensures ReadOn(SplitCloses(t) + end) ==
              if Legal(t[0]) then Then([t[0]], ReadOn(SplitCloses(t[1..]) + end)) else Bad
  {
    var left := SplitCloses(t[1..]) + end;
    SplitAtChar(t, end);
    SplitMakesNoClose(t, end);
    if Legal(t[0]) {
      ReadOnChar(t[0], left);
    } else {
      assert ([t[0]] + left)[0] == t[0];
    }
  }

  lemma CloseParts(t: string)
    requires Starts(t, CDataClose)
    ensures AllLegal(t) <==> AllLegal(t[3..])
    ensures Normalized(t) == CDataClose + Normalized(t[3..])
  {
    var rest := t[3..];
    assert t == CDataClose + rest;
    NormalizedKeepsClose(rest);
    if AllLegal(rest) {
      forall i | 0 <= i < |t| ensures Legal(t[i]) {
        assert i >= 3 ==> t[i] == rest[i - 3];
      }
    }
    if AllLegal(t) {
      forall i | 0 <= i < |rest| ensures Legal(rest[i]) {
        assert rest[i] == t[i + 3];
      }
    }
  }

  lemma NormalizedKeepsClose(rest: string)
    ensures Normalized(CDataClose + rest) == CDataClose + Normalized(rest)
  {
    var three, two, one := CDataClose + rest, "]>" + rest, ">" + rest;
    assert three[1..] == two && two[1..] == one && one[1..] == rest;
    assert Normalized(one) == ">" + Normalized(rest);
    assert Normalized(two) == "]" + Normalized(one);
    assert "]" + ("]" + (">" + Normalized(rest))) == CDataClose + Normalized(rest);
  }

  /** A text written with its closes split over sections reads as one character data, with its
      line ends normalized, exactly when its characters are legal. */
  lemma {:induction false} SplitTextReadsBack(t: string, rest: string)
    requires TagFollows(rest)
    ensures ReadOn(SplitCloses(t) + (CDataClose + rest)) == if AllLegal(t) then Got(Normalized(t), rest) else Bad
    decreases |t|
  {
    var end := CDataClose + rest;
    PrefixOf(CDataClose, rest);
    if t == "" {
      assert SplitCloses(t) + end == end;
      EndOfSection(rest);
    } else if Starts(t, CDataClose) {
      SplitAtClose(t, end);
      SplitCloseReads(SplitCloses(t[3..]) + end);
      SplitTextReadsBack(t[3..], rest);
      CloseParts(t);
    } else if t[0] == '\r' {
      SplitReturnReads(t, end);
      PastLineEndLegal(t);
      SplitTextReadsBack(PastLineEnd(t), rest);
    } else {
      SplitCharReads(t, end);
      HeadLegal(t);
      SplitTextReadsBack(t[1..], rest);
    }
  }
}
