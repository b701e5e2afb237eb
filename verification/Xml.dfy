/** The part of XML 1.0 that messages and context blocks are written in: a reader of elements
    with attributes, character data, references, CDATA sections and children. */
module Xml {
  import opened Options

  /** The characters of a document (section 2.2); Dafny's characters leave out surrogates. */
  predicate Legal(c: char) {
    c in {'\t', '\n', '\r'} || ('\U{20}' <= c && c != '\U{FFFE}' && c != '\U{FFFF}')
  }

  predicate AllLegal(t: string) {
    forall i | 0 <= i < |t| :: Legal(t[i])
  }

  predicate Starts(s: string, prefix: string) {
    |prefix| <= |s| && s[..|prefix|] == prefix
  }

  /** What is read up to some point, and what is left; a text that is not well formed is bad. */
  datatype Read = Bad | Got(text: string, rest: string)

  function Then(text: string, r: Read): Read {
    if r.Bad? then Bad else Got(text + r.text, r.rest)
  }

  /** One of the predefined entities, or the character reference written for an apostrophe. */
  function Reference(s: string): (r: Option<(char, string)>)
    ensures r.Some? ==> |r.value.1| < |s|
  {
    if |s| < 4 || s[0] != '&' then None
    else if s[1] == 'l' then if s[2] == 't' && s[3] == ';' then Some(('<', s[4..])) else None
    else if s[1] == 'g' then if s[2] == 't' && s[3] == ';' then Some(('>', s[4..])) else None
    else if s[1] == 'q' then if Starts(s, "&quot;") then Some(('"', s[6..])) else None
    else if s[1] == '#' then if Starts(s, "&#x27;") then Some(('\'', s[6..])) else None
    else if Starts(s, "&amp;") then Some(('&', s[5..]))
    else if Starts(s, "&apos;") then Some(('\'', s[6..]))
    else None
  }

  /** Past a line end (section 2.11): a carriage return, with the line feed after it if any. */
  function PastLineEnd(s: string): (r: string)
    requires s != "" && s[0] == '\r'
    ensures |r| < |s|
  {
    if |s| > 1 && s[1] == '\n' then s[2..] else s[1..]
  }

  const CDataOpen := "<![CDATA["
  const CDataClose := "]]>"

  /** A CDATA section's text, past its close (section 2.7). */
  function ReadCData(s: string): (r: Read)
    ensures r.Got? ==> |r.rest| < |s|
    decreases |s|
  {
    if s == "" then Bad
    else if Starts(s, CDataClose) then Got("", s[3..])
    else if !Legal(s[0]) then Bad
    else if s[0] == '\r' then Then("\n", ReadCData(PastLineEnd(s)))
    else Then([s[0]], ReadCData(s[1..]))
  }

  /** Character data up to the next tag (section 2.4). */
  function ReadText(s: string): (r: Read)
    ensures r.Got? ==> |r.rest| <= |s| && r.rest != "" && r.rest[0] == '<'
    decreases |s|
  {
    if s == "" then Bad
    else if s[0] == '<' then
      if !Starts(s, CDataOpen) then Got("", s)
      else
        var section := ReadCData(s[9..]);
        if section.Bad? then Bad else Then(section.text, ReadText(section.rest))
    else if s[0] == '&' then
      var reference := Reference(s);
      if reference.None? then Bad else Then([reference.value.0], ReadText(reference.value.1))
    else if !Legal(s[0]) || (s[0] == ']' && Starts(s, CDataClose)) then Bad
    else if s[0] == '\r' then Then("\n", ReadText(PastLineEnd(s)))
    else Then([s[0]], ReadText(s[1..]))
  }

  /** An attribute's value, past its closing quote; white space reads as spaces (section 3.3.3). */
  function ReadValue(s: string): (r: Read)
    ensures r.Got? ==> |r.rest| < |s|
    decreases |s|
  {
    if s == "" then Bad
    else if s[0] == '"' then Got("", s[1..])
    else if s[0] == '&' then
      var reference := Reference(s);
      if reference.None? then Bad else Then([reference.value.0], ReadValue(reference.value.1))
    else if s[0] == '<' || !Legal(s[0]) then Bad
    else if s[0] == '\r' then Then(" ", ReadValue(PastLineEnd(s)))
    else Then([if s[0] in {'\t', '\n'} then ' ' else s[0]], ReadValue(s[1..]))
  }

  predicate NameStart(c: char) {
    'a' <= c <= 'z' || 'A' <= c <= 'Z' || c == '_'
  }

  predicate NameChar(c: char) {
    NameStart(c) || '0' <= c <= '9' || c == '-' || c == '.'
  }

  /** A name in the characters this model uses. */
  predicate IsName(name: string) {
    name != "" && NameStart(name[0]) && forall i | 0 <= i < |name| :: NameChar(name[i])
  }

  /** The name characters at the front. */
  function NameLength(s: string): (n: nat)
    ensures n <= |s|
    decreases |s|
  {
    if s == "" || !NameChar(s[0]) then 0 else 1 + NameLength(s[1..])
  }

  type Attribute = (string, string)

  predicate DistinctNames(attributes: seq<Attribute>) {
    forall i, j | 0 <= i < j < |attributes| :: attributes[i].0 != attributes[j].0
  }

  /** The attributes of a start tag, past its end, each after one space and in double quotes. */
  function ReadAttributes(s: string): (r: Option<(seq<Attribute>, string)>)
    ensures r.Some? ==> |r.value.1| < |s|
    decreases |s|
  {
    if s == "" then None
    else if s[0] == '>' then Some(([], s[1..]))
    else if s[0] != ' ' then None
    else
      var n := NameLength(s[1..]);
      var name, after := s[1..][..n], s[1..][n..];
      if !IsName(name) || !Starts(after, "=\"") then None
      else
        var value := ReadValue(after[2..]);
        if value.Bad? then None
        else
          var more := ReadAttributes(value.rest);
          if more.None? then None else Some(([(name, value.text)] + more.value.0, more.value.1))
  }

  datatype Element = Element(name: string, attributes: seq<Attribute>, text: string, children: seq<Child>)

  datatype Child = Child(element: Element, tail: string)

  /** A start tag's name and attributes, past its end (section 3.1). */
  function ReadStartTag(s: string): (r: Option<(string, seq<Attribute>, string)>)
    ensures r.Some? ==> |r.value.2| < |s|
  {
    if s == "" || s[0] != '<' then None
    else
      var n := NameLength(s[1..]);
      var name, attributes := s[1..][..n], ReadAttributes(s[1..][n..]);
      if !IsName(name) || attributes.None? || !DistinctNames(attributes.value.0) then None
      else Some((name, attributes.value.0, attributes.value.1))
  }

  function ReadElement(s: string): (r: Option<(Element, string)>)
    ensures r.Some? ==> |r.value.1| < |s|
    decreases |s|, 0
  {
    var start := ReadStartTag(s);
    if start.None? then None
    else
      var content := ReadContent(start.value.2);
      if content.None? then None
      else
        var (text, children, rest) := content.value;
        var close := "</" + start.value.0 + ">";
        if Starts(rest, close) then Some((Element(start.value.0, start.value.1, text, children), rest[|close|..]))
        else None
  }

  /** An element's leading text and its children, up to its end tag. */
  function ReadContent(s: string): (r: Option<(string, seq<Child>, string)>)
    ensures r.Some? ==> |r.value.2| <= |s|
    decreases |s|, 1
  {
    var text := ReadText(s);
    if text.Bad? then None
    else if Starts(text.rest, "</") then Some((text.text, [], text.rest))
    else
      var child := ReadElement(text.rest);
      if child.None? then None
      else
        var more := ReadContent(child.value.1);
        if more.None? then None
        else Some((text.text, [Child(child.value.0, more.value.0)] + more.value.1, more.value.2))
  }

  /** A document that is one element and nothing more. */
  function Parse(s: string): Option<Element> {
    var r := ReadElement(s);
    if r.Some? && r.value.1 == "" then Some(r.value.0) else None
  }
}
