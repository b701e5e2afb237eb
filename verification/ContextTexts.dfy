/** The blocks that the written run contexts and introductions carry, as they are read back. */
module ContextTexts {
  import opened Options
  import opened Xml
  import opened XmlWriting
  import opened Envelopes
  import opened ContextBlocks

  /** One written text as a text of a message: what XML refuses, and what is no context block,
      carries none. Of blocks, those with the two attributes and no children that are written. */
  function TextOf(content: string): Text {
    var e := Parse(content);
    if e.None? || e.value.name != "dynamic-context" || e.value.children != [] then Other
    else
      var attributes := e.value.attributes;
      if |attributes| == 2 && attributes[0].0 == "kind" && attributes[1].0 == "id"
      then Context(Block(attributes[0].1, attributes[1].1, e.value.text), None)
      else Other
  }

  function MessageOf(content: string): Message {
    [TextOf(content)]
  }

  lemma BlockOfText(content: string, kind: string, id: string, text: string)
    requires Parse(content) == Some(Element("dynamic-context", BlockAttributes(kind, id), text, []))
    ensures ContextOf(MessageOf(content)) == Some(Block(kind, id, text))
  {
    var attributes := BlockAttributes(kind, id);
    assert attributes[0] == ("kind", kind) && attributes[1] == ("id", id);
  }

  lemma NoBlockOfText(content: string)
    requires Parse(content) == None
    ensures ContextOf(MessageOf(content)) == None
  {
    assert MessageOf(content)[1..] == [];
  }

  /** A run context carries a block exactly when its id and its stripped guidance are legal. */
  lemma RunContextIsReadable(id: string, guidance: string)
    ensures ContextOf(MessageOf(RunContext(id, guidance))) ==
              if AllLegal(id) && AllLegal(Strip(guidance))
              then Some(Block("run", Spaced(id), Normalized("\n" + (Strip(guidance) + "\n"))))
              else None
  {
    var content := RunContext(id, guidance);
    RunContextReadsBack(id, guidance);
    if AllLegal(id) && AllLegal(Strip(guidance)) {
      BlockOfText(content, "run", Spaced(id), Normalized("\n" + (Strip(guidance) + "\n")));
    } else {
      NoBlockOfText(content);
    }
  }

  /** An introduction carries a block exactly when its id and its lines are legal. */
  lemma EntityContextIsReadable(kind: string, id: string, fields: seq<Field>)
    requires AllLegal(kind) && PlainNames(fields)
    ensures ContextOf(MessageOf(EntityContext(kind, id, fields))).Some? <==>
              AllLegal(id) && AllLegal(Lines(fields, false))
  {
    var content := EntityContext(kind, id, fields);
    EntityContextReadsBack(kind, id, fields);
    if AllLegal(id) && AllLegal(Lines(fields, false)) {
      BlockOfText(content, Spaced(kind), Spaced(id), Normalized(Framed(Lines(fields, false))));
    } else {
      NoBlockOfText(content);
    }
  }

  /** A run context prepared alone is in force exactly when its characters are legal and the
      visible part starts within the conversation. */
  lemma RunContextIsInForceExactly(s: State, id: string, guidance: string)
    ensures var m := MessageOf(RunContext(id, guidance));
            Told(Prepared(s, [m]), m) <==> CutoffInside(s) && AllLegal(id) && AllLegal(Strip(guidance))
  {
    var m := MessageOf(RunContext(id, guidance));
    RunContextIsReadable(id, guidance);
    PreparationWorksExactly(s, [m]);
    assert AllInForce(Prepared(s, [m]), [m]) <==> Told(Prepared(s, [m]), [m][0]);
    assert AllReadable([m]) <==> ContextOf([m][0]).Some?;
  }

  const Forbidden := "a\U{0B}b"

  lemma ForbiddenIsIllegal()
    ensures Strip(Forbidden) == Forbidden && !AllLegal(Forbidden)
  {
    assert Forbidden[0] == 'a' && Forbidden[1] == '\U{0B}' && Forbidden[2] == 'b';
    assert StripLeft(Forbidden) == Forbidden && StripRight(Forbidden) == Forbidden;
    assert !Legal(Forbidden[1]);
  }

  /** The failing case: guidance with a character XML forbids is never in force, and every
      preparation sends it again. */
  lemma ForbiddenGuidanceIsSentEveryTurn(s: State, id: string)
    ensures var m := MessageOf(RunContext(id, Forbidden));
            !Told(Prepared(s, [m]), m) && Missing(Prepared(s, [m]), [m]) == [m]
  {
    var m := MessageOf(RunContext(id, Forbidden));
    ForbiddenIsIllegal();
    RunContextIsReadable(id, Forbidden);
    assert Missing(Prepared(s, [m]), [m]) == [m] + Missing(Prepared(s, [m]), [m][1..]);
  }
}
