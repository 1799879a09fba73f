/** How the parser of src/utils/yaml.cc treats the token patterns a configuration file
    produces: one step of a block map or a flow sequence at a time, for any token
    stream, and a few short documents end to end. */
module YamlExamples {
  import opened Wrappers
  import opened YamlTokens
  import opened YamlParse

  function ScalarChild(key: Option<string>, value: string): Node {
    Node(ScalarNode, key, Some(value), [])
  }

  /** A map entry whose value is a scalar adds one keyed scalar child, holding the text
      of the token after KEY as its key, and the map continues after the scalar. */
  lemma ScalarEntryStep(tokens: seq<Token>, j: nat, mapKey: Option<string>, acc: seq<Node>)
    requires j + 4 <= |tokens| && |acc| < MAX_CHILDREN
    requires tokens[j].tokenType == Key && tokens[j + 3].tokenType == Scalar
    ensures ParseMapEntries(tokens, j, mapKey, acc)
         == ParseMapEntries(tokens, j + 4, mapKey, acc + [ScalarChild(Some(tokens[j + 1].text), tokens[j + 3].text)])
  {
    assert ParseNode(tokens, j + 3, Some(tokens[j + 1].text), mapKey)
        == Ok((ScalarChild(Some(tokens[j + 1].text), tokens[j + 3].text), j + 3));
  }

  /** A scalar item followed by a comma adds one unkeyed scalar child, and the sequence
      continues after the comma. */
  lemma ScalarItemStep(tokens: seq<Token>, j: nat, sequenceKey: Option<string>, acc: seq<Node>)
    requires j + 2 < |tokens| && |acc| < MAX_CHILDREN
    requires tokens[j].tokenType == Scalar && tokens[j + 1].tokenType == FlowEntry
    requires tokens[j + 2].tokenType != FlowEntry
    ensures ParseSequenceItems(tokens, j, sequenceKey, acc)
         == ParseSequenceItems(tokens, j + 2, sequenceKey, acc + [ScalarChild(None, tokens[j].text)])
  {
    assert ParseNode(tokens, j, None, sequenceKey) == Ok((ScalarChild(None, tokens[j].text), j));
  }

  /** A comma after the last item is accepted: "[..., x,]" ends like "[..., x]". */
  lemma TrailingCommaAccepted(tokens: seq<Token>, j: nat, sequenceKey: Option<string>, acc: seq<Node>)
    requires j + 2 < |tokens| && |acc| < MAX_CHILDREN
    requires tokens[j].tokenType == Scalar && tokens[j + 1].tokenType == FlowEntry
    requires tokens[j + 2].tokenType == FlowSequenceEnd
    ensures ParseSequenceItems(tokens, j, sequenceKey, acc) == Ok((acc + [ScalarChild(None, tokens[j].text)], j + 2))
  {
    ScalarItemStep(tokens, j, sequenceKey, acc);
  }

  /** Two commas after an item end the parse with the consecutive-commas diagnostic for
      the sequence, whatever follows. */
  lemma ConsecutiveCommasRejected(tokens: seq<Token>, j: nat, sequenceKey: Option<string>, acc: seq<Node>)
    requires j + 2 < |tokens| && |acc| < MAX_CHILDREN
    requires tokens[j].tokenType == Scalar && tokens[j + 1].tokenType == FlowEntry
    requires tokens[j + 2].tokenType == FlowEntry
    ensures ParseSequenceItems(tokens, j, sequenceKey, acc) == Err(ConsecutiveCommas(sequenceKey))
  {
    assert ParseNode(tokens, j, None, sequenceKey) == Ok((ScalarChild(None, tokens[j].text), j));
  }

  /** An entry whose VALUE token is followed by the next KEY or by the map's BLOCK_END
      ends the parse with the missing-value diagnostic naming the key and the map. */
  lemma MissingValueRejected(tokens: seq<Token>, j: nat, mapKey: Option<string>, acc: seq<Node>)
    requires j + 3 < |tokens|
    requires tokens[j].tokenType == Key
    requires tokens[j + 3].tokenType == Key || tokens[j + 3].tokenType == BlockEnd
    ensures ParseMapEntries(tokens, j, mapKey, acc) == Err(NoValueForKey(tokens[j + 1].text, mapKey))
  {
  }

  /** The tokens of "s: [x, y,]": STREAM_START, BLOCK_MAPPING_START, KEY, "s", VALUE,
      FLOW_SEQUENCE_START, "x", FLOW_ENTRY, "y", FLOW_ENTRY, FLOW_SEQUENCE_END and
      BLOCK_END, with any texts; the STREAM_END after them, and anything else that
      follows, is never read. */
  predicate IsFlowSequenceDocument(T: seq<Token>) {
    && |T| >= 12
    && T[1].tokenType == BlockMappingStart && T[2].tokenType == Key
    && T[5].tokenType == FlowSequenceStart
    && T[6].tokenType == Scalar && T[7].tokenType == FlowEntry
    && T[8].tokenType == Scalar && T[9].tokenType == FlowEntry
    && T[10].tokenType == FlowSequenceEnd && T[11].tokenType == BlockEnd
  }

  /** The items of "[x, y,]": the unkeyed scalars "x" and "y", closed at index 10. */
  lemma {:induction false} FlowSequenceItems(T: seq<Token>)
    requires IsFlowSequenceDocument(T)
    ensures ParseSequence(T, 5, Some(T[3].text), []) == Ok(([ScalarChild(None, T[6].text), ScalarChild(None, T[8].text)], 10))
  {
    var key := Some(T[3].text);
    var x := ScalarChild(None, T[6].text);
    TrailingCommaAccepted(T, 8, key, [x]);
    ScalarItemStep(T, 6, key, []);
    assert [] + [x] == [x] && [x] + [ScalarChild(None, T[8].text)] == [x, ScalarChild(None, T[8].text)];
  }

  /** The value "[x, y,]": a sequence keyed "s" of the unkeyed scalars "x" and "y". */
  lemma {:induction false} FlowSequenceValue(T: seq<Token>)
    requires IsFlowSequenceDocument(T)
    ensures ParseChild(T, 5, Some(T[3].text), Some("root"), []) ==
      Ok(([Node(SequenceNode, Some(T[3].text), None, [ScalarChild(None, T[6].text), ScalarChild(None, T[8].text)])], 11))
  {
    var key := Some(T[3].text);
    var sequence := Node(SequenceNode, key, None, [ScalarChild(None, T[6].text), ScalarChild(None, T[8].text)]);
    FlowSequenceItems(T);
    assert ParseNode(T, 5, key, Some("root")) == Ok((sequence, 10));
  }

  /** "s: [x, y,]": the root map holds one sequence keyed "s" of the unkeyed scalars "x"
      and "y", in order, and parsing stops at the root's BLOCK_END. */
  lemma {:induction false} FlowSequenceDocument(T: seq<Token>)
    requires IsFlowSequenceDocument(T)
    ensures ParseRoot(T) ==
      Ok(([Node(SequenceNode, Some(T[3].text), None, [ScalarChild(None, T[6].text), ScalarChild(None, T[8].text)])], 11))
  {
    var sequence := Node(SequenceNode, Some(T[3].text), None, [ScalarChild(None, T[6].text), ScalarChild(None, T[8].text)]);
    FlowSequenceValue(T);
    assert ParseMapEntries(T, 11, Some("root"), [sequence]) == Ok(([sequence], 11));
    assert ParseMap(T, 1, Some("root"), []) == ParseMapEntries(T, 2, Some("root"), []);
  }

  /** "a: 1\nb: 2", whose tokens are STREAM_START, BLOCK_MAPPING_START, then KEY, "a",
      VALUE, "1", KEY, "b", VALUE, "2", then BLOCK_END and STREAM_END: two keyed
      scalars, in document order.  The tokens from STREAM_END on are never read. */
  lemma {:induction false} ScalarEntriesDocument(T: seq<Token>)
    requires |T| >= 11
    requires T[1].tokenType == BlockMappingStart
    requires T[2].tokenType == Key && T[5].tokenType == Scalar
    requires T[6].tokenType == Key && T[9].tokenType == Scalar
    requires T[10].tokenType == BlockEnd
    ensures ParseRoot(T) ==
      Ok(([ScalarChild(Some(T[3].text), T[5].text), ScalarChild(Some(T[7].text), T[9].text)], 10))
  {
    var a := ScalarChild(Some(T[3].text), T[5].text);
    var b := ScalarChild(Some(T[7].text), T[9].text);
    ScalarEntryStep(T, 2, Some("root"), []);
    ScalarEntryStep(T, 6, Some("root"), [a]);
    assert [] + [a] == [a] && [a] + [b] == [a, b];
    assert ParseMapEntries(T, 10, Some("root"), [a, b]) == Ok(([a, b], 10));
    assert ParseMap(T, 1, Some("root"), []) == ParseMapEntries(T, 2, Some("root"), []);
  }

  /** "s: [, x]": a comma right after the opening bracket of the first entry's value
      is reported for that entry's key, whatever follows. */
  lemma CommaAtStartIsReported(T: seq<Token>)
    requires |T| > 6
    requires T[1].tokenType == BlockMappingStart && T[2].tokenType == Key
    requires T[5].tokenType == FlowSequenceStart && T[6].tokenType == FlowEntry
    ensures ParseRoot(T) == Err(CommaAtStart(Some(T[3].text)))
  {
    assert ParseNode(T, 5, Some(T[3].text), Some("root")) == Err(CommaAtStart(Some(T[3].text)));
    assert ParseChild(T, 5, Some(T[3].text), Some("root"), []) == Err(CommaAtStart(Some(T[3].text)));
    assert ParseMap(T, 1, Some("root"), []) == ParseMapEntries(T, 2, Some("root"), []);
  }

  /** An empty document: the token after STREAM_START is not BLOCK_MAPPING_START. */
  lemma EmptyDocumentIsNotAMap()
    ensures ParseRoot([Token(StreamStart, ""), Token(StreamEnd, "")]) == Err(NotAMap(StreamEnd))
  {
  }

  /** "l:\n  - x": a block sequence as the first entry's value is not supported, and
      the diagnostic names the root map. */
  lemma BlockSequenceIsUnsupported(T: seq<Token>)
    requires |T| > 5
    requires T[1].tokenType == BlockMappingStart && T[2].tokenType == Key
    requires T[5].tokenType == BlockSequenceStart
    ensures ParseRoot(T) == Err(UnsupportedToken(BlockSequenceStart, Some("root")))
  {
    assert ParseNode(T, 5, Some(T[3].text), Some("root")) == Err(UnsupportedToken(BlockSequenceStart, Some("root")));
    assert ParseChild(T, 5, Some(T[3].text), Some("root"), []) == Err(UnsupportedToken(BlockSequenceStart, Some("root")));
    assert ParseMap(T, 1, Some("root"), []) == ParseMapEntries(T, 2, Some("root"), []);
  }
}
