/** What the recursive-descent parser of src/utils/yaml.cc computes, as functions over
    the token sequence: the tree it builds, the position it stops at, and the error that
    ends it.  Block mappings are read as KEY, key scalar, VALUE, value; flow sequences as
    values separated by FLOW_ENTRY tokens.  Reading a token beyond the scanned ones and
    appending a 257th child are errors here (the C code reads and writes out of bounds
    there). */
module YamlParse {
  import opened Wrappers
  import opened YamlTokens

  /** The size of YAML_NODE's children array. */
  const MAX_CHILDREN: nat := 256

  /** The value of a YAML_NODE: its type, key and scalar value (absent when null), and
      its children in order. */
  datatype Node = Node(nodeType: NodeType, key: Option<string>, value: Option<string>, children: seq<Node>)

  /** Each way the parser stops early; all but the last two are the source's own
      diagnostics. */
  datatype YamlError =
    | NotAMap(found: TokenType)
    | NoValueForKey(key: string, mapKey: Option<string>)
    | CommaAtStart(sequenceKey: Option<string>)
    | ConsecutiveCommas(sequenceKey: Option<string>)
    | UnsupportedToken(found: TokenType, parentKey: Option<string>)
    | TooManyChildren(parentKey: Option<string>)
    | ReadPastEnd

  /** A successful parse step: the parent's children afterwards, and a token index. */
  type Parsed = Result<(seq<Node>, nat), YamlError>

  /** The shape every node the parser builds has: a scalar holds a value and no
      children, a map or sequence holds no value and at most MAX_CHILDREN children; a
      map's children all have keys and a sequence's children none. */
  predicate WellFormed(n: Node)
    decreases n
  {
    && (n.nodeType == ScalarNode <==> n.value.Some?)
    && (n.nodeType == ScalarNode ==> n.children == [])
    && |n.children| <= MAX_CHILDREN
    && (forall k :: 0 <= k < |n.children| ==> WellFormed(n.children[k]))
    && (forall k :: 0 <= k < |n.children| ==> (n.children[k].key.Some? <==> n.nodeType == MapNode))
  }

  /** `kids` is `acc` followed by well-formed children that have keys exactly when
      `keyed` holds, and, if anything was appended, there are at most MAX_CHILDREN. */
  predicate Extends(acc: seq<Node>, kids: seq<Node>, keyed: bool) {
    && |acc| <= |kids|
    && kids[..|acc|] == acc
    && (|kids| > |acc| ==> |kids| <= MAX_CHILDREN)
    && forall k :: |acc| <= k < |kids| ==> WellFormed(kids[k]) && (kids[k].key.Some? <==> keyed)
  }

  /** process_map at index i, for a map whose key is `mapKey` and whose children so far
      are `acc`: the first token must be BLOCK_MAPPING_START; on success the result
      holds the map's children and the index of the BLOCK_END that closes it.  An
      overflow of some children array inside needs more than MAX_CHILDREN tokens from i
      on. */
  function ParseMap(tokens: seq<Token>, i: nat, mapKey: Option<string>, acc: seq<Node>): (r: Parsed)
    requires i <= |tokens|
    ensures r.Ok? ==> && i < r.value.1 < |tokens|
                      && tokens[r.value.1].tokenType == BlockEnd
                      && Extends(acc, r.value.0, true)
    ensures r.Err? && r.error.TooManyChildren? ==> |tokens| - i - 1 + |acc| >= MAX_CHILDREN
    ensures i < |tokens| && tokens[i].tokenType != BlockMappingStart ==> r == Err(NotAMap(tokens[i].tokenType))
    decreases |tokens| - i, 1
  {
    if i >= |tokens| then Err(ReadPastEnd)
    else if tokens[i].tokenType != BlockMappingStart then Err(NotAMap(tokens[i].tokenType))
    else ParseMapEntries(tokens, i + 1, mapKey, acc)
  }

  /** The loop of process_map from index j: at BLOCK_END the map is complete; otherwise
      the key is the text of the token after j, the value starts at j + 3 and must not
      be KEY or BLOCK_END, and the entry's child is parsed there. */
  function ParseMapEntries(tokens: seq<Token>, j: nat, mapKey: Option<string>, acc: seq<Node>): (r: Parsed)
    requires j <= |tokens|
    ensures r.Ok? ==> && j <= r.value.1 < |tokens|
                      && tokens[r.value.1].tokenType == BlockEnd
                      && Extends(acc, r.value.0, true)
    ensures r.Err? && r.error.TooManyChildren? ==> |tokens| - j + |acc| >= MAX_CHILDREN
    decreases |tokens| - j, 0
  {
    if j >= |tokens| then Err(ReadPastEnd)
    else if tokens[j].tokenType == BlockEnd then Ok((acc, j))
    else if j + 3 >= |tokens| then Err(ReadPastEnd)
    else
      var key := tokens[j + 1].text;
      if tokens[j + 3].tokenType == Key || tokens[j + 3].tokenType == BlockEnd then
        Err(NoValueForKey(key, mapKey))
      else
        match ParseChild(tokens, j + 3, Some(key), mapKey, acc)
        case Err(e) => Err(e)
        case Ok((kids, next)) =>
          var r := ParseMapEntries(tokens, next, mapKey, kids);
          if r.Ok? then ExtendsAfterChild(acc, kids, r.value.0, true); r else r
  }

  /** process_sequence at index i (the FLOW_SEQUENCE_START its caller has seen): a comma
      right after it is an error; on success the result holds the children and the
      index of the closing FLOW_SEQUENCE_END. */
  function ParseSequence(tokens: seq<Token>, i: nat, sequenceKey: Option<string>, acc: seq<Node>): (r: Parsed)
    requires i <= |tokens|
    ensures r.Ok? ==> && i < r.value.1 < |tokens|
                      && tokens[r.value.1].tokenType == FlowSequenceEnd
                      && Extends(acc, r.value.0, false)
    ensures r.Err? && r.error.TooManyChildren? ==> |tokens| - i - 1 + |acc| >= MAX_CHILDREN
    ensures i + 1 < |tokens| && tokens[i + 1].tokenType == FlowEntry ==> r == Err(CommaAtStart(sequenceKey))
    decreases |tokens| - i, 1
  {
    if i + 1 >= |tokens| then Err(ReadPastEnd)
    else if tokens[i + 1].tokenType == FlowEntry then Err(CommaAtStart(sequenceKey))
    else ParseSequenceItems(tokens, i + 1, sequenceKey, acc)
  }

  /** The loop of process_sequence from index j: at FLOW_SEQUENCE_END the sequence is
      complete; otherwise a child is parsed at j, and one FLOW_ENTRY after it is
      skipped, but not two. */
  function ParseSequenceItems(tokens: seq<Token>, j: nat, sequenceKey: Option<string>, acc: seq<Node>): (r: Parsed)
    requires j <= |tokens|
    ensures r.Ok? ==> && j <= r.value.1 < |tokens|
                      && tokens[r.value.1].tokenType == FlowSequenceEnd
                      && Extends(acc, r.value.0, false)
    ensures r.Err? && r.error.TooManyChildren? ==> |tokens| - j + |acc| >= MAX_CHILDREN
    decreases |tokens| - j, 4
  {
    if j >= |tokens| then Err(ReadPastEnd)
    else if tokens[j].tokenType == FlowSequenceEnd then Ok((acc, j))
    else
      match ParseChild(tokens, j, None, sequenceKey, acc)
      case Err(e) => Err(e)
      case Ok((kids, next)) =>
        if next >= |tokens| then Err(ReadPastEnd)
        else if tokens[next].tokenType == FlowEntry then
          if next + 1 >= |tokens| then Err(ReadPastEnd)
          else if tokens[next + 1].tokenType == FlowEntry then Err(ConsecutiveCommas(sequenceKey))
          else
            var r := ParseSequenceItems(tokens, next + 1, sequenceKey, kids);
            if r.Ok? then ExtendsAfterChild(acc, kids, r.value.0, false); r else r
        else
          var r := ParseSequenceItems(tokens, next, sequenceKey, kids);
          if r.Ok? then ExtendsAfterChild(acc, kids, r.value.0, false); r else r
  }

  /** A parent's children after one more child and then any number more extend the
      children it had before that child. */
  lemma ExtendsAfterChild(acc: seq<Node>, kids: seq<Node>, rest: seq<Node>, keyed: bool)
    requires |acc| < MAX_CHILDREN && |kids| == |acc| + 1 && kids[..|acc|] == acc
    requires WellFormed(kids[|acc|]) && (kids[|acc|].key.Some? <==> keyed)
    requires Extends(kids, rest, keyed)
    ensures Extends(acc, rest, keyed)
  {
    assert rest[..|acc|] == rest[..|kids|][..|acc|];
  }

  /** One turn of the loop of process_sequence, at an item that is not the closing
      FLOW_SEQUENCE_END: the sequence ends with the child's error, or continues after the
      child and after at most one FLOW_ENTRY, a second one being an error. */
  lemma SequenceItemStep(tokens: seq<Token>, j: nat, sequenceKey: Option<string>, acc: seq<Node>)
    requires j < |tokens| && tokens[j].tokenType != FlowSequenceEnd
    ensures var child := ParseChild(tokens, j, None, sequenceKey, acc);
      var items := ParseSequenceItems(tokens, j, sequenceKey, acc);
      && (child.Err? ==> items == Err(child.error))
      && (child.Ok? ==>
            var (kids, next) := child.value;
            && (next == |tokens| || tokens[next].tokenType != FlowEntry ==>
                  items == ParseSequenceItems(tokens, next, sequenceKey, kids))
            && (next < |tokens| && tokens[next].tokenType == FlowEntry ==>
                  && (next + 1 == |tokens| || tokens[next + 1].tokenType != FlowEntry ==>
                        items == ParseSequenceItems(tokens, next + 1, sequenceKey, kids))
                  && (next + 1 < |tokens| && tokens[next + 1].tokenType == FlowEntry ==>
                        items == Err(ConsecutiveCommas(sequenceKey)))))
  {
    match ParseChild(tokens, j, None, sequenceKey, acc)
    case Err(e) =>
      ItemChildFails(tokens, j, sequenceKey, acc, e);
    case Ok((kids, next)) =>
      ItemAfterChild(tokens, j, sequenceKey, acc, kids, next);
  }

  /** The part of SequenceItemStep where the child fails: its error ends the loop. */
  lemma ItemChildFails(tokens: seq<Token>, j: nat, sequenceKey: Option<string>, acc: seq<Node>, e: YamlError)
    requires j < |tokens| && tokens[j].tokenType != FlowSequenceEnd
    requires ParseChild(tokens, j, None, sequenceKey, acc) == Err(e)
    ensures ParseSequenceItems(tokens, j, sequenceKey, acc) == Err(e)
  {
  }

  /** The part of SequenceItemStep after a child that parsed: the commas that follow it. */
  lemma ItemAfterChild(tokens: seq<Token>, j: nat, sequenceKey: Option<string>, acc: seq<Node>,
                       kids: seq<Node>, next: nat)
    requires j < |tokens| && tokens[j].tokenType != FlowSequenceEnd
    requires ParseChild(tokens, j, None, sequenceKey, acc) == Ok((kids, next))
    ensures var items := ParseSequenceItems(tokens, j, sequenceKey, acc);
      && (next == |tokens| || tokens[next].tokenType != FlowEntry ==>
            items == ParseSequenceItems(tokens, next, sequenceKey, kids))
      && (next < |tokens| && tokens[next].tokenType == FlowEntry ==>
            && (next + 1 == |tokens| || tokens[next + 1].tokenType != FlowEntry ==>
                  items == ParseSequenceItems(tokens, next + 1, sequenceKey, kids))
            && (next + 1 < |tokens| && tokens[next + 1].tokenType == FlowEntry ==>
                  items == Err(ConsecutiveCommas(sequenceKey))))
  {
    var items := ParseSequenceItems(tokens, j, sequenceKey, acc);
    if next >= |tokens| {
      assert items == Err(ReadPastEnd);
      assert ParseSequenceItems(tokens, next, sequenceKey, kids) == Err(ReadPastEnd);
    } else if tokens[next].tokenType != FlowEntry {
      assert items == ParseSequenceItems(tokens, next, sequenceKey, kids);
    } else if next + 1 >= |tokens| {
      assert items == Err(ReadPastEnd);
      assert ParseSequenceItems(tokens, next + 1, sequenceKey, kids) == Err(ReadPastEnd);
    } else if tokens[next + 1].tokenType == FlowEntry {
      assert items == Err(ConsecutiveCommas(sequenceKey));
    } else {
      assert items == ParseSequenceItems(tokens, next + 1, sequenceKey, kids);
    }
  }

  /** The loops of process_sequence and process_map stop at their closing token, with
      the children gathered so far. */
  lemma ClosingTokenEndsLoop(tokens: seq<Token>, j: nat, key: Option<string>, acc: seq<Node>)
    requires j < |tokens|
    ensures tokens[j].tokenType == FlowSequenceEnd ==> ParseSequenceItems(tokens, j, key, acc) == Ok((acc, j))
    ensures tokens[j].tokenType == BlockEnd ==> ParseMapEntries(tokens, j, key, acc) == Ok((acc, j))
  {
  }

  /** One turn of the loop of process_map, at an entry that is not the closing
      BLOCK_END: the missing tokens and the missing value are errors, and otherwise the
      map ends with the child's error or continues after the child. */
  lemma MapEntryStep(tokens: seq<Token>, j: nat, mapKey: Option<string>, acc: seq<Node>)
    requires j < |tokens| && tokens[j].tokenType != BlockEnd
    ensures j + 3 >= |tokens| ==> ParseMapEntries(tokens, j, mapKey, acc) == Err(ReadPastEnd)
    ensures j + 3 < |tokens| && (tokens[j + 3].tokenType == Key || tokens[j + 3].tokenType == BlockEnd) ==>
              ParseMapEntries(tokens, j, mapKey, acc) == Err(NoValueForKey(tokens[j + 1].text, mapKey))
    ensures j + 3 < |tokens| && tokens[j + 3].tokenType != Key && tokens[j + 3].tokenType != BlockEnd ==>
              var child := ParseChild(tokens, j + 3, Some(tokens[j + 1].text), mapKey, acc);
              && (child.Err? ==> ParseMapEntries(tokens, j, mapKey, acc) == Err(child.error))
              && (child.Ok? ==> ParseMapEntries(tokens, j, mapKey, acc) ==
                                  ParseMapEntries(tokens, child.value.1, mapKey, child.value.0))
  {
  }

  /** The node process_child builds for the token at i, under key `key`, for a parent
      whose key is `parentKey`: a SCALAR token gives a scalar holding its text, a
      BLOCK_MAPPING_START a map and a FLOW_SEQUENCE_START a sequence, each parsed to its
      closing token, whose index is returned with the node; any other token is an
      error. */
  function ParseNode(tokens: seq<Token>, i: nat, key: Option<string>, parentKey: Option<string>)
    : (r: Result<(Node, nat), YamlError>)
    requires i <= |tokens|
    ensures r.Ok? ==> && i <= r.value.1 < |tokens|
                      && WellFormed(r.value.0)
                      && r.value.0.key == key
                      && NodeTypeOf(tokens[i].tokenType) == Some(r.value.0.nodeType)
                      && (tokens[i].tokenType == Scalar ==> r.value == (Node(ScalarNode, key, Some(tokens[i].text), []), i))
                      && (tokens[i].tokenType == BlockMappingStart ==> tokens[r.value.1].tokenType == BlockEnd)
                      && (tokens[i].tokenType == FlowSequenceStart ==> tokens[r.value.1].tokenType == FlowSequenceEnd)
    ensures r.Err? && r.error.TooManyChildren? ==> |tokens| - i > MAX_CHILDREN
    ensures i < |tokens| && NodeTypeOf(tokens[i].tokenType).None? ==>
              r == Err(UnsupportedToken(tokens[i].tokenType, parentKey))
    decreases |tokens| - i, 2
  {
    if i >= |tokens| then Err(ReadPastEnd)
    else
      match tokens[i].tokenType
      case Scalar => Ok((Node(ScalarNode, key, Some(tokens[i].text), []), i))
      case BlockMappingStart =>
        (match ParseMap(tokens, i, key, [])
         case Err(e) => Err(e)
         case Ok((kids, end)) => Ok((Node(MapNode, key, None, kids), end)))
      case FlowSequenceStart =>
        (match ParseSequence(tokens, i, key, [])
         case Err(e) => Err(e)
         case Ok((kids, end)) => Ok((Node(SequenceNode, key, None, kids), end)))
      case _ => Err(UnsupportedToken(tokens[i].tokenType, parentKey))
  }

  /** process_child at index i, under key `key`, for a parent whose key is `parentKey`
      and whose children are `siblings`: the node built at i is appended after its
      siblings (there must be room for it) and the result index is the one just past the
      node's last token. */
  function ParseChild(tokens: seq<Token>, i: nat, key: Option<string>, parentKey: Option<string>,
                      siblings: seq<Node>): (r: Parsed)
    requires i <= |tokens|
    ensures r.Ok? ==> && i < r.value.1 <= |tokens|
                      && |siblings| < MAX_CHILDREN
                      && |r.value.0| == |siblings| + 1
                      && r.value.0[..|siblings|] == siblings
                      && WellFormed(r.value.0[|siblings|])
                      && r.value.0[|siblings|].key == key
                      && NodeTypeOf(tokens[i].tokenType) == Some(r.value.0[|siblings|].nodeType)
                      && (tokens[i].tokenType == Scalar ==>
                            r.value.0[|siblings|] == Node(ScalarNode, key, Some(tokens[i].text), []))
                      && (tokens[i].tokenType == Scalar ==> r.value.1 == i + 1)
                      && (tokens[i].tokenType == BlockMappingStart ==> tokens[r.value.1 - 1].tokenType == BlockEnd)
                      && (tokens[i].tokenType == FlowSequenceStart ==> tokens[r.value.1 - 1].tokenType == FlowSequenceEnd)
    ensures r.Err? && r.error.TooManyChildren? ==> |siblings| >= MAX_CHILDREN || |tokens| - i > MAX_CHILDREN
    ensures i < |tokens| && NodeTypeOf(tokens[i].tokenType).None? ==>
              r == Err(UnsupportedToken(tokens[i].tokenType, parentKey))
    decreases |tokens| - i, 3
  {
    match ParseNode(tokens, i, key, parentKey)
    case Err(e) => Err(e)
    case Ok((node, end)) =>
      if |siblings| >= MAX_CHILDREN then Err(TooManyChildren(parentKey))
      else Ok((siblings + [node], end + 1))
  }

  /** The node type a token starts, for the three token types process_child accepts. */
  function NodeTypeOf(t: TokenType): (r: Option<NodeType>)
    ensures r.Some? <==> t == Scalar || t == BlockMappingStart || t == FlowSequenceStart
  {
    match t
    case Scalar => Some(ScalarNode)
    case BlockMappingStart => Some(MapNode)
    case FlowSequenceStart => Some(SequenceNode)
    case _ => None
  }

  /** ROOT_MAP_START_INDEX */
  const ROOT_MAP_START_INDEX: nat := 1

  /** The root call of read_yaml_file: a map keyed "root", parsed from index 1. */
  function ParseRoot(tokens: seq<Token>): Parsed
    requires ROOT_MAP_START_INDEX <= |tokens|
  {
    ParseMap(tokens, ROOT_MAP_START_INDEX, Some("root"), [])
  }

  /** read_yaml_file stops scanning at MAX_TOKEN_COUNT tokens, and with that few tokens
      no children array can overflow: the parse never ends in TooManyChildren, and a
      successful parse yields a well-formed map. */
  const MAX_TOKEN_COUNT: nat := 256

  lemma RootNeverOverflows(tokens: seq<Token>)
    requires ROOT_MAP_START_INDEX <= |tokens| <= MAX_TOKEN_COUNT
    ensures !(ParseRoot(tokens).Err? && ParseRoot(tokens).error.TooManyChildren?)
    ensures ParseRoot(tokens).Ok? ==>
              WellFormed(Node(MapNode, Some("root"), None, ParseRoot(tokens).value.0))
  {
  }
}
