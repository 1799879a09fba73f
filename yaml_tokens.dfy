/** The libyaml tokens that the parser of src/utils/yaml.cc consumes, the node types it
    builds, and the two name tables it uses in its diagnostics. */
module YamlTokens {
  import opened Wrappers

  /** yaml_token_type_t, in the order (and so with the numeric values) of libyaml's
      enumeration. */
  datatype TokenType =
    | NoToken
    | StreamStart
    | StreamEnd
    | VersionDirective
    | TagDirective
    | DocumentStart
    | DocumentEnd
    | BlockSequenceStart
    | BlockMappingStart
    | BlockEnd
    | FlowSequenceStart
    | FlowSequenceEnd
    | FlowMappingStart
    | FlowMappingEnd
    | BlockEntry
    | FlowEntry
    | Key
    | Value
    | Alias
    | Anchor
    | Tag
    | Scalar

  /** A scanned token: its type and the text the parser reads out of its scalar data.
      The parser reads that text from the token after a KEY token whatever that token's
      type, so every token carries some text. */
  datatype Token = Token(tokenType: TokenType, text: string)

  /** YAML_NODE_TYPE */
  datatype NodeType = ScalarNode | MapNode | SequenceNode

  /** The numeric value of a token type in libyaml's enumeration. */
  function TokenTypeOrdinal(t: TokenType): (n: nat)
    ensures n < |YAML_TOKEN_TYPE_NAMES|
  {
    match t
    case NoToken => 0
    case StreamStart => 1
    case StreamEnd => 2
    case VersionDirective => 3
    case TagDirective => 4
    case DocumentStart => 5
    case DocumentEnd => 6
    case BlockSequenceStart => 7
    case BlockMappingStart => 8
    case BlockEnd => 9
    case FlowSequenceStart => 10
    case FlowSequenceEnd => 11
    case FlowMappingStart => 12
    case FlowMappingEnd => 13
    case BlockEntry => 14
    case FlowEntry => 15
    case Key => 16
    case Value => 17
    case Alias => 18
    case Anchor => 19
    case Tag => 20
    case Scalar => 21
  }

  /** The token type with a given numeric value, if there is one. */
  function TokenTypeOfOrdinal(n: nat): (t: Option<TokenType>)
    ensures t.Some? <==> n < |YAML_TOKEN_TYPE_NAMES|
  {
    if n == 0 then Some(NoToken)
    else if n == 1 then Some(StreamStart)
    else if n == 2 then Some(StreamEnd)
    else if n == 3 then Some(VersionDirective)
    else if n == 4 then Some(TagDirective)
    else if n == 5 then Some(DocumentStart)
    else if n == 6 then Some(DocumentEnd)
    else if n == 7 then Some(BlockSequenceStart)
    else if n == 8 then Some(BlockMappingStart)
    else if n == 9 then Some(BlockEnd)
    else if n == 10 then Some(FlowSequenceStart)
    else if n == 11 then Some(FlowSequenceEnd)
    else if n == 12 then Some(FlowMappingStart)
    else if n == 13 then Some(FlowMappingEnd)
    else if n == 14 then Some(BlockEntry)
    else if n == 15 then Some(FlowEntry)
    else if n == 16 then Some(Key)
    else if n == 17 then Some(Value)
    else if n == 18 then Some(Alias)
    else if n == 19 then Some(Anchor)
    else if n == 20 then Some(Tag)
    else if n == 21 then Some(Scalar)
    else None
  }

  /** The numbering is a bijection between the 22 token types and 0..21. */
  lemma TokenTypeOrdinalRoundTrip(t: TokenType, n: nat)
    ensures TokenTypeOfOrdinal(TokenTypeOrdinal(t)) == Some(t)
    ensures n < |YAML_TOKEN_TYPE_NAMES| ==> TokenTypeOrdinal(TokenTypeOfOrdinal(n).value) == n
  {
  }

  /** YAML_TOKEN_TYPE_NAMES */
  const YAML_TOKEN_TYPE_NAMES: seq<string> := [
    "YAML_NO_TOKEN",
    "YAML_STREAM_START_TOKEN",
    "YAML_STREAM_END_TOKEN",
    "YAML_VERSION_DIRECTIVE_TOKEN",
    "YAML_TAG_DIRECTIVE_TOKEN",
    "YAML_DOCUMENT_START_TOKEN",
    "YAML_DOCUMENT_END_TOKEN",
    "YAML_BLOCK_SEQUENCE_START_TOKEN",
    "YAML_BLOCK_MAPPING_START_TOKEN",
    "YAML_BLOCK_END_TOKEN",
    "YAML_FLOW_SEQUENCE_START_TOKEN",
    "YAML_FLOW_SEQUENCE_END_TOKEN",
    "YAML_FLOW_MAPPING_START_TOKEN",
    "YAML_FLOW_MAPPING_END_TOKEN",
    "YAML_BLOCK_ENTRY_TOKEN",
    "YAML_FLOW_ENTRY_TOKEN",
    "YAML_KEY_TOKEN",
    "YAML_VALUE_TOKEN",
    "YAML_ALIAS_TOKEN",
    "YAML_ANCHOR_TOKEN",
    "YAML_TAG_TOKEN",
    "YAML_SCALAR_TOKEN"
  ]

  /** YAML_NODE_TYPE_NAMES */
  const YAML_NODE_TYPE_NAMES: seq<string> := ["SCALAR", "MAP", "SEQUENCE"]

  /** yaml_token_type_name: the table entry at the token type's numeric value, which
      reads back as that token type. */
  function YamlTokenTypeName(t: TokenType): (name: string)
    ensures name == YAML_TOKEN_TYPE_NAMES[TokenTypeOrdinal(t)]
    ensures TokenTypeNamed(name) == Some(t)
  {
    TokenTypeNameRoundTrip(t);
    YAML_TOKEN_TYPE_NAMES[TokenTypeOrdinal(t)]
  }

  /** The numeric value of a node type in YAML_NODE_TYPE. */
  function NodeTypeOrdinal(t: NodeType): (n: nat)
    ensures n < |YAML_NODE_TYPE_NAMES|
  {
    match t
    case ScalarNode => 0
    case MapNode => 1
    case SequenceNode => 2
  }

  /** yaml_node_type_name: the table entry at the node type's numeric value. */
  function YamlNodeTypeName(t: NodeType): (name: string)
    ensures name == YAML_NODE_TYPE_NAMES[NodeTypeOrdinal(t)]
    ensures name in YAML_NODE_TYPE_NAMES
  {
    YAML_NODE_TYPE_NAMES[NodeTypeOrdinal(t)]
  }

  /** The node type a name stands for: the inverse of yaml_node_type_name. */
  function NodeTypeNamed(name: string): Option<NodeType> {
    if name == "SCALAR" then Some(ScalarNode)
    else if name == "MAP" then Some(MapNode)
    else if name == "SEQUENCE" then Some(SequenceNode)
    else None
  }

  /** Every node type's name reads back as that node type. */
  lemma NodeTypeNameRoundTrip(t: NodeType)
    ensures NodeTypeNamed(YamlNodeTypeName(t)) == Some(t)
  {
  }

  /** Different node types are reported under different names. */
  lemma NodeTypeNamesDistinct(s: NodeType, t: NodeType)
    requires s != t
    ensures YamlNodeTypeName(s) != YamlNodeTypeName(t)
  {
    NodeTypeNameRoundTrip(s);
    NodeTypeNameRoundTrip(t);
  }

  /** The token type a name stands for: the inverse of yaml_token_type_name. */
  function TokenTypeNamed(name: string): Option<TokenType> {
    if name == "YAML_NO_TOKEN" then Some(NoToken)
    else if name == "YAML_STREAM_START_TOKEN" then Some(StreamStart)
    else if name == "YAML_STREAM_END_TOKEN" then Some(StreamEnd)
    else if name == "YAML_VERSION_DIRECTIVE_TOKEN" then Some(VersionDirective)
    else if name == "YAML_TAG_DIRECTIVE_TOKEN" then Some(TagDirective)
    else if name == "YAML_DOCUMENT_START_TOKEN" then Some(DocumentStart)
    else if name == "YAML_DOCUMENT_END_TOKEN" then Some(DocumentEnd)
    else if name == "YAML_BLOCK_SEQUENCE_START_TOKEN" then Some(BlockSequenceStart)
    else if name == "YAML_BLOCK_MAPPING_START_TOKEN" then Some(BlockMappingStart)
    else if name == "YAML_BLOCK_END_TOKEN" then Some(BlockEnd)
    else if name == "YAML_FLOW_SEQUENCE_START_TOKEN" then Some(FlowSequenceStart)
    else if name == "YAML_FLOW_SEQUENCE_END_TOKEN" then Some(FlowSequenceEnd)
    else if name == "YAML_FLOW_MAPPING_START_TOKEN" then Some(FlowMappingStart)
    else if name == "YAML_FLOW_MAPPING_END_TOKEN" then Some(FlowMappingEnd)
    else if name == "YAML_BLOCK_ENTRY_TOKEN" then Some(BlockEntry)
    else if name == "YAML_FLOW_ENTRY_TOKEN" then Some(FlowEntry)
    else if name == "YAML_KEY_TOKEN" then Some(Key)
    else if name == "YAML_VALUE_TOKEN" then Some(Value)
    else if name == "YAML_ALIAS_TOKEN" then Some(Alias)
    else if name == "YAML_ANCHOR_TOKEN" then Some(Anchor)
    else if name == "YAML_TAG_TOKEN" then Some(Tag)
    else if name == "YAML_SCALAR_TOKEN" then Some(Scalar)
    else None
  }

  /** Every token type's table entry reads back as that token type, so the table gives
      different token types different names and diagnostics are unambiguous.  The
      proof is split over four ranges of numeric values. */
  lemma TokenTypeNameRoundTrip(t: TokenType)
    ensures TokenTypeNamed(YAML_TOKEN_TYPE_NAMES[TokenTypeOrdinal(t)]) == Some(t)
  {
    if TokenTypeOrdinal(t) < 4 {
      FirstNamesRoundTrip(t);
    } else if TokenTypeOrdinal(t) < 8 {
      EarlyNamesRoundTrip(t);
    } else if TokenTypeOrdinal(t) < 15 {
      MiddleNamesRoundTrip(t);
    } else {
      LastNamesRoundTrip(t);
    }
  }

  lemma FirstNamesRoundTrip(t: TokenType)
    requires TokenTypeOrdinal(t) < 4
    ensures TokenTypeNamed(YAML_TOKEN_TYPE_NAMES[TokenTypeOrdinal(t)]) == Some(t)
  {
  }

  lemma EarlyNamesRoundTrip(t: TokenType)
    requires 4 <= TokenTypeOrdinal(t) < 8
    ensures TokenTypeNamed(YAML_TOKEN_TYPE_NAMES[TokenTypeOrdinal(t)]) == Some(t)
  {
  }

  lemma MiddleNamesRoundTrip(t: TokenType)
    requires 8 <= TokenTypeOrdinal(t) < 15
    ensures TokenTypeNamed(YAML_TOKEN_TYPE_NAMES[TokenTypeOrdinal(t)]) == Some(t)
  {
  }

  lemma LastNamesRoundTrip(t: TokenType)
    requires 15 <= TokenTypeOrdinal(t)
    ensures TokenTypeNamed(YAML_TOKEN_TYPE_NAMES[TokenTypeOrdinal(t)]) == Some(t)
  {
  }

  /** Different token types are reported under different names. */
  lemma TokenTypeNamesDistinct(s: TokenType, t: TokenType)
    requires s != t
    ensures YamlTokenTypeName(s) != YamlTokenTypeName(t)
  {
  }
}
