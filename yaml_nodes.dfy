/** The YAML_NODE tree of src/utils/yaml.cc and the parser procedures that build it in
    place: each node has a fixed array of 256 child slots and a running child count, and
    process_child appends to its parent.  Each procedure is proved to build exactly the
    tree, and stop at exactly the token, that the functions of YamlParse describe. */
module YamlNodes {
  import opened Wrappers
  import opened YamlTokens
  import opened YamlParse

  /** YAML_NODE */
  class YamlNode {
    const nodeType: NodeType
    const key: Option<string>
    const value: Option<string>
    const children: array<YamlNode?>
    var childCount: nat

    /** The trees of the children, in order. */
    ghost var ChildTrees: seq<Node>
    /** This node, its children array and everything reachable from its children. */
    ghost var Repr: set<object>

    /** The value this node currently stands for. */
    ghost function Tree(): Node
      reads this
    {
      Node(nodeType, key, value, ChildTrees)
    }

    ghost predicate Valid()
      reads this, Repr
      decreases Repr
    {
      && this in Repr
      && children in Repr
      && children.Length == MAX_CHILDREN
      && childCount <= MAX_CHILDREN
      && |ChildTrees| == childCount
      && forall k :: 0 <= k < childCount ==>
           && children[k] != null
           && children[k] in Repr
           && children[k].Repr <= Repr
           && this !in children[k].Repr
           && children !in children[k].Repr
           && children[k].Valid()
           && children[k].Tree() == ChildTrees[k]
    }

    /** create_yaml_node: a node of the given type with copies of the given key and
        value (strings are values here, so the copy is the value itself) and no
        children. */
    constructor(nodeType: NodeType, key: Option<string>, value: Option<string>)
      ensures Valid() && fresh(Repr)
      ensures this.nodeType == nodeType && this.key == key && this.value == value
      ensures childCount == 0 && ChildTrees == []
    {
      this.nodeType := nodeType;
      this.key := key;
      this.value := value;
      this.children := new YamlNode?[MAX_CHILDREN](_ => null);
      this.childCount := 0;
      ChildTrees := [];
      new;
      Repr := {this, children};
    }

    /** Store `child` in the next free slot: `parent->children[parent->child_count++]`. */
    method Append(child: YamlNode)
      requires Valid() && child.Valid()
      requires childCount < MAX_CHILDREN
      requires this !in child.Repr && children !in child.Repr
      modifies this, children
      ensures Valid()
      ensures childCount == old(childCount) + 1
      ensures children[old(childCount)] == child
      ensures forall k :: 0 <= k < old(childCount) ==> children[k] == old(children[k])
      ensures ChildTrees == old(ChildTrees) + [child.Tree()]
      ensures Repr == old(Repr) + child.Repr
    {
      children[childCount] := child;
      childCount := childCount + 1;
      ChildTrees := ChildTrees + [child.Tree()];
      Repr := Repr + child.Repr;
    }
  }

  /** The method's outcome agrees with a parse function's: the same error, or the same
      index with `trees` as the children built. */
  predicate Agrees(r: Result<nat, YamlError>, spec: Parsed, trees: seq<Node>) {
    match spec
    case Err(e) => r == Err(e)
    case Ok((kids, index)) => r == Ok(index) && trees == kids
  }

  /** process_map: the node's children are built from index i on, and the index of the
      closing BLOCK_END is returned. */
  method ProcessMap(mapNode: YamlNode, tokens: seq<Token>, i: nat) returns (r: Result<nat, YamlError>)
    requires i <= |tokens| && mapNode.Valid()
    modifies mapNode, mapNode.children
    ensures mapNode.Valid() && fresh(mapNode.Repr - old(mapNode.Repr))
    ensures Agrees(r, ParseMap(tokens, i, mapNode.key, old(mapNode.ChildTrees)), mapNode.ChildTrees)
    decreases |tokens| - i, 1
  {
    if i >= |tokens| {
      return Err(ReadPastEnd);
    }
    if tokens[i].tokenType != BlockMappingStart {
      return Err(NotAMap(tokens[i].tokenType));
    }
    var current := i + 1;
    ghost var spec := ParseMapEntries(tokens, current, mapNode.key, mapNode.ChildTrees);
    assert ParseMap(tokens, i, mapNode.key, old(mapNode.ChildTrees)) == spec;
    while current < |tokens| && tokens[current].tokenType != BlockEnd
      invariant i < current <= |tokens|
      invariant mapNode.Valid() && fresh(mapNode.Repr - old(mapNode.Repr))
      invariant ParseMapEntries(tokens, current, mapNode.key, mapNode.ChildTrees) == spec
      decreases |tokens| - current
    {
      ghost var before := mapNode.ChildTrees;
      MapEntryStep(tokens, current, mapNode.key, before);
      if current + 3 >= |tokens| {
        assert spec == Err(ReadPastEnd);
        return Err(ReadPastEnd);
      }
      var key := tokens[current + 1].text;
      current := current + 3;
      if tokens[current].tokenType == Key || tokens[current].tokenType == BlockEnd {
        assert spec == Err(NoValueForKey(key, mapNode.key));
        return Err(NoValueForKey(key, mapNode.key));
      }
      var next := ProcessChild(mapNode, Some(key), tokens, current);
      if next.Err? {
        assert spec == Err(next.error);
        return Err(next.error);
      }
      assert ParseChild(tokens, current, Some(key), mapNode.key, before) == Ok((mapNode.ChildTrees, next.value));
      current := next.value;
    }
    if current >= |tokens| {
      return Err(ReadPastEnd);
    }
    ClosingTokenEndsLoop(tokens, current, mapNode.key, mapNode.ChildTrees);
    return Ok(current);
  }

  /** process_sequence: the node's children are built from the token after i on, and
      the index of the closing FLOW_SEQUENCE_END is returned. */
  method ProcessSequence(sequence: YamlNode, tokens: seq<Token>, i: nat) returns (r: Result<nat, YamlError>)
    requires i <= |tokens| && sequence.Valid()
    modifies sequence, sequence.children
    ensures sequence.Valid() && fresh(sequence.Repr - old(sequence.Repr))
    ensures Agrees(r, ParseSequence(tokens, i, sequence.key, old(sequence.ChildTrees)), sequence.ChildTrees)
    decreases |tokens| - i, 1
  {
    var current := i + 1;
    if current >= |tokens| {
      return Err(ReadPastEnd);
    }
    if tokens[current].tokenType == FlowEntry {
      return Err(CommaAtStart(sequence.key));
    }
    ghost var spec := ParseSequenceItems(tokens, current, sequence.key, sequence.ChildTrees);
    assert ParseSequence(tokens, i, sequence.key, old(sequence.ChildTrees)) == spec;
    while current < |tokens| && tokens[current].tokenType != FlowSequenceEnd
      invariant i < current <= |tokens|
      invariant sequence.Valid() && fresh(sequence.Repr - old(sequence.Repr))
      invariant ParseSequenceItems(tokens, current, sequence.key, sequence.ChildTrees) == spec
      decreases |tokens| - current
    {
      var next := ProcessItem(sequence, tokens, current);
      if next.Err? {
        return Err(next.error);
      }
      current := next.value;
    }
    if current >= |tokens| {
      return Err(ReadPastEnd);
    }
    ClosingTokenEndsLoop(tokens, current, sequence.key, sequence.ChildTrees);
    return Ok(current);
  }

  /** The body of the loop of process_sequence: the item at j is appended, and one
      FLOW_ENTRY after it is skipped, but not two.  The sequence then continues at the
      index returned, or ends with the error. */
  method ProcessItem(sequence: YamlNode, tokens: seq<Token>, j: nat) returns (r: Result<nat, YamlError>)
    requires j < |tokens| && tokens[j].tokenType != FlowSequenceEnd && sequence.Valid()
    modifies sequence, sequence.children
    ensures sequence.Valid() && fresh(sequence.Repr - old(sequence.Repr))
    ensures r.Err? ==> ParseSequenceItems(tokens, j, sequence.key, old(sequence.ChildTrees)) == Err(r.error)
    ensures r.Ok? ==> && j < r.value <= |tokens|
                      && ParseSequenceItems(tokens, j, sequence.key, old(sequence.ChildTrees))
                         == ParseSequenceItems(tokens, r.value, sequence.key, sequence.ChildTrees)
    decreases |tokens| - j, 4
  {
    ghost var before := sequence.ChildTrees;
    ghost var child := ParseChild(tokens, j, None, sequence.key, before);
    SequenceItemStep(tokens, j, sequence.key, before);
    var next := ProcessChild(sequence, None, tokens, j);
    if next.Err? {
      assert child == Err(next.error);
      return Err(next.error);
    }
    assert child == Ok((sequence.ChildTrees, next.value));
    var current := next.value;
    if current < |tokens| && tokens[current].tokenType == FlowEntry {
      current := current + 1;
      if current < |tokens| && tokens[current].tokenType == FlowEntry {
        return Err(ConsecutiveCommas(sequence.key));
      }
    }
    return Ok(current);
  }

  /** The first part of process_child: a new node for the token at i, filled by
      process_map or process_sequence when it is a block map or flow sequence.  The node
      and everything in it are new, and it stands for the node ParseNode describes. */
  method CreateChild(key: Option<string>, parentKey: Option<string>, tokens: seq<Token>, i: nat)
    returns (r: Result<(YamlNode, nat), YamlError>)
    requires i <= |tokens|
    ensures r.Ok? ==> && r.value.0.Valid() && fresh(r.value.0.Repr)
                      && ParseNode(tokens, i, key, parentKey) == Ok((r.value.0.Tree(), r.value.1))
    ensures r.Err? ==> ParseNode(tokens, i, key, parentKey) == Err(r.error)
    decreases |tokens| - i, 2
  {
    if i >= |tokens| {
      return Err(ReadPastEnd);
    }
    var child: YamlNode;
    var current := i;
    if tokens[i].tokenType == Scalar {
      child := new YamlNode(ScalarNode, key, Some(tokens[i].text));
    } else if tokens[i].tokenType == BlockMappingStart {
      child := new YamlNode(MapNode, key, None);
      var end := ProcessMap(child, tokens, i);
      if end.Err? {
        return Err(end.error);
      }
      current := end.value;
    } else if tokens[i].tokenType == FlowSequenceStart {
      child := new YamlNode(SequenceNode, key, None);
      var end := ProcessSequence(child, tokens, i);
      if end.Err? {
        return Err(end.error);
      }
      current := end.value;
    } else {
      return Err(UnsupportedToken(tokens[i].tokenType, parentKey));
    }
    return Ok((child, current));
  }

  /** process_child: the node built at i is stored in the parent's next child slot, and
      the index after the node's last token is returned.  Exactly one child is added, in
      the slot after the existing ones, which stay as they were. */
  method ProcessChild(parent: YamlNode, key: Option<string>, tokens: seq<Token>, i: nat)
    returns (r: Result<nat, YamlError>)
    requires i <= |tokens| && parent.Valid()
    modifies parent, parent.children
    ensures parent.Valid() && fresh(parent.Repr - old(parent.Repr))
    ensures Agrees(r, ParseChild(tokens, i, key, parent.key, old(parent.ChildTrees)), parent.ChildTrees)
    ensures r.Ok? ==> && parent.childCount == old(parent.childCount) + 1
                      && forall k :: 0 <= k < old(parent.childCount) ==> parent.children[k] == old(parent.children[k])
    decreases |tokens| - i, 3
  {
    ghost var siblings := parent.ChildTrees;
    var created := CreateChild(key, parent.key, tokens, i);
    if created.Err? {
      return Err(created.error);
    }
    var (child, current) := created.value;
    if parent.childCount >= MAX_CHILDREN {
      return Err(TooManyChildren(parent.key));
    }
    assert ParseChild(tokens, i, key, parent.key, siblings) == Ok((siblings + [child.Tree()], current + 1));
    parent.Append(child);
    return Ok(current + 1);
  }

  /** The parsing part of read_yaml_file: a fresh map node keyed "root", filled by
      process_map from ROOT_MAP_START_INDEX.  The scan it follows keeps at most
      MAX_TOKEN_COUNT tokens and always at least one, so no children array overflows. */
  method ProcessRoot(tokens: seq<Token>) returns (root: YamlNode, r: Result<nat, YamlError>)
    requires ROOT_MAP_START_INDEX <= |tokens| <= MAX_TOKEN_COUNT
    ensures root.Valid()
    ensures root.nodeType == MapNode && root.key == Some("root") && root.value.None?
    ensures Agrees(r, ParseRoot(tokens), root.ChildTrees)
    ensures !(r.Err? && r.error.TooManyChildren?)
    ensures r.Ok? ==> WellFormed(root.Tree())
  {
    root := new YamlNode(MapNode, Some("root"), None);
    r := ProcessMap(root, tokens, ROOT_MAP_START_INDEX);
    RootNeverOverflows(tokens);
  }
}
