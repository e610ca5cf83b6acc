/**
 * The parts of the YAML library (gopkg.in/yaml.v3) that the Ansible parser
 * relies on: the node tree it hands to every UnmarshalYAML method, and
 * node.Decode, which fills a Go value from a node. Decoding and the position
 * bookkeeping belong to the library; the model takes them as parameters.
 */
module Yaml {

  datatype Option<T> = None | Some(value: T)

  /** The five node kinds of yaml.v3. */
  datatype Kind = DocumentNode | SequenceNode | MappingNode | ScalarNode | AliasNode

  /** A yaml.v3 node: its kind, tag, scalar text, children and position. */
  datatype Node = Node(kind: Kind, tag: string, value: string, content: seq<Node>, line: int, column: int)

  /** The parser's own Range: the first and last line of a node. */
  datatype Range = Range(startLine: int, endLine: int)

  /** The error node.Decode returns when a node does not fit the target. */
  datatype DecodeError = DecodeError(message: string)

  /**
   * What node.Decode(&target) leaves behind: the target as written, and the
   * error returned. yaml.v3 decodes into the existing value (fields the node
   * does not mention keep their old contents) and keeps going after a type
   * mismatch, so a failed decode may still have changed the target.
   */
  datatype Decoded<T> = Decoded(target: T, err: Option<DecodeError>)

  /** node.Decode into a target of type T, given the target's previous value. */
  type Decoder<!T> = (T, Node) -> Decoded<T>

  /** rangeFromNode: the line range of a node. */
  type RangeOf = Node -> Range

  /** Variables and `map[string]any` values: carried, never interpreted here. */
  type Variables = map<string, Node>
}
