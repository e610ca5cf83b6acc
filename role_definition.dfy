/**
 * A reference to a role, from a play's `roles` list or a role's
 * `dependencies` list: either a bare role name or a mapping with `role` and
 * `vars` keys.
 */
module RoleDefinitions {
  import opened Yaml
  import opened IacTypes

  /** The decoded fields: `role` and `vars`. */
  datatype RoleDefinitionInner = RoleDefinitionInner(name: string, vars: Variables)

  class RoleDefinition {
    var inner: RoleDefinitionInner
    const metadata: Metadata
    var rng: Range

    /** The zero value the YAML library allocates before decoding into it. */
    constructor ()
      ensures inner == RoleDefinitionInner("", map[]) && rng == Range(0, 0)
      ensures fresh(metadata)
    {
      inner := RoleDefinitionInner("", map[]);
      rng := Range(0, 0);
      metadata := new Metadata();
    }

    /**
     * RoleDefinition.UnmarshalYAML: records the node's range, then decides by
     * the node's kind alone. A scalar is the role name and nothing is decoded;
     * any other node is decoded structurally and its result returned.
     */
    method UnmarshalYAML(node: Node, rangeOf: RangeOf, decode: Decoder<RoleDefinitionInner>)
      returns (err: Option<DecodeError>)
      modifies this
      ensures rng == rangeOf(node)
      ensures node.kind == ScalarNode ==> err == None && inner == old(inner).(name := node.value)
      ensures node.kind == ScalarNode ==> Name() == node.value && inner.vars == old(inner.vars)
      ensures node.kind != ScalarNode ==> Decoded(inner, err) == decode(old(inner), node)
      ensures node.kind != ScalarNode ==> Name() == decode(old(inner), node).target.name
    {
      rng := rangeOf(node);
      if node.kind == ScalarNode {
        inner := inner.(name := node.value);
        return None;
      }
      var d := decode(inner, node);
      inner := d.target;
      err := d.err;
    }

    /** RoleDefinition.updateMetadata: its own range, an empty kind label, linked to `parent`. */
    method UpdateMetadata(fsys: FileSystem, parent: Metadata?, path: string)
      modifies metadata
      ensures metadata.Value() == Stamp(path, rng.startLine, rng.endLine, fsys, "", parent)
    {
      metadata.Assign(IacRange(path, rng.startLine, rng.endLine, "", fsys), "");
      metadata.SetParentPtr(parent);
    }

    /** RoleDefinition.name: the role name as decoded. */
    function Name(): string
      reads this
    {
      inner.name
    }
  }

  /** The record a role reference embeds. */
  function DefinitionRecord(rd: RoleDefinition): Metadata
  {
    rd.metadata
  }

  /** The record contents each role reference's updateMetadata leaves, linked to `parent`. */
  ghost function DefinitionStamps(rds: seq<RoleDefinition>, fsys: FileSystem, parent: Metadata?, path: string): seq<MetadataValue>
    reads rds
  {
    seq(|rds|, k reads rds requires 0 <= k < |rds| => Stamp(path, rds[k].rng.startLine, rds[k].rng.endLine, fsys, "", parent))
  }
}
