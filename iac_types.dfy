/**
 * The provenance record of the IaC types package, reduced to the fields the
 * Ansible parser sets: the range built by NewRange, the kind label given to
 * NewMetadata, and the parent link set by SetParentPtr.
 */
module IacTypes {
  import opened Seqs

  /** The fs.FS handle: carried into every range, never read here. */
  datatype FileSystem = NilFileSystem | FileSystem(id: string)

  /** What NewRange(filename, startLine, endLine, sourcePrefix, fsys) records. */
  datatype IacRange = IacRange(filename: string, startLine: int, endLine: int, sourcePrefix: string, fsys: FileSystem)

  /** The contents of one metadata record at one moment. */
  datatype MetadataValue = MetadataValue(rng: IacRange, kind: string, parent: Metadata?)

  /**
   * The record the parser writes for a node: NewMetadata(NewRange(path,
   * startLine, endLine, "", fsys), kind) followed by SetParentPtr(parent).
   */
  function Stamp(path: string, startLine: int, endLine: int, fsys: FileSystem, kind: string, parent: Metadata?): MetadataValue
  {
    MetadataValue(IacRange(path, startLine, endLine, "", fsys), kind, parent)
  }

  /**
   * One metadata record. In the parser every node embeds exactly one, and a
   * parent link is the address of another node's record: an object here, so
   * that a link keeps seeing whatever that record is later overwritten with.
   */
  class Metadata {
    var rng: IacRange
    var kind: string
    var parent: Metadata?

    function Value(): MetadataValue
      reads this
    {
      MetadataValue(rng, kind, parent)
    }

    /** The zero record a node starts with. */
    constructor ()
      ensures Value() == MetadataValue(IacRange("", 0, 0, "", NilFileSystem), "", null)
    {
      rng := IacRange("", 0, 0, "", NilFileSystem);
      kind := "";
      parent := null;
    }

    /** `m = NewMetadata(r, kind)`: the whole record is replaced, so a parent link it held is cleared. */
    method Assign(r: IacRange, kind: string)
      modifies this
      ensures Value() == MetadataValue(r, kind, null)
    {
      rng := r;
      this.kind := kind;
      parent := null;
    }

    /** SetParentPtr: links the record to its parent and leaves the rest alone. */
    method SetParentPtr(p: Metadata?)
      modifies this
      ensures Value() == old(Value()).(parent := p)
    {
      parent := p;
    }
  }

  /** The contents of a sequence of records, in order. */
  ghost function Values(cells: seq<Metadata>): (r: seq<MetadataValue>)
    reads cells
    ensures |r| == |cells|
    ensures forall k :: 0 <= k < |cells| ==> r[k] == cells[k].Value()
  {
    if |cells| == 0 then [] else [cells[0].Value()] + Values(cells[1..])
  }

  /** The records that `recordOf` picks out of the nodes `xs`, as a set: the frame a pass over `xs` writes. */
  ghost function RecordSet<T>(xs: seq<T>, recordOf: T -> Metadata): set<Metadata>
  {
    set k | 0 <= k < |xs| :: recordOf(xs[k])
  }

  /** Nodes may share a record, so a pass over `xs` writes no more records than there are nodes. */
  lemma {:induction false} RecordSetSize<T>(xs: seq<T>, recordOf: T -> Metadata)
    ensures |RecordSet(xs, recordOf)| <= |xs|
    decreases |xs|
  {
    if |xs| > 0 {
      var n := |xs| - 1;
      RecordSetSize(xs[..n], recordOf);
      assert RecordSet(xs, recordOf) == RecordSet(xs[..n], recordOf) + {recordOf(xs[n])} by {
        forall m | m in RecordSet(xs, recordOf)
          ensures m in RecordSet(xs[..n], recordOf) + {recordOf(xs[n])}
        {
          var k :| 0 <= k < |xs| && m == recordOf(xs[k]);
          if k < n {
            assert xs[..n][k] == xs[k];
          }
        }
        forall m | m in RecordSet(xs[..n], recordOf)
          ensures m in RecordSet(xs, recordOf)
        {
          var k :| 0 <= k < n && m == recordOf(xs[..n][k]);
          assert xs[..n][k] == xs[k];
        }
      }
    }
  }

  /** Two nodes of `xs` share a record only if they are the same node. */
  ghost predicate DistinctRecords<T>(xs: seq<T>, recordOf: T -> Metadata)
  {
    forall i, j :: 0 <= i < |xs| && 0 <= j < |xs| && recordOf(xs[i]) == recordOf(xs[j]) ==> xs[i] == xs[j]
  }
}
