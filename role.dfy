/**
 * Roles: a loaded role with its resolved dependencies, the flattening of a
 * role's tasks, and the role metadata file that declares the dependencies.
 */
module Roles {
  import opened Yaml
  import opened IacTypes
  import opened Seqs
  import opened Tasks
  import opened RoleDefinitions

  /** How a role was loaded; only the selected tasks file matters here. */
  datatype LoadRoleOptions = LoadRoleOptions(tasksFile: string)

  /** Role.compile, defined outside this model. */
  type RoleCompiler = Role -> seq<Task>

  /**
   * A loaded role. The loader fills every field but the metadata record, and
   * nothing in this model changes them afterwards. `height` is a ghost rank
   * strictly above every dependency's: it records that the dependency graph
   * has no cycle, which getTasks needs to terminate.
   */
  class Role {
    const name: string
    const metadata: Metadata
    const opt: LoadRoleOptions
    const tasks: map<string, seq<Task>>
    const defaults: Variables
    const vars: Variables
    const directDeps: seq<Role>
    ghost const height: nat

    /** Every dependency, at every depth, sits strictly lower. */
    ghost predicate Ranked()
      decreases height
    {
      forall i :: 0 <= i < |directDeps| ==> directDeps[i].height < height && directDeps[i].Ranked()
    }

    constructor (name: string, opt: LoadRoleOptions, tasks: map<string, seq<Task>>,
                 defaults: Variables, vars: Variables, directDeps: seq<Role>)
      requires forall i :: 0 <= i < |directDeps| ==> directDeps[i].Ranked()
      ensures this.name == name && this.opt == opt && this.tasks == tasks
      ensures this.defaults == defaults && this.vars == vars && this.directDeps == directDeps
      ensures fresh(metadata) && Ranked()
    {
      this.name := name;
      this.opt := opt;
      this.tasks := tasks;
      this.defaults := defaults;
      this.vars := vars;
      this.directDeps := directDeps;
      metadata := new Metadata();
      height := 1 + MaxHeight(directDeps);
    }

    /** Role.updateMetadata: a zero range, kind "role", linked to `parent`. */
    method UpdateMetadata(fsys: FileSystem, parent: Metadata?, path: string)
      modifies metadata
      ensures metadata.Value() == Stamp(path, 0, 0, fsys, "role", parent)
    {
      metadata.Assign(IacRange(path, 0, 0, "", fsys), "role");
      metadata.SetParentPtr(parent);
    }

    /** `r.tasks[r.opt.TasksFile]`: a missing key reads as an empty list. */
    function OwnTasks(): seq<Task>
    {
      if opt.tasksFile in tasks then tasks[opt.tasksFile] else []
    }

    /** The task lists of the first `n` direct dependencies, in declared order. */
    ghost function DepOutputs(n: nat): (r: seq<seq<Task>>)
      requires Ranked() && n <= |directDeps|
      decreases height, 0, n
      ensures |r| == n
    {
      if n == 0 then [] else DepOutputs(n - 1) + [directDeps[n - 1].AllTasks()]
    }

    /** A shorter list of dependency outputs is a prefix of a longer one. */
    lemma {:induction false} DepOutputsPrefix(i: nat, n: nat)
      requires Ranked() && i <= n <= |directDeps|
      ensures DepOutputs(n)[..i] == DepOutputs(i)
      decreases n
    {
      if i < n {
        DepOutputsPrefix(i, n - 1);
        assert DepOutputs(n)[..n - 1] == DepOutputs(n - 1);
      }
    }

    /** Entry `k` of the dependency outputs is dependency `k`'s tasks. */
    lemma {:induction false} DepOutputsAt(n: nat, k: nat)
      requires Ranked() && k < n <= |directDeps|
      ensures DepOutputs(n)[k] == directDeps[k].AllTasks()
    {
      DepOutputsPrefix(k + 1, n);
      assert DepOutputs(n)[k] == DepOutputs(n)[..k + 1][k];
    }

    /** The tasks every dependency contributes, depth first, in declared order. */
    ghost function DependencyTasks(): seq<Task>
      requires Ranked()
      decreases height, 1, 0
    {
      Concat(DepOutputs(|directDeps|))
    }

    /** What getTasks returns: every dependency's tasks, then the role's own. */
    ghost function AllTasks(): seq<Task>
      requires Ranked()
      decreases height, 2, 0
    {
      DependencyTasks() + OwnTasks()
    }

    /**
     * The dependencies' tasks open the list and the role's own tasks close
     * it; with no dependencies only the own tasks remain, and when the
     * selected tasks file is missing only the dependencies' tasks remain.
     */
    lemma AllTasksShape()
      requires Ranked()
      ensures Block(AllTasks(), DependencyTasks(), 0)
      ensures Block(AllTasks(), OwnTasks(), |DependencyTasks()|)
      ensures |AllTasks()| == TotalLength(DepOutputs(|directDeps|)) + |OwnTasks()|
      ensures |directDeps| == 0 ==> AllTasks() == OwnTasks()
      ensures opt.tasksFile !in tasks ==> AllTasks() == DependencyTasks()
    {
      var deps := DependencyTasks();
      assert AllTasks()[0..|deps|] == deps;
      assert AllTasks()[|deps|..|deps| + |OwnTasks()|] == OwnTasks();
    }

    /** Role.getTasks. */
    method GetTasks() returns (result: seq<Task>)
      requires Ranked()
      ensures result == AllTasks()
      decreases height
    {
      result := [];
      for i := 0 to |directDeps|
        invariant result == Concat(DepOutputs(i))
      {
        var depTasks := directDeps[i].GetTasks();
        result := result + depTasks;
        assert DepOutputs(i + 1)[..i] == DepOutputs(i);
      }
      result := result + OwnTasks();
    }

    /** Dependency `i`'s tasks appear whole among the dependencies' tasks, right after those declared before it. */
    lemma {:induction false} DependencyPlacement(i: nat)
      requires Ranked() && i < |directDeps|
      ensures Block(DependencyTasks(), directDeps[i].AllTasks(), TotalLength(DepOutputs(i)))
    {
      ConcatBlock(DepOutputs(|directDeps|), i);
      DepOutputsPrefix(i, |directDeps|);
      DepOutputsAt(|directDeps|, i);
    }

    /** `path` names a chain of direct dependencies starting at this role. */
    ghost predicate IsPath(path: seq<nat>)
      decreases |path|
    {
      |path| == 0 || (path[0] < |directDeps| && directDeps[path[0]].IsPath(path[1..]))
    }

    /** The role at the end of `path`. */
    ghost function Reach(path: seq<nat>): (r: Role)
      requires IsPath(path)
      decreases |path|
      ensures Ranked() ==> r.Ranked()
    {
      if |path| == 0 then this else directDeps[path[0]].Reach(path[1..])
    }

    /**
     * For every depth: the tasks of any role reachable through dependencies
     * appear whole among this role's dependency tasks, hence before its own.
     */
    lemma {:induction false} DescendantPlacement(path: seq<nat>) returns (k: nat)
      requires Ranked() && IsPath(path) && |path| > 0
      ensures Block(DependencyTasks(), Reach(path).AllTasks(), k)
      decreases |path|
    {
      var dep := directDeps[path[0]];
      assert Reach(path) == dep.Reach(path[1..]);
      var k0 := TotalLength(DepOutputs(path[0]));
      DependencyPlacement(path[0]);
      if |path| == 1 {
        k := k0;
      } else {
        var k1 := dep.DescendantPlacement(path[1..]);
        dep.AllTasksShape();
        NestedBlock(dep.AllTasks(), dep.DependencyTasks(), Reach(path).AllTasks(), 0, k1);
        NestedBlock(DependencyTasks(), dep.AllTasks(), Reach(path).AllTasks(), k0, k1);
        k := k0 + k1;
      }
    }

    /** Every task of a role reachable through dependencies is in this role's tasks. */
    lemma {:induction false} TaskReached(path: seq<nat>, t: Task)
      requires Ranked() && IsPath(path) && t in Reach(path).OwnTasks()
      ensures t in AllTasks()
    {
      if |path| > 0 {
        var k := DescendantPlacement(path);
        var d := Reach(path).AllTasks();
        assert t in d;
        BlockMember(DependencyTasks(), d, k, t);
      }
    }

    /** Every task in this role's tasks is the own task of some role reachable through dependencies. */
    lemma {:induction false} TaskOrigin(t: Task) returns (path: seq<nat>)
      requires Ranked() && t in AllTasks()
      ensures IsPath(path) && t in Reach(path).OwnTasks()
      decreases height
    {
      if t in OwnTasks() {
        path := [];
      } else {
        var outs := DepOutputs(|directDeps|);
        assert t in DependencyTasks();
        ConcatMember(outs, t);
        var i :| 0 <= i < |outs| && t in outs[i];
        DepOutputsAt(|directDeps|, i);
        var sub := directDeps[i].TaskOrigin(t);
        path := [i] + sub;
        assert path[0] == i && path[1..] == sub;
        assert IsPath(path);
        assert Reach(path) == directDeps[i].Reach(sub);
      }
    }
  }

  /** A rank at least that of every role in `rs`. */
  ghost function MaxHeight(rs: seq<Role>): (h: nat)
    ensures forall i :: 0 <= i < |rs| ==> rs[i].height <= h
  {
    if |rs| == 0 then 0
    else var h := MaxHeight(rs[1..]); if rs[0].height > h then rs[0].height else h
  }

  /** The decoded role metadata file: its `dependencies` list. */
  datatype RoleMetaInner = RoleMetaInner(dependencies: seq<RoleDefinition>)

  class RoleMeta {
    const metadata: Metadata
    var rng: Range
    var inner: RoleMetaInner

    constructor ()
      ensures rng == Range(0, 0) && inner == RoleMetaInner([]) && fresh(metadata)
    {
      metadata := new Metadata();
      rng := Range(0, 0);
      inner := RoleMetaInner([]);
    }

    /** RoleMeta.updateMetadata: its own range, kind "role-metadata", linked to `parent`. */
    method UpdateMetadata(fsys: FileSystem, parent: Metadata?, path: string)
      modifies metadata
      ensures metadata.Value() == Stamp(path, rng.startLine, rng.endLine, fsys, "role-metadata", parent)
    {
      metadata.Assign(IacRange(path, rng.startLine, rng.endLine, "", fsys), "role-metadata");
      metadata.SetParentPtr(parent);
    }

    /** RoleMeta.dependencies: the decoded list, as decoded. */
    function Dependencies(): seq<RoleDefinition>
      reads this
    {
      inner.dependencies
    }

    /** RoleMeta.UnmarshalYAML: records the range, then returns the structured decode's result. */
    method UnmarshalYAML(node: Node, rangeOf: RangeOf, decode: Decoder<RoleMetaInner>)
      returns (err: Option<DecodeError>)
      modifies this
      ensures rng == rangeOf(node)
      ensures Decoded(inner, err) == decode(old(inner), node)
      ensures Dependencies() == decode(old(inner), node).target.dependencies
    {
      rng := rangeOf(node);
      var d := decode(inner, node);
      inner := d.target;
      err := d.err;
    }
  }
}
