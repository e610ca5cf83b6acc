/**
 * Plays and playbooks: decoding a play, listing and compiling its tasks,
 * stamping provenance on a play and its children, and compiling a whole
 * playbook into one ordered task list.
 */
module Plays {
  import opened Yaml
  import opened IacTypes
  import opened Seqs
  import opened Tasks
  import opened RoleDefinitions
  import opened Roles

  /** The typed fields of a play, as decoded. */
  datatype PlayInner = PlayInner(
    name: string,
    importPlaybook: string,
    hosts: string,
    roleDefinitions: seq<RoleDefinition>,
    preTasks: seq<Task>,
    tasks: seq<Task>,
    postTasks: seq<Task>,
    vars: Variables,
    varFiles: seq<string>)

  /** The zero value of the typed fields. */
  const EmptyInner := PlayInner("", "", "", [], [], [], [], map[], [])

  class Play {
    var inner: PlayInner
    const metadata: Metadata
    var rng: Range
    /** The roles resolved for this play by the role loader. */
    var roles: seq<Role>
    /** The play as an open key/value mapping. */
    var raw: map<string, Node>

    constructor ()
      ensures inner == EmptyInner && rng == Range(0, 0) && roles == [] && raw == map[]
      ensures fresh(metadata)
    {
      inner := EmptyInner;
      metadata := new Metadata();
      rng := Range(0, 0);
      roles := [];
      raw := map[];
    }

    /**
     * Play.UnmarshalYAML: records the range, decodes the node into the raw
     * mapping and, only if that succeeded, into the typed fields.
     */
    method UnmarshalYAML(node: Node, rangeOf: RangeOf, decodeRaw: Decoder<map<string, Node>>,
                         decodeInner: Decoder<PlayInner>)
      returns (err: Option<DecodeError>)
      modifies this
      ensures rng == rangeOf(node)
      ensures raw == decodeRaw(old(raw), node).target
      ensures decodeRaw(old(raw), node).err.Some? ==> err == decodeRaw(old(raw), node).err && inner == old(inner)
      ensures decodeRaw(old(raw), node).err.None? ==> Decoded(inner, err) == decodeInner(old(inner), node)
      ensures decodeRaw(old(raw), node).err.None? ==>
                RoleDefinitions() == decodeInner(old(inner), node).target.roleDefinitions
      ensures roles == old(roles)
    {
      rng := rangeOf(node);
      var r := decodeRaw(raw, node);
      raw := r.target;
      if r.err.Some? {
        return r.err;
      }
      var d := decodeInner(inner, node);
      inner := d.target;
      err := d.err;
    }

    /** Play.listTasks: pre_tasks, then tasks, then post_tasks. */
    function ListTasks(): seq<Task>
      reads this
    {
      inner.preTasks + inner.tasks + inner.postTasks
    }

    /** The listed tasks are the pre_tasks, then the tasks, then the post_tasks, nothing added or dropped. */
    lemma ListTasksOrder()
      ensures |ListTasks()| == |inner.preTasks| + |inner.tasks| + |inner.postTasks|
      ensures ListTasks()[..|inner.preTasks|] == inner.preTasks
      ensures ListTasks()[|inner.preTasks|..|inner.preTasks| + |inner.tasks|] == inner.tasks
      ensures ListTasks()[|inner.preTasks| + |inner.tasks|..] == inner.postTasks
    {
      var pre, mid := inner.preTasks, inner.tasks;
      assert ListTasks() == (pre + mid) + inner.postTasks;
      assert (pre + mid)[..|pre|] == pre;
    }

    /** Play.roleDefinitions: the decoded role references, in order. */
    function RoleDefinitions(): seq<RoleDefinition>
      reads this
    {
      inner.roleDefinitions
    }

    /** The compiled output of the play's own tasks, one list per task. */
    ghost function TaskOutputs(compileTask: TaskCompiler): seq<seq<Task>>
      reads this
    {
      Map(compileTask, ListTasks())
    }

    /** The compiled output of the play's roles, one list per role. */
    ghost function RoleOutputs(compileRole: RoleCompiler): seq<seq<Task>>
      reads this
    {
      Map(compileRole, roles)
    }

    /** What compile returns: every own task's output, then every role's output. */
    ghost function Compiled(compileTask: TaskCompiler, compileRole: RoleCompiler): seq<Task>
      reads this
    {
      Concat(TaskOutputs(compileTask)) + Concat(RoleOutputs(compileRole))
    }

    /** Play.compile. */
    method Compile(compileTask: TaskCompiler, compileRole: RoleCompiler) returns (res: seq<Task>)
      ensures res == Compiled(compileTask, compileRole)
      ensures ListTasks() == [] && roles == [] ==> res == []
    {
      res := [];
      var ts := ListTasks();
      ghost var taskOuts := TaskOutputs(compileTask);
      for i := 0 to |ts|
        invariant res == Concat(taskOuts[..i])
      {
        ConcatStep(taskOuts, i);
        res := res + compileTask(ts[i]);
      }
      assert taskOuts[..|ts|] == taskOuts;
      ghost var roleOuts := RoleOutputs(compileRole);
      for j := 0 to |roles|
        invariant res == Concat(taskOuts) + Concat(roleOuts[..j])
      {
        ConcatStep(roleOuts, j);
        res := res + compileRole(roles[j]);
      }
      assert roleOuts[..|roles|] == roleOuts;
    }

    /** All own-task output comes first, all role output after it. */
    lemma CompiledShape(compileTask: TaskCompiler, compileRole: RoleCompiler)
      ensures Block(Compiled(compileTask, compileRole), Concat(TaskOutputs(compileTask)), 0)
      ensures Block(Compiled(compileTask, compileRole), Concat(RoleOutputs(compileRole)),
                    TotalLength(TaskOutputs(compileTask)))
    {
      var own, fromRoles := Concat(TaskOutputs(compileTask)), Concat(RoleOutputs(compileRole));
      assert (own + fromRoles)[0..|own|] == own;
      assert (own + fromRoles)[|own|..|own| + |fromRoles|] == fromRoles;
    }

    /**
     * The output of own task `i` appears whole, after the outputs of the tasks
     * listed before it, and ends before any role output begins.
     */
    lemma {:induction false} TaskOutputPlacement(compileTask: TaskCompiler, compileRole: RoleCompiler, i: nat)
      requires i < |ListTasks()|
      ensures Block(Compiled(compileTask, compileRole), compileTask(ListTasks()[i]),
                    TotalLength(TaskOutputs(compileTask)[..i]))
      ensures TotalLength(TaskOutputs(compileTask)[..i]) + |compileTask(ListTasks()[i])|
              <= TotalLength(TaskOutputs(compileTask))
    {
      var outs := TaskOutputs(compileTask);
      ConcatBlock(outs, i);
      CompiledShape(compileTask, compileRole);
      NestedBlock(Compiled(compileTask, compileRole), Concat(outs), outs[i], 0, TotalLength(outs[..i]));
    }

    /**
     * The output of role `j` appears whole, after all own-task output and
     * after the outputs of the roles before it.
     */
    lemma {:induction false} RoleOutputPlacement(compileTask: TaskCompiler, compileRole: RoleCompiler, j: nat)
      requires j < |roles|
      ensures Block(Compiled(compileTask, compileRole), compileRole(roles[j]),
                    TotalLength(TaskOutputs(compileTask)) + TotalLength(RoleOutputs(compileRole)[..j]))
    {
      var outs := RoleOutputs(compileRole);
      ConcatBlock(outs, j);
      CompiledShape(compileTask, compileRole);
      NestedBlock(Compiled(compileTask, compileRole), Concat(outs), outs[j],
                  TotalLength(TaskOutputs(compileTask)), TotalLength(outs[..j]));
    }

    /**
     * A task is in the play's output exactly when it is in the output of one
     * of the play's own tasks or of one of its roles.
     */
    lemma {:induction false} CompiledMember(compileTask: TaskCompiler, compileRole: RoleCompiler, u: Task)
      ensures u in Compiled(compileTask, compileRole) <==>
              (exists i :: 0 <= i < |ListTasks()| && u in compileTask(ListTasks()[i]))
              || (exists j :: 0 <= j < |roles| && u in compileRole(roles[j]))
    {
      var taskOuts, roleOuts := TaskOutputs(compileTask), RoleOutputs(compileRole);
      ConcatMember(taskOuts, u);
      ConcatMember(roleOuts, u);
      if exists i :: 0 <= i < |taskOuts| && u in taskOuts[i] {
        var i :| 0 <= i < |taskOuts| && u in taskOuts[i];
        assert u in compileTask(ListTasks()[i]);
      }
      if exists j :: 0 <= j < |roleOuts| && u in roleOuts[j] {
        var j :| 0 <= j < |roleOuts| && u in roleOuts[j];
        assert u in compileRole(roles[j]);
      }
      if exists i :: 0 <= i < |ListTasks()| && u in compileTask(ListTasks()[i]) {
        var i :| 0 <= i < |ListTasks()| && u in compileTask(ListTasks()[i]);
        assert u in taskOuts[i];
      }
      if exists j :: 0 <= j < |roles| && u in compileRole(roles[j]) {
        var j :| 0 <= j < |roles| && u in compileRole(roles[j]);
        assert u in roleOuts[j];
      }
    }

    /**
     * Distinct nodes own distinct records: the play's, each role
     * reference's and each task's record is embedded in its node.
     */
    ghost predicate CellsSeparate()
      reads this
    {
      var rdCells, taskCells := RecordSet(inner.roleDefinitions, DefinitionRecord), RecordSet(ListTasks(), TaskRecord);
      metadata !in rdCells && metadata !in taskCells && rdCells !! taskCells
      && DistinctRecords(inner.roleDefinitions, DefinitionRecord) && DistinctRecords(ListTasks(), TaskRecord)
    }

    /**
     * Play.updateMetadata: stamps the play's record with its range and kind
     * "play", links it to `parent`, then has every role reference and every
     * listed task stamp its own record, linked to the play's record.
     */
    method UpdateMetadata(fsys: FileSystem, parent: Metadata?, path: string, stampTask: TaskStamp)
      requires CellsSeparate()
      modifies metadata, RecordSet(inner.roleDefinitions, DefinitionRecord), RecordSet(ListTasks(), TaskRecord)
      ensures metadata.Value() == Stamp(path, rng.startLine, rng.endLine, fsys, "play", parent)
      ensures forall i :: 0 <= i < |inner.roleDefinitions| ==>
                inner.roleDefinitions[i].metadata.Value()
                == Stamp(path, inner.roleDefinitions[i].rng.startLine, inner.roleDefinitions[i].rng.endLine, fsys, "", metadata)
      ensures forall i :: 0 <= i < |ListTasks()| ==>
                ListTasks()[i].metadata.Value() == StampValue(stampTask, ListTasks()[i], fsys, path, metadata)
      ensures Snapshot() == Stamped(fsys, parent, path, stampTask)
      ensures unchanged(inner.roleDefinitions)
    {
      metadata.Assign(IacRange(path, rng.startLine, rng.endLine, "", fsys), "play");
      metadata.SetParentPtr(parent);
      var rds, ts := inner.roleDefinitions, ListTasks();
      StampRoleDefinitions(rds, fsys, metadata, path);
      StampTasks(ts, fsys, metadata, path, stampTask);
      forall k | 0 <= k < |rds|
        ensures rds[k].metadata.Value() == Stamp(path, rds[k].rng.startLine, rds[k].rng.endLine, fsys, "", metadata)
      {
        assert rds[k].metadata !in RecordSet(ts, TaskRecord);
      }
      SnapshotStamped(fsys, parent, path, stampTask);
    }

    /** The contents of the play's record, its role references' and its tasks'. */
    ghost function Snapshot(): (MetadataValue, seq<MetadataValue>, seq<MetadataValue>)
      reads this, metadata, Map(DefinitionRecord, inner.roleDefinitions), Map(TaskRecord, ListTasks())
    {
      (metadata.Value(), Values(Map(DefinitionRecord, inner.roleDefinitions)), Values(Map(TaskRecord, ListTasks())))
    }

    /**
     * What updateMetadata leaves in those records: it depends only on the
     * arguments and on the play's own fields, not on what the records held.
     */
    ghost function Stamped(fsys: FileSystem, parent: Metadata?, path: string, stampTask: TaskStamp)
      : (MetadataValue, seq<MetadataValue>, seq<MetadataValue>)
      reads this, inner.roleDefinitions
    {
      (Stamp(path, rng.startLine, rng.endLine, fsys, "play", parent),
       DefinitionStamps(inner.roleDefinitions, fsys, metadata, path),
       Map(t => StampValue(stampTask, t, fsys, path, metadata), ListTasks()))
    }

    /** Records stamped one by one, as updateMetadata does, make up the stamped snapshot. */
    lemma SnapshotStamped(fsys: FileSystem, parent: Metadata?, path: string, stampTask: TaskStamp)
      requires metadata.Value() == Stamp(path, rng.startLine, rng.endLine, fsys, "play", parent)
      requires forall i :: 0 <= i < |inner.roleDefinitions| ==>
                 inner.roleDefinitions[i].metadata.Value()
                 == Stamp(path, inner.roleDefinitions[i].rng.startLine, inner.roleDefinitions[i].rng.endLine, fsys, "", metadata)
      requires forall i :: 0 <= i < |ListTasks()| ==>
                 ListTasks()[i].metadata.Value() == StampValue(stampTask, ListTasks()[i], fsys, path, metadata)
      ensures Snapshot() == Stamped(fsys, parent, path, stampTask)
    {
      var now, want := Snapshot(), Stamped(fsys, parent, path, stampTask);
      var rds, ts := inner.roleDefinitions, ListTasks();
      assert |now.1| == |want.1| == |rds| && |now.2| == |want.2| == |ts|;
      forall k | 0 <= k < |rds|
        ensures now.1[k] == want.1[k]
      {
        MapAt(DefinitionRecord, rds, k);
        assert now.1[k] == rds[k].metadata.Value();
      }
      forall k | 0 <= k < |ts|
        ensures now.2[k] == want.2[k]
      {
        MapAt(TaskRecord, ts, k);
        assert now.2[k] == ts[k].metadata.Value();
      }
      assert now.0 == want.0 && now.1 == want.1 && now.2 == want.2;
    }
  }

  /** Stamping a play twice with the same arguments leaves what stamping it once left. */
  method UpdateMetadataTwice(play: Play, fsys: FileSystem, parent: Metadata?, path: string, stampTask: TaskStamp)
    returns (ghost once: (MetadataValue, seq<MetadataValue>, seq<MetadataValue>))
    requires play.CellsSeparate()
    modifies play.metadata, RecordSet(play.inner.roleDefinitions, DefinitionRecord), RecordSet(play.ListTasks(), TaskRecord)
    ensures play.Snapshot() == once
  {
    play.UpdateMetadata(fsys, parent, path, stampTask);
    once := play.Snapshot();
    play.UpdateMetadata(fsys, parent, path, stampTask);
  }

  /** The first loop of Play.updateMetadata: each role reference stamps its record, linked to `parent`. */
  method StampRoleDefinitions(rds: seq<RoleDefinition>, fsys: FileSystem, parent: Metadata?, path: string)
    requires DistinctRecords(rds, DefinitionRecord)
    modifies RecordSet(rds, DefinitionRecord)
    ensures forall k :: 0 <= k < |rds| ==>
              rds[k].metadata.Value() == Stamp(path, rds[k].rng.startLine, rds[k].rng.endLine, fsys, "", parent)
  {
    for i := 0 to |rds|
      invariant forall k :: 0 <= k < i ==>
                  rds[k].metadata.Value() == Stamp(path, rds[k].rng.startLine, rds[k].rng.endLine, fsys, "", parent)
    {
      label before:
      rds[i].UpdateMetadata(fsys, parent, path);
      forall k | 0 <= k < i
        ensures rds[k].metadata.Value() == Stamp(path, rds[k].rng.startLine, rds[k].rng.endLine, fsys, "", parent)
      {
        if rds[k].metadata == rds[i].metadata {
          assert rds[k] == rds[i];
        } else {
          assert rds[k].metadata.Value() == old@before(rds[k].metadata.Value());
        }
      }
    }
  }

  /** The second loop of Play.updateMetadata: each listed task stamps its record, linked to `parent`. */
  method StampTasks(ts: seq<Task>, fsys: FileSystem, parent: Metadata?, path: string, stampTask: TaskStamp)
    requires DistinctRecords(ts, TaskRecord)
    modifies RecordSet(ts, TaskRecord)
    ensures forall k :: 0 <= k < |ts| ==> ts[k].metadata.Value() == StampValue(stampTask, ts[k], fsys, path, parent)
  {
    for i := 0 to |ts|
      invariant forall k :: 0 <= k < i ==> ts[k].metadata.Value() == StampValue(stampTask, ts[k], fsys, path, parent)
    {
      label before:
      ts[i].UpdateMetadata(fsys, parent, path, stampTask);
      forall k | 0 <= k < i
        ensures ts[k].metadata.Value() == StampValue(stampTask, ts[k], fsys, path, parent)
      {
        if ts[k].metadata == ts[i].metadata {
          assert ts[k] == ts[i];
        } else {
          assert ts[k].metadata.Value() == old@before(ts[k].metadata.Value());
        }
      }
    }
  }

  /** The compiled output of each play, in order. */
  ghost function Outputs(plays: seq<Play>, compileTask: TaskCompiler, compileRole: RoleCompiler): seq<seq<Task>>
    reads plays
  {
    seq(|plays|, k reads plays requires 0 <= k < |plays| => plays[k].Compiled(compileTask, compileRole))
  }

  /** For each play, the lengths of its own tasks' outputs and of its roles' outputs, summed over the plays. */
  ghost function PlaybookSize(plays: seq<Play>, compileTask: TaskCompiler, compileRole: RoleCompiler): nat
    reads plays
  {
    if |plays| == 0 then 0
    else
      var last := plays[|plays| - 1];
      PlaybookSize(plays[..|plays| - 1], compileTask, compileRole)
      + TotalLength(last.TaskOutputs(compileTask)) + TotalLength(last.RoleOutputs(compileRole))
  }

  /** A playbook: its plays in document order. */
  datatype Playbook = Playbook(plays: seq<Play>) {

    /** Playbook.Compile. */
    method Compile(compileTask: TaskCompiler, compileRole: RoleCompiler) returns (res: seq<Task>)
      ensures res == Concat(Outputs(plays, compileTask, compileRole))
      ensures plays == [] ==> res == []
    {
      res := [];
      ghost var outs := Outputs(plays, compileTask, compileRole);
      for i := 0 to |plays|
        invariant res == Concat(outs[..i])
      {
        var out := plays[i].Compile(compileTask, compileRole);
        ConcatStep(outs, i);
        res := res + out;
      }
      assert outs[..|plays|] == outs;
    }
  }

  /** The playbook's output is as long as all its plays' task and role outputs together. */
  lemma {:induction false} PlaybookLength(plays: seq<Play>, compileTask: TaskCompiler, compileRole: RoleCompiler)
    ensures |Concat(Outputs(plays, compileTask, compileRole))| == PlaybookSize(plays, compileTask, compileRole)
    decreases |plays|
  {
    if |plays| > 0 {
      var init, last := plays[..|plays| - 1], plays[|plays| - 1];
      PlaybookLength(init, compileTask, compileRole);
      var outs := Outputs(plays, compileTask, compileRole);
      assert outs[..|outs| - 1] == Outputs(init, compileTask, compileRole);
      assert |outs[|outs| - 1]| == TotalLength(last.TaskOutputs(compileTask)) + TotalLength(last.RoleOutputs(compileRole));
    }
  }

  /** Each play's output appears whole in the playbook's output, after the outputs of the plays before it. */
  lemma {:induction false} PlayPlacement(plays: seq<Play>, compileTask: TaskCompiler, compileRole: RoleCompiler, i: nat)
    requires i < |plays|
    ensures Block(Concat(Outputs(plays, compileTask, compileRole)), plays[i].Compiled(compileTask, compileRole),
                  TotalLength(Outputs(plays, compileTask, compileRole)[..i]))
  {
    ConcatBlock(Outputs(plays, compileTask, compileRole), i);
  }
}
