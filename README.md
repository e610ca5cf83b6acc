# Ansible playbook flattening (Trivy IaC parser)

This project models the core of the parser that Trivy's Ansible scanner uses to
turn a playbook into one ordered list of tasks, and it proves properties of that
model in Dafny.

- A playbook is a list of plays.
- A play names roles and lists `pre_tasks`, `tasks` and `post_tasks`.
- A role owns task lists, one per tasks file, and depends on other roles.

Compiling a playbook does three things in order:

1. It concatenates the plays' outputs.
2. For each play, it emits its own tasks' expansions first, then its roles' expansions.
3. Each role emits its dependencies' tasks, depth first, then its own tasks from the selected tasks file.

Separately, every node carries a metadata record: a source range, a kind label
and a link to its parent's record. An `updateMetadata` pass fills these records
in top-down.

A role reference in YAML is either a bare name or a mapping with `role` and
`vars`. Its decoder chooses between the two by the node's kind.

Modules, one per concern:

- `Yaml`: the YAML node, decode results and the decoder and range-extractor function types.
- `IacTypes`: a metadata record is a `Metadata` object that nodes embed. `updateMetadata` overwrites it in place. Parent links point at other nodes' records.
- `Seqs`: flattening (`Concat`), `Map`, and blocks inside sequences.
- `Tasks`: a task as an identity that owns a record.
- `RoleDefinitions`: role references.
- `Roles`: `Role` and `RoleMeta`.
- `Plays`: `Play` and `Playbook`.

Loops in the source are methods with loop invariants. Each is proved equal to a
ghost specification function (`AllTasks`, `Compiled`, `Concat(Outputs(..))`).
What the source promises is then proved about those functions as lemmas.

Several collaborators are passed in as function values:

- `node.Decode` (yaml.v3)
- `rangeFromNode`
- `Task.compile`
- `Role.compile`
- the range and kind that `Task.updateMetadata` computes

The YAML decoder receives the old target. yaml.v3 merges into existing values
and can leave a target partly written when it fails, so the model keeps
whatever the decoder returns, even on error.

Role dependencies are assumed acyclic. Each role carries a ghost rank `height`,
and the predicate `Ranked()` states that every direct dependency has a smaller
rank. The source does not check for cycles.

Stamping a play writes the records of its role references and of its tasks. The
model requires `CellsSeparate()` for this: distinct nodes own distinct records,
and the play's own record is not among them. In Go this holds because each
record is a field embedded in its own node.

## Model

| member | source | states |
|---|---|---|
| Plays.Playbook.Compile | pkg/iac/scanners/ansible/parser/play.go:13-19 | the result is the concatenation, in playbook order, of every play's compiled output; an empty playbook gives an empty list |
| Plays.PlaybookLength | pkg/iac/scanners/ansible/parser/play.go:13-19 | the playbook's output is exactly as long as all plays' own-task outputs and role outputs together |
| Plays.PlayPlacement | pkg/iac/scanners/ansible/parser/play.go:13-19 | each play's output appears whole and contiguous in the playbook's output, right after the outputs of the plays before it |
| Plays.Play.UnmarshalYAML | pkg/iac/scanners/ansible/parser/play.go:43-50 | the range is recorded from the node whatever happens; the raw mapping takes the raw decode's result; if that decode fails its error is returned and the typed fields are left as they were; otherwise the typed fields and the error are exactly the typed decode's, so roleDefinitions() is the decoded `roles` list in order; the resolved roles are untouched |
| Plays.Play.Compile | pkg/iac/scanners/ansible/parser/play.go:55-69 | the result is every listed task's expansion in listing order, followed by every role's expansion in role order; a play with no tasks and no roles compiles to an empty list |
| Plays.Play.CompiledShape | pkg/iac/scanners/ansible/parser/play.go:55-69 | all own-task output forms the prefix of the play's output and all role output the rest, so every own-task output precedes every role output |
| Plays.Play.TaskOutputPlacement | pkg/iac/scanners/ansible/parser/play.go:60-62 | the expansion of listed task i appears whole, right after the expansions of the tasks before it, and ends before any role output begins |
| Plays.Play.RoleOutputPlacement | pkg/iac/scanners/ansible/parser/play.go:64-66 | the expansion of role j appears whole, after all own-task output and the expansions of the roles before it |
| Plays.Play.CompiledMember | pkg/iac/scanners/ansible/parser/play.go:55-69 | a task is in the play's output if and only if it is in the expansion of one of the listed tasks or of one of the play's roles |
| Plays.Play.ListTasksOrder | pkg/iac/scanners/ansible/parser/play.go:91-97 | the listed tasks are the pre_tasks, then the tasks, then the post_tasks, each list whole and in order, and their count is the sum of the three counts |
| Plays.Play.RoleDefinitions | pkg/iac/scanners/ansible/parser/play.go:71-73 | returns the decoded role references; the UnmarshalYAML contract fixes them as the typed decode's `roles` list, whole and in order, after a successful raw decode |
| Plays.Play.UpdateMetadata | pkg/iac/scanners/ansible/parser/play.go:75-89 | the play's record gets the play's lines, the path, the file system and kind "play", linked to the given parent; every role reference's record gets its own lines and kind "", linked to the play's record; every listed task's record is its own stamp, linked to the play's record; the whole result depends only on the arguments and on fields the pass does not change, and the role references themselves are unchanged |
| Plays.Play.SnapshotStamped | pkg/iac/scanners/ansible/parser/play.go:75-89 | records stamped one by one as the pass does make up exactly the snapshot that `Stamped` describes |
| Plays.UpdateMetadataTwice | pkg/iac/scanners/ansible/parser/play.go:75-89 | running the pass a second time with the same arguments leaves every record the play owns or stamps as the first run left it |
| Plays.StampRoleDefinitions | pkg/iac/scanners/ansible/parser/play.go:82-84 | after the loop every role reference's record carries its own lines and kind "", linked to the given parent; no reference's stamp disturbs an earlier one's |
| Plays.StampTasks | pkg/iac/scanners/ansible/parser/play.go:86-88 | after the loop every listed task's record carries that task's stamp, linked to the given parent; no task's stamp disturbs an earlier one's |
| Tasks.Task.UpdateMetadata | pkg/iac/scanners/ansible/parser/play.go:86-88 | the behaviour the play pass relies on: a task's record gets the range and kind the task's own rules give it, linked to the given parent |
| IacTypes.Metadata.Assign | pkg/iac/scanners/ansible/parser/play.go:76-79 | a record assigned a fresh value holds that range and kind and no parent |
| IacTypes.Metadata.SetParentPtr | pkg/iac/scanners/ansible/parser/play.go:80 | setting the parent changes only the parent link |
| RoleDefinitions.RoleDefinition.UnmarshalYAML | pkg/iac/scanners/ansible/parser/play.go:111-121 | the range is recorded first whatever the node's kind; a scalar node always succeeds, sets the name to the scalar's text and leaves the vars as they were; any other node's result is exactly the structured decode's; so name() is the scalar text for a bare reference and the decoded `role` value otherwise |
| RoleDefinitions.RoleDefinition.Name | pkg/iac/scanners/ansible/parser/play.go:131-133 | returns the decoded name; what that name is comes from the UnmarshalYAML contract: the scalar's text for a bare reference, otherwise the structured decode's `role` value |
| RoleDefinitions.RoleDefinition.UpdateMetadata | pkg/iac/scanners/ansible/parser/play.go:123-129 | the record gets the reference's own lines, the path, the file system and an empty kind, linked to the given parent |
| Roles.Role.UpdateMetadata | pkg/iac/scanners/ansible/parser/role.go:27-33 | the record gets the zero range (lines 0 to 0), the path, the file system and kind "role", linked to the given parent; nothing else in the role changes |
| Roles.Role.GetTasks | pkg/iac/scanners/ansible/parser/role.go:35-45 | the result is every direct dependency's tasks in declared order, each computed the same way, followed by the tasks of the selected tasks file; the role is not changed |
| Roles.Role.AllTasksShape | pkg/iac/scanners/ansible/parser/role.go:35-45 | the dependencies' tasks open the list and the own tasks close it; the length is the dependencies' lengths plus the own tasks'; with no dependencies only the own tasks remain; a tasks file missing from the map contributes nothing, so only the dependencies' tasks remain |
| Roles.Role.DependencyPlacement | pkg/iac/scanners/ansible/parser/role.go:38-40 | dependency i's tasks appear whole among the dependencies' tasks, right after those of the dependencies declared before it |
| Roles.Role.DescendantPlacement | pkg/iac/scanners/ansible/parser/role.go:35-45 | at any depth, the tasks of a role reached through dependencies appear whole among this role's dependency tasks, so before this role's own tasks |
| Roles.Role.TaskReached | pkg/iac/scanners/ansible/parser/role.go:35-45 | every own task of every role reachable through dependencies is in this role's task list |
| Roles.Role.TaskOrigin | pkg/iac/scanners/ansible/parser/role.go:35-45 | every task in this role's list is an own task of some role reachable through dependencies (with TaskReached, the list holds exactly the reachable roles' own tasks) |
| Roles.Role.DepOutputsPrefix | pkg/iac/scanners/ansible/parser/role.go:38-40 | the outputs collected for the first i dependencies are a prefix of those collected for more |
| Roles.Role.DepOutputsAt | pkg/iac/scanners/ansible/parser/role.go:38-40 | the k-th collected output is dependency k's task list |
| Roles.RoleMeta.UpdateMetadata | pkg/iac/scanners/ansible/parser/role.go:53-59 | the record gets the metadata file's lines, the path, the file system and kind "role-metadata", linked to the given parent |
| Roles.RoleMeta.Dependencies | pkg/iac/scanners/ansible/parser/role.go:61-63 | returns the decoded dependency list; the UnmarshalYAML contract fixes it as the structured decode's `dependencies` list, whole and in order |
| Roles.RoleMeta.UnmarshalYAML | pkg/iac/scanners/ansible/parser/role.go:69-72 | the range is recorded, then the decoded fields and the error are exactly the structured decode's, so dependencies() is the decoded `dependencies` list, whole and in order |
| IacTypes.RecordSetSize | pkg/iac/scanners/ansible/parser/play.go:82-88 | the records a stamping loop over a list of nodes may write are no more than the nodes in the list, however the nodes share records |
| Seqs.ConcatBlock | pkg/iac/scanners/ansible/parser/play.go:15-17 | flattening keeps every list whole, placed right after the lists before it |
| Seqs.ConcatMember | pkg/iac/scanners/ansible/parser/play.go:15-17 | an element is in a flattened list if and only if it is in one of the lists |
| Seqs.ConcatAppend | pkg/iac/scanners/ansible/parser/play.go:15-17 | flattening two lists of lists joined is joining their flattenings |

## Left out

- YAML internals are not modelled: yaml.v3's `node.Decode` and `rangeFromNode` are parameters. The model does not know how list entries reach their own decoders inside an opaque decode: a play's `roles` entries reaching `RoleDefinition.UnmarshalYAML` in the play's typed decode, a role metadata file's `dependencies` entries (role.go:66) reaching it in the `RoleMeta` structured decode, and the entries of a play's `pre_tasks`, `tasks` and `post_tasks` reaching the task decoder. The same holds for what goes into the raw map.
- `Task.compile`, `Role.compile` and the range and kind that `Task.updateMetadata` computes are defined in task.go and elsewhere; task.go is not part of this model. They are function parameters. The model assumes three things of a task's update (`Tasks.Task.UpdateMetadata`): it writes only the task's own record, so not the record of any task nested in a block; the range and kind it writes depend only on the task, the file system and the path; and it links the record to the given parent.
- The `Role.play` back-pointer is not modelled; the core never reads it.
- Role loading is not modelled: how `Play.roles` and `Role.directDeps` are filled from the file system, and the `LoadRoleOptions` fields other than the tasks file name. A role's fields are fixed once it is built.
- Cyclic role dependencies are excluded by a ghost rank (`Roles.Role.Ranked`). The source would recurse without end on a cycle.
- Roles.Role.GetTasks: requires `Ranked()`, an acyclicity assumption the source does not check.
- Plays.Play.UpdateMetadata: requires `CellsSeparate()`, that the records of distinct nodes are distinct. Go guarantees this because each record is embedded in its own node; the model makes it explicit because its records are separate objects.
- Nil list entries are not modelled: every play in a playbook, every role reference and every task in a play is a non-null object. yaml.v3 decodes a null list item (a null play, `roles: [~]`, a bare `-` under `tasks`) to a nil pointer without calling `UnmarshalYAML`; the source then panics, in `updateMetadata` on a nil role reference or task (play.go:83, play.go:87) and in `compile`/`listTasks` on a nil play (play.go:16). The model covers only playbooks without null entries.
- `import_playbook` / `include_playbook` expansion is not modelled; the source marks it as unimplemented.
- The other fields of `iacTypes.Metadata` (references, defaults, managed flags) and the internals of `NewRange` / `NewMetadata` are not modelled. A record is its range, kind and parent link; the file system is an opaque value.
- `Variables`, `vars`, `var_files`, `hosts`, the play's name and the `raw` map's contents are carried without interpretation.
