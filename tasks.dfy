/**
 * Tasks, the units the flattening produces. A task's fields, its own
 * compilation (includes and imports) and its own metadata rules are defined
 * in task.go, which is not part of this model; here a task is an identity
 * that owns one metadata record.
 */
module Tasks {
  import opened IacTypes

  /** Task.compile: a task's own expansion into tasks. */
  type TaskCompiler = Task -> seq<Task>

  /** The range and kind label task.go builds for a task's record. */
  type TaskStamp = (Task, FileSystem, string) -> (IacRange, string)

  /** The record Task.updateMetadata leaves: the task's own range and kind, linked to `parent`. */
  function StampValue(stamp: TaskStamp, t: Task, fsys: FileSystem, path: string, parent: Metadata?): MetadataValue
  {
    MetadataValue(stamp(t, fsys, path).0, stamp(t, fsys, path).1, parent)
  }

  class Task {
    const metadata: Metadata

    constructor ()
      ensures fresh(metadata)
    {
      metadata := new Metadata();
    }

    /**
     * Task.updateMetadata as the play pass relies on it: the task builds its
     * record by its own rules (`stamp`) and links it to `parent`.
     */
    method UpdateMetadata(fsys: FileSystem, parent: Metadata?, path: string, stamp: TaskStamp)
      modifies metadata
      ensures metadata.Value() == StampValue(stamp, this, fsys, path, parent)
    {
      var (r, kind) := stamp(this, fsys, path);
      metadata.Assign(r, kind);
      metadata.SetParentPtr(parent);
    }
  }

  /** The record a task embeds. */
  function TaskRecord(t: Task): Metadata
  {
    t.metadata
  }
}
