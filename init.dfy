/**
 * `InitHandler`: the `init` use case. It builds the environment's spec
 * from the project directory and a fresh identifier, provisions the
 * environment, and registers it.
 */
module InitUsecase {
  import opened Wrappers
  import opened Repo
  import Uuids
  import Util
  import Sqlite
  import Docker

  /** The spec `init` builds: the given identifier and path, named after the path's last component. */
  function InitSpec(projectPath: string, id: Uuids.Uuid): (spec: EnvSpec)
    requires Util.FileName(projectPath).Some?
    ensures spec.uuid == id && spec.projectPath == projectPath
    ensures Some(spec.projectName) == Util.FileName(projectPath)
  {
    EnvSpec(id, projectPath, Util.GetEntryName(projectPath))
  }

  /**
   * Registering an environment never looks at the path: a project that is
   * already registered gets one more row for its path.
   */
  lemma {:induction false} NoPathUniquenessCheck(rows: seq<Sqlite.Row>, record: EnvRecord)
    ensures var f := Sqlite.PathIs(record.spec.projectPath);
      |Sqlite.Where(rows + [Sqlite.RowOf(record)], f)| == |Sqlite.Where(rows, f)| + 1
  {
    Sqlite.WhereAppend(rows, Sqlite.RowOf(record), Sqlite.PathIs(record.spec.projectPath));
  }

  class InitHandler {
    const runtime: Docker.DockerRuntime
    const store: Sqlite.Store

    constructor (runtime: Docker.DockerRuntime, store: Sqlite.Store)
      ensures this.runtime == runtime && this.store == store
    {
      this.runtime := runtime;
      this.store := store;
    }

    /**
     * `handle`: provision first, then insert the record built from the spec
     * and the container provisioning reports. A failed provisioning
     * registers nothing; the outcome of the insert is not looked at.
     */
    method Handle(projectPath: string, id: Uuids.Uuid, shared: SharedResources, w: Docker.ProvisionWorld)
      requires store.Valid()
      requires Util.FileName(projectPath).Some?
      modifies runtime, store
      ensures store.Valid()
      ensures var spec := InitSpec(projectPath, id);
        var run := Docker.ProvisionRun(shared, spec, w);
        && runtime.executed == old(runtime.executed) + Docker.ProvisionPlan(shared, spec, Docker.PlannedDoc(spec, w))[..run.steps]
        && runtime.dirs == (if w.staleRemovalFault then old(runtime.dirs)
                            else if w.createDir.Fails? then old(runtime.dirs) - {Docker.ConfigDir(id)}
                            else old(runtime.dirs) + {Docker.ConfigDir(id)})
        && store.rows == if run.result.Ok? && Sqlite.Where(old(store.rows), Sqlite.UuidIs(Uuids.ToString(id))) == []
                         then old(store.rows) + [Sqlite.RowOf(EnvRecord(spec, run.result.value))]
                         else old(store.rows)
    {
      var projectName := Util.GetEntryName(projectPath);
      var envSpec := EnvSpec(id, projectPath, projectName);
      var containerInfo := runtime.ProvisionAndStart(shared, envSpec, w);
      if containerInfo.Ok? {
        var envRecord := EnvRecord(envSpec, containerInfo.value);
        var _ := store.Insert(envRecord);
      }
    }
  }
}
