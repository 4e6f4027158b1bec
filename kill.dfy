/**
 * `KillHandler`: the `kill` use case. It asks the shared resolver which
 * environment to act on and tears that one down; the registry is left as
 * it is.
 */
module KillUsecase {
  import opened Wrappers
  import opened Repo
  import Sqlite
  import Docker
  import Usecase

  class KillHandler {
    const runtime: Docker.DockerRuntime
    const store: Sqlite.Store

    constructor (runtime: Docker.DockerRuntime, store: Sqlite.Store)
      ensures this.runtime == runtime && this.store == store
    {
      this.runtime := runtime;
      this.store := store;
    }

    /**
     * `handle`: when the resolver selects an environment, kill it once (the
     * outcome of the teardown is not looked at); otherwise do nothing.
     */
    method Handle(currentPath: string, specifier: Option<EnvSpecifier>, w: Docker.TeardownWorld)
      modifies runtime
      ensures var target := Usecase.SpecifyEnvToOperate(store.rows, currentPath, specifier);
        if target.None? then
          runtime.executed == old(runtime.executed) && runtime.dirs == old(runtime.dirs)
        else
          var dir := Docker.ConfigDir(target.value.spec.uuid);
          var run := Docker.TeardownRun(w, dir in old(runtime.dirs));
          && runtime.executed == old(runtime.executed) + Docker.TeardownPlan(target.value, dir)[..run.steps]
          && runtime.dirs == if run.result.Ok? then old(runtime.dirs) - {dir} else old(runtime.dirs)
    {
      var envRecord := Usecase.SpecifyEnvToOperate(store.rows, currentPath, specifier);
      if envRecord.Some? {
        var _ := runtime.Kill(envRecord.value, w);
      }
    }
  }

  /** A kill starts with `docker kill` on the resolved record's container, and only a resolved record is killed. */
  lemma KillTargetsResolvedContainer(rows: seq<Sqlite.Row>, currentPath: string, specifier: Option<EnvSpecifier>, w: Docker.TeardownWorld, dirExists: bool)
    requires Usecase.SpecifyEnvToOperate(rows, currentPath, specifier).Some?
    ensures var target := Usecase.SpecifyEnvToOperate(rows, currentPath, specifier).value;
      var ran := Docker.TeardownPlan(target, Docker.ConfigDir(target.spec.uuid))[..Docker.TeardownRun(w, dirExists).steps];
      && 1 <= |ran| <= 3
      && ran[0] == Docker.DockerKill(target.containerInfo.containerId.id)
      && (exists k :: 0 <= k < |rows| && Sqlite.FromRow(rows[k]) == Ok(target))
  {
    var target := Usecase.SpecifyEnvToOperate(rows, currentPath, specifier).value;
    Docker.TeardownOrder(target, Docker.ConfigDir(target.spec.uuid), w, dirExists);
    Usecase.SelectedIsStored(rows, currentPath, specifier);
  }
}
