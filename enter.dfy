/**
 * `EnterHandler`: the `enter` use case. Its handler repeats the resolver's
 * policy inline, calling the store itself, and attaches to the environment
 * it settles on.
 */
module EnterUsecase {
  import opened Wrappers
  import opened Repo
  import Util
  import Sqlite
  import Docker
  import Usecase

  /** The runtime operations an `enter` of the resolved environment performs: one attach, or none. */
  function EnterEffects(target: Option<EnvRecord>): (effects: seq<Docker.Effect>)
    ensures |effects| <= 1
    ensures target.None? <==> effects == []
    ensures target.Some? ==> effects == [Docker.Attach(target.value)]
  {
    if target.Some? then [Docker.Attach(target.value)] else []
  }

  class EnterHandler {
    const runtime: Docker.DockerRuntime
    const store: Sqlite.Store

    constructor (runtime: Docker.DockerRuntime, store: Sqlite.Store)
      ensures this.runtime == runtime && this.store == store
    {
      this.runtime := runtime;
      this.store := store;
    }

    /**
     * `handler`: with a specifier, enter its only match; without one, enter
     * the only environment, or else the current directory's. Every failure
     * logs and returns without touching the runtime.
     */
    method Handler(currentPath: string, specifier: Option<EnvSpecifier>)
      modifies runtime
      ensures runtime.executed
        == old(runtime.executed) + EnterEffects(Usecase.SpecifyEnvToOperate(store.rows, currentPath, specifier))
      ensures runtime.dirs == old(runtime.dirs)
      ensures |runtime.executed| <= |old(runtime.executed)| + 1
    {
      if specifier.Some? {
        var records := store.Find(specifier.value);
        if records.Err? {
          return;
        }
        if records.value == [] {
          return;
        }
        if |records.value| == 1 {
          var record := records.value[0];
          runtime.Enter(record);
          return;
        }
        return;
      }

      var envRecords := store.List();
      if envRecords.Err? {
        return;
      }
      if envRecords.value == [] {
        return;
      }
      if |envRecords.value| == 1 {
        var record := envRecords.value[0];
        runtime.Enter(record);
        return;
      }

      var found := store.FindByPath(currentPath);
      if found.Err? {
        return;
      }
      var envRecord := Util.FirstOf(found.value);
      if envRecord.Some? {
        runtime.Enter(envRecord.value);
        return;
      }
    }
  }
}
