/**
 * The container runtime backed by the `docker` command: the compose
 * document the provisioning step rewrites, the extraction of the container
 * id from `docker compose ps -q`, and the two step sequences that provision
 * and tear down an environment. External effects are recorded in order in
 * `executed`; the outcome of each one comes from a world oracle.
 */
module Docker {
  import opened Wrappers
  import Text
  import Uuids
  import opened Repo

  const DOCKERFILE_NAME: string := "dockerfile"
  const COMPOSE_NAME: string := "compose.yml"

  /** The guest path the project is mounted at, and the mount mode. */
  const WORKSPACE_SUFFIX: string := ":/root/workspace:rw"

  /** A YAML value that the core carries along without looking inside. */
  datatype Value =
    | Null
    | Bool(b: bool)
    | Number(text: string)
    | Str(s: string)
    | Sequence(items: seq<Value>)
    | Mapping(entries: seq<(Value, Value)>)
    | Tagged(tag: string, inner: Value)

  /** One service of a compose document: its volumes and every other key, in document order. */
  datatype Service = Service(volumes: Option<seq<Value>>, other: seq<(string, Value)>)

  /** A compose document: its optional version, its services and every other top-level key, in document order. */
  datatype Compose = Compose(version: Option<string>, services: seq<(string, Service)>, other: seq<(string, Value)>)

  /** The per-environment configuration directory, `/tmp/pwnenv-<uuid>/`. */
  function ConfigDir(uuid: Uuids.Uuid): (dir: string)
    ensures |dir| == 49 && dir[..12] == "/tmp/pwnenv-" && dir[48] == '/'
  {
    "/tmp/pwnenv-" + Uuids.ToString(uuid) + "/"
  }

  /** The volume entry that binds a project into the container's workspace. */
  function VolumeBinding(projectPath: string): string
  {
    projectPath + WORKSPACE_SUFFIX
  }

  /** Distinct projects get distinct volume entries: the project path can be read back from the entry. */
  lemma VolumeBindingInjective(p: string, q: string)
    ensures VolumeBinding(p) == VolumeBinding(q) ==> p == q
  {
    if VolumeBinding(p) == VolumeBinding(q) {
      assert |p| == |q|;
      assert p == VolumeBinding(p)[..|p|];
      assert q == VolumeBinding(q)[..|q|];
    }
  }

  /**
   * Validate that the document declares exactly one service and replace that
   * service's volumes by the single workspace binding.
   */
  function RewriteVolumes(compose: Compose, projectPath: string): (r: Result<Compose, Error>)
    ensures r.Err? <==> |compose.services| != 1
    ensures r.Err? ==> r.error == InvalidComposeConfig("services count must be exactly one")
    ensures r.Ok? ==>
      && r.value.version == compose.version
      && r.value.other == compose.other
      && |r.value.services| == 1
      && r.value.services[0].0 == compose.services[0].0
      && r.value.services[0].1.other == compose.services[0].1.other
      && r.value.services[0].1.volumes == Some([Str(VolumeBinding(projectPath))])
  {
    if |compose.services| != 1 then Err(InvalidComposeConfig("services count must be exactly one"))
    else
      var (name, service) := compose.services[0];
      Ok(compose.(services := [(name, service.(volumes := Some([Str(VolumeBinding(projectPath))])))]))
  }

  /** Rewriting an already rewritten document changes nothing, whatever its volumes were before. */
  lemma RewriteIdempotent(compose: Compose, projectPath: string)
    requires RewriteVolumes(compose, projectPath).Ok?
    ensures RewriteVolumes(RewriteVolumes(compose, projectPath).value, projectPath) == RewriteVolumes(compose, projectPath)
  {
  }

  /** Two documents that differ only in the sole service's volumes rewrite to the same document. */
  lemma RewriteForgetsVolumes(compose: Compose, volumes: Option<seq<Value>>, projectPath: string)
    requires |compose.services| == 1
    ensures var (name, service) := compose.services[0];
      RewriteVolumes(compose.(services := [(name, service.(volumes := volumes))]), projectPath)
        == RewriteVolumes(compose, projectPath)
  {
  }

  // ---- Container ids from `docker compose ps -q` ----

  /** The lines of the command's output. */
  function Lines(stdout: string): (lines: seq<string>)
    ensures forall k :: 0 <= k < |lines| ==> '\n' !in lines[k]
  {
    Text.SplitPiecesLackSeparator(stdout, '\n');
    Text.Split(stdout, '\n')
  }

  /** A non-empty id without surrounding white space. */
  predicate IsTrimmedId(id: string)
  {
    id != [] && !Text.IsWhitespace(id[0]) && !Text.IsWhitespace(id[|id| - 1])
  }

  /** Every line, trimmed. */
  function TrimAll(lines: seq<string>): (ts: seq<string>)
    ensures |ts| == |lines|
  {
    if lines == [] then [] else [Text.Trim(lines[0])] + TrimAll(lines[1..])
  }

  /** The `j`th trimmed line is the `j`th line, trimmed. */
  lemma {:induction false} TrimAllAt(lines: seq<string>, j: nat)
    requires j < |lines|
    ensures TrimAll(lines)[j] == Text.Trim(lines[j])
  {
    var rest := TrimAll(lines[1..]);
    assert TrimAll(lines) == [Text.Trim(lines[0])] + rest;
    if j > 0 {
      TrimAllAt(lines[1..], j - 1);
      assert lines[1..][j - 1] == lines[j];
      assert TrimAll(lines)[j] == rest[j - 1];
    }
  }

  /** The strings that are not empty, in order. */
  function NonEmpty(ts: seq<string>): (r: seq<string>)
    ensures |r| <= |ts|
    ensures forall k :: 0 <= k < |r| ==> r[k] != []
  {
    if ts == [] then []
    else (if ts[0] == [] then [] else [ts[0]]) + NonEmpty(ts[1..])
  }

  /** The kept strings are strings of the input. */
  lemma {:induction false} NonEmptyKeepsInputs(ts: seq<string>)
    ensures forall k :: 0 <= k < |NonEmpty(ts)| ==> NonEmpty(ts)[k] in ts
  {
    if ts != [] {
      var rest := NonEmpty(ts[1..]);
      NonEmptyKeepsInputs(ts[1..]);
      forall k | 0 <= k < |rest| ensures rest[k] in ts {
        var j :| 0 <= j < |ts[1..]| && ts[1..][j] == rest[k];
        assert ts[j + 1] == rest[k];
      }
      if ts[0] != [] {
        forall k | 0 < k < |NonEmpty(ts)| ensures NonEmpty(ts)[k] in ts {
          assert NonEmpty(ts)[k] == rest[k - 1];
        }
      } else {
        assert NonEmpty(ts) == rest;
      }
    }
  }

  /** `.filter(|l| !l.trim().is_empty()).map(|s| s.trim())` over the lines. */
  function NonBlankTrimmed(lines: seq<string>): (ids: seq<string>)
    ensures forall k :: 0 <= k < |ids| ==> IsTrimmedId(ids[k])
  {
    TrimmedAreIds(lines);
    NonEmpty(TrimAll(lines))
  }

  /** The ids of some lines: those of the first line, then those of the rest. */
  lemma NonEmptyOfTrimAll(lines: seq<string>)
    requires lines != []
    ensures var t := Text.Trim(lines[0]);
      NonEmpty(TrimAll(lines)) == if t == [] then NonEmpty(TrimAll(lines[1..])) else [t] + NonEmpty(TrimAll(lines[1..]))
  {
    assert TrimAll(lines)[1..] == TrimAll(lines[1..]);
  }

  /** A property of every element survives putting one more element with it in front. */
  lemma AllCons(t: string, rest: seq<string>, p: string -> bool)
    requires p(t)
    requires forall k :: 0 <= k < |rest| ==> p(rest[k])
    ensures forall k :: 0 <= k < |[t] + rest| ==> p(([t] + rest)[k])
  {
    forall k | 0 < k < |[t] + rest| ensures p(([t] + rest)[k]) {
      assert ([t] + rest)[k] == rest[k - 1];
    }
  }

  /** Every kept line is a trimmed id. */
  lemma {:induction false} TrimmedAreIds(lines: seq<string>)
    ensures forall k :: 0 <= k < |NonEmpty(TrimAll(lines))| ==> IsTrimmedId(NonEmpty(TrimAll(lines))[k])
  {
    if lines != [] {
      var t := Text.Trim(lines[0]);
      NonEmptyOfTrimAll(lines);
      TrimmedAreIds(lines[1..]);
      if t != [] {
        AllCons(t, NonEmpty(TrimAll(lines[1..])), IsTrimmedId);
      }
    }
  }

  /** Ids taken from lines are single lines. */
  lemma {:induction false} IdsAreSingleLines(lines: seq<string>)
    requires forall j :: 0 <= j < |lines| ==> '\n' !in lines[j]
    ensures forall k :: 0 <= k < |NonEmpty(TrimAll(lines))| ==> '\n' !in NonEmpty(TrimAll(lines))[k]
  {
    if lines != [] {
      var t := Text.Trim(lines[0]);
      NonEmptyOfTrimAll(lines);
      assert forall j :: 0 <= j < |lines[1..]| ==> '\n' !in lines[1..][j] by {
        forall j | 0 <= j < |lines[1..]| ensures '\n' !in lines[1..][j] {
          assert lines[1..][j] == lines[j + 1];
        }
      }
      IdsAreSingleLines(lines[1..]);
      if t != [] {
        Text.TrimKeepsAbsent(lines[0], '\n');
        AllCons(t, NonEmpty(TrimAll(lines[1..])), s => '\n' !in s);
      }
    }
  }

  /** Every container id the output lists. */
  function ContainerIds(stdout: string): (ids: seq<string>)
    ensures forall k :: 0 <= k < |ids| ==> IsTrimmedId(ids[k]) && '\n' !in ids[k]
  {
    IdsAreSingleLines(Lines(stdout));
    NonBlankTrimmed(Lines(stdout))
  }

  /** The container id is the first listed one; an output without one is the NotFound error. */
  function FirstContainerId(stdout: string): (r: Result<ContainerId, Error>)
    ensures r.Err? <==> ContainerIds(stdout) == []
    ensures r.Err? ==> r.error == NotFound("container id from docker compose ps")
    ensures r.Ok? ==> IsTrimmedId(r.value.id) && '\n' !in r.value.id
  {
    var ids := ContainerIds(stdout);
    IdsAreSingleLines(Lines(stdout));
    if ids == [] then Err(NotFound("container id from docker compose ps"))
    else Ok(ContainerId(ids[0]))
  }

  /** The first string kept is the first one that is not empty. */
  lemma {:induction false} FirstNonEmpty(ts: seq<string>, k: nat)
    requires k < |ts| && ts[k] != []
    requires forall j :: 0 <= j < k ==> ts[j] == []
    ensures NonEmpty(ts) != [] && NonEmpty(ts)[0] == ts[k]
  {
    if k > 0 {
      assert NonEmpty(ts) == NonEmpty(ts[1..]);
      FirstNonEmpty(ts[1..], k - 1);
    }
  }

  /** Nothing is kept of strings that are all empty. */
  lemma {:induction false} NoneNonEmpty(ts: seq<string>)
    requires forall j :: 0 <= j < |ts| ==> ts[j] == []
    ensures NonEmpty(ts) == []
  {
    if ts != [] {
      NoneNonEmpty(ts[1..]);
    }
  }

  /** The first id comes from the first non-blank line. */
  lemma FirstIdOfLines(lines: seq<string>, k: nat)
    requires k < |lines| && !Text.IsBlank(lines[k])
    requires forall j :: 0 <= j < k ==> Text.IsBlank(lines[j])
    ensures NonBlankTrimmed(lines) != [] && NonBlankTrimmed(lines)[0] == Text.Trim(lines[k])
  {
    var ts := TrimAll(lines);
    forall j | 0 <= j < k
      ensures ts[j] == []
    {
      Text.TrimEmptyIffBlank(lines[j]);
      TrimAllAt(lines, j);
    }
    Text.TrimEmptyIffBlank(lines[k]);
    TrimAllAt(lines, k);
    FirstNonEmpty(ts, k);
  }

  /** Without a non-blank line there are no ids. */
  lemma NoIdOfBlankLines(lines: seq<string>)
    requires forall j :: 0 <= j < |lines| ==> Text.IsBlank(lines[j])
    ensures NonBlankTrimmed(lines) == []
  {
    var ts := TrimAll(lines);
    forall j | 0 <= j < |lines|
      ensures ts[j] == []
    {
      Text.TrimEmptyIffBlank(lines[j]);
      TrimAllAt(lines, j);
    }
    NoneNonEmpty(ts);
  }

  /** The container id is the first non-blank line of the output, trimmed. */
  lemma FirstContainerIdIsFirstNonBlankLine(stdout: string, k: nat)
    requires k < |Lines(stdout)| && !Text.IsBlank(Lines(stdout)[k])
    requires forall j :: 0 <= j < k ==> Text.IsBlank(Lines(stdout)[j])
    ensures FirstContainerId(stdout) == Ok(ContainerId(Text.Trim(Lines(stdout)[k])))
  {
    FirstIdOfLines(Lines(stdout), k);
  }

  /** An output made of blank lines only yields the NotFound error. */
  lemma BlankOutputHasNoContainerId(stdout: string)
    requires forall j :: 0 <= j < |Lines(stdout)| ==> Text.IsBlank(Lines(stdout)[j])
    ensures FirstContainerId(stdout) == Err(NotFound("container id from docker compose ps"))
  {
    NoIdOfBlankLines(Lines(stdout));
  }

  // ---- The external world ----

  datatype IoOutcome = Done | Fails(kind: IoErrorKind)

  /** The exit of a command whose output is not captured. */
  datatype Status = SpawnFailed | Exited(success: bool)

  /** The exit and standard output of a command whose output is captured. */
  datatype Output = OutputSpawnFailed | Finished(success: bool, stdout: string)

  /** One external operation, as attempted. */
  datatype Effect =
    | RemoveDirAll(path: string)
    | CreateDir(path: string)
    | CreateNew(path: string)
    | Copy(from: string, to: string)
    | Open(path: string)
    | ReadToString(path: string)
    | Create(path: string)
    | WriteAll(path: string, doc: Compose)
    | Flush(path: string)
    | ComposeUp(file: string)
    | ComposePs(file: string)
    | DockerKill(id: string)
    | DockerRm(id: string)
    | Attach(record: EnvRecord)

  /**
   * How each step of provisioning turns out. Whether the stale directory
   * exists is tracked by the runtime; `staleRemovalFault` is a failure of
   * another kind (permissions, a busy mount). `template` is the parsed
   * template, `None` when it does not parse; `serializes` says whether the
   * rewritten document serialises.
   */
  datatype ProvisionWorld = ProvisionWorld(
    staleRemovalFault: bool,
    createDir: IoOutcome,
    createDockerfile: IoOutcome,
    copyDockerfile: IoOutcome,
    createCompose: IoOutcome,
    copyCompose: IoOutcome,
    openTemplate: IoOutcome,
    readTemplate: IoOutcome,
    template: Option<Compose>,
    serializes: bool,
    createFile: IoOutcome,
    writeAll: IoOutcome,
    flush: IoOutcome,
    up: Status,
    ps: Output)

  /** How each step of teardown turns out; a missing directory is tracked by the runtime. */
  datatype TeardownWorld = TeardownWorld(kill: Status, rm: Status, removeFault: bool)

  /** `File::create_new` where an existing file is fine. */
  predicate Tolerated(o: IoOutcome)
  {
    o.Done? || o.kind == AlreadyExistsKind
  }

  /** The document provisioning writes, when the template yields one. */
  function PlannedDoc(spec: EnvSpec, w: ProvisionWorld): Compose
  {
    if w.template.Some? && RewriteVolumes(w.template.value, spec.projectPath).Ok?
    then RewriteVolumes(w.template.value, spec.projectPath).value
    else Compose(None, [], [])
  }

  /** The external operations that copy both templates into `dir` and read the compose template, in order. */
  function CopyPlan(shared: SharedResources, dir: string): (plan: seq<Effect>)
    ensures |plan| == 6
  {
    var dockerfile := dir + DOCKERFILE_NAME;
    var composeFile := dir + COMPOSE_NAME;
    [ CreateNew(dockerfile), Copy(shared.dockerfileTemplate, dockerfile),
      CreateNew(composeFile), Copy(shared.composeTemplate, composeFile),
      Open(shared.composeTemplate), ReadToString(shared.composeTemplate) ]
  }

  /** The external operations of the file steps, in order: replace the configuration directory, then fill it. */
  function PreparePlan(shared: SharedResources, spec: EnvSpec): (plan: seq<Effect>)
    ensures |plan| == 8
  {
    var dir := ConfigDir(spec.uuid);
    [RemoveDirAll(dir), CreateDir(dir)] + CopyPlan(shared, dir)
  }

  /** A run of the file steps that gets past the directory attempts both directory steps and then a prefix of the rest. */
  lemma PreparePlanPrefix(shared: SharedResources, spec: EnvSpec, n: nat)
    requires n <= 6
    ensures PreparePlan(shared, spec)[..2 + n] == PreparePlan(shared, spec)[..2] + CopyPlan(shared, ConfigDir(spec.uuid))[..n]
  {
  }

  /** The external operations that save the document to `composeFile` and start it, in order. */
  function StartPlan(composeFile: string, doc: Compose): (plan: seq<Effect>)
    ensures |plan| == 5
  {
    [ Create(composeFile), WriteAll(composeFile, doc), Flush(composeFile),
      ComposeUp(composeFile), ComposePs(composeFile) ]
  }

  /** Every external operation of a provisioning run that goes all the way, in order. */
  function ProvisionPlan(shared: SharedResources, spec: EnvSpec, doc: Compose): (plan: seq<Effect>)
    ensures |plan| == 13
  {
    PreparePlan(shared, spec) + StartPlan(ConfigDir(spec.uuid) + COMPOSE_NAME, doc)
  }

  /** A run that stops during the file steps attempts a prefix of them; one that gets past them, all of them and then a prefix of the rest. */
  lemma ProvisionPlanPrefix(shared: SharedResources, spec: EnvSpec, doc: Compose, n: nat)
    requires n <= 8
    ensures ProvisionPlan(shared, spec, doc)[..n] == PreparePlan(shared, spec)[..n]
    ensures n <= 5 ==>
      ProvisionPlan(shared, spec, doc)[..8 + n] == PreparePlan(shared, spec) + StartPlan(ConfigDir(spec.uuid) + COMPOSE_NAME, doc)[..n]
  {
  }

  predicate IsDockerCommand(e: Effect)
  {
    e.ComposeUp? || e.ComposePs? || e.DockerKill? || e.DockerRm?
  }

  /** In the plan, the docker commands are the last two steps: `up` at index 11, `ps` at index 12. */
  lemma PlanDockerCommands(shared: SharedResources, spec: EnvSpec, doc: Compose, i: nat)
    requires i < 13
    ensures IsDockerCommand(ProvisionPlan(shared, spec, doc)[i]) <==> i >= 11
    ensures ProvisionPlan(shared, spec, doc)[i].ComposePs? <==> i == 12
  {
  }

  /** Extending a slice of the plan by the next three planned steps, one at a time. */
  lemma SliceExtendThrice(plan: seq<Effect>, from: nat, k: nat)
    requires from <= k && k + 3 <= |plan|
    ensures plan[from..k + 1] == plan[from..k] + [plan[k]]
    ensures plan[from..k + 2] == plan[from..k] + [plan[k], plan[k + 1]]
    ensures plan[from..k + 3] == plan[from..k] + [plan[k], plan[k + 1], plan[k + 2]]
  {
  }

  /** Extending a slice of the plan by the next two planned steps, one at a time. */
  lemma SliceExtendTwice(plan: seq<Effect>, from: nat, k: nat)
    requires from <= k && k + 2 <= |plan|
    ensures plan[from..k + 1] == plan[from..k] + [plan[k]]
    ensures plan[from..k + 2] == plan[from..k] + [plan[k], plan[k + 1]]
  {
  }

  /** The steps after the files are ready all succeed, the template has exactly one service, and `ps -q` lists a container. */
  predicate StartSucceeds(w: ProvisionWorld)
  {
    && w.template.Some? && |w.template.value.services| == 1 && w.serializes
    && w.createFile == Done && w.writeAll == Done && w.flush == Done
    && w.up == Exited(true)
    && w.ps.Finished? && w.ps.success && ContainerIds(w.ps.stdout) != []
  }

  /** Every step of provisioning succeeds. */
  predicate ProvisionSucceeds(w: ProvisionWorld)
  {
    FilesReady(w) && StartSucceeds(w)
  }

  /** The file steps before validation all succeed and the template parses, so it reaches validation. */
  predicate TemplateReachesValidation(w: ProvisionWorld)
  {
    FilesReady(w) && w.template.Some?
  }

  /** How far a run gets: how many planned steps it attempts, and what it returns. */
  datatype Run<T> = Run(steps: nat, result: Result<T, Error>)

  /** The file steps before validation all succeed. */
  predicate FilesReady(w: ProvisionWorld)
  {
    && !w.staleRemovalFault && w.createDir == Done
    && Tolerated(w.createDockerfile) && w.copyDockerfile == Done
    && Tolerated(w.createCompose) && w.copyCompose == Done
    && w.openTemplate == Done && w.readTemplate == Done
  }

  /** The outcome of copying both templates into `dir`. */
  function CopyTemplatesRun(dir: string, w: ProvisionWorld): (run: Run<()>)
    ensures 1 <= run.steps <= 4
    ensures run.result.Ok? ==> run.steps == 4
    ensures !Tolerated(w.createDockerfile) ==> run == Run(1, Err(Io(Some(dir + DOCKERFILE_NAME), OtherKind)))
    ensures Tolerated(w.createDockerfile) && w.copyDockerfile.Fails? ==> run == Run(2, Err(Io(None, w.copyDockerfile.kind)))
    ensures Tolerated(w.createDockerfile) && w.copyDockerfile == Done && !Tolerated(w.createCompose) ==>
      run == Run(3, Err(Io(Some(dir + COMPOSE_NAME), OtherKind)))
    ensures Tolerated(w.createDockerfile) && w.copyDockerfile == Done && Tolerated(w.createCompose) ==>
      run == (if w.copyCompose.Fails? then Run(4, Err(Io(None, w.copyCompose.kind))) else Run(4, Ok(())))
  {
    if !Tolerated(w.createDockerfile) then Run(1, Err(Io(Some(dir + DOCKERFILE_NAME), OtherKind)))
    else if w.copyDockerfile.Fails? then Run(2, Err(Io(None, w.copyDockerfile.kind)))
    else if !Tolerated(w.createCompose) then Run(3, Err(Io(Some(dir + COMPOSE_NAME), OtherKind)))
    else if w.copyCompose.Fails? then Run(4, Err(Io(None, w.copyCompose.kind)))
    else Run(4, Ok(()))
  }

  /** The outcome of copying both templates into `dir` and reading the compose template. */
  function CopyRun(shared: SharedResources, dir: string, w: ProvisionWorld): (run: Run<()>)
    ensures 1 <= run.steps <= 6
  {
    var copied := CopyTemplatesRun(dir, w);
    if copied.result.Err? then copied
    else if w.openTemplate.Fails? then Run(5, Err(Io(Some(shared.composeTemplate), w.openTemplate.kind)))
    else if w.readTemplate.Fails? then Run(6, Err(Io(Some(shared.composeTemplate), w.readTemplate.kind)))
    else Run(6, Ok(()))
  }

  /**
   * Filling the directory succeeds exactly when every copy and the read
   * succeed, an existing file being tolerated, and it then takes all six
   * steps; a failing `create_new` of the Dockerfile ends it at once.
   */
  lemma CopyRunOutcome(shared: SharedResources, dir: string, w: ProvisionWorld)
    ensures var run := CopyRun(shared, dir, w);
      && (run.result.Ok? <==>
            Tolerated(w.createDockerfile) && w.copyDockerfile == Done && Tolerated(w.createCompose)
            && w.copyCompose == Done && w.openTemplate == Done && w.readTemplate == Done)
      && (run.result.Ok? ==> run.steps == 6)
      && (!Tolerated(w.createDockerfile) ==> run == Run(1, Err(Io(Some(dir + DOCKERFILE_NAME), OtherKind))))
  {
  }

  /**
   * The outcome of the file steps of `provision_and_start`: replace the
   * configuration directory, copy both templates into it and read the
   * compose template, the first failing step ending the run.
   */
  function PrepareRun(shared: SharedResources, spec: EnvSpec, w: ProvisionWorld): (run: Run<()>)
    ensures 1 <= run.steps <= 8
    ensures run.result.Ok? <==> FilesReady(w)
    ensures run.result.Ok? ==> run.steps == 8
    ensures w.staleRemovalFault ==> run == Run(1, Err(Io(Some(ConfigDir(spec.uuid)), OtherKind)))
    ensures !w.staleRemovalFault && w.createDir.Fails? ==> run == Run(2, Err(Io(Some(ConfigDir(spec.uuid)), w.createDir.kind)))
  {
    var dir := ConfigDir(spec.uuid);
    if w.staleRemovalFault then Run(1, Err(Io(Some(dir), OtherKind)))
    else if w.createDir.Fails? then Run(2, Err(Io(Some(dir), w.createDir.kind)))
    else
      var copied := CopyRun(shared, dir, w);
      Run(2 + copied.steps, copied.result)
  }

  /**
   * The steps of `provision_and_start` that attempt no external operation:
   * the template must parse, have exactly one service, and serialise once
   * rewritten; the result is the document to save.
   */
  function ValidateTemplate(spec: EnvSpec, w: ProvisionWorld): (r: Result<Compose, Error>)
    ensures r.Ok? <==> w.template.Some? && |w.template.value.services| == 1 && w.serializes
    ensures r.Ok? ==> r.value == PlannedDoc(spec, w)
    ensures w.template.Some? && |w.template.value.services| != 1 ==>
      r == Err(InvalidComposeConfig("services count must be exactly one"))
  {
    if w.template.None? then Err(YamlSer)
    else if RewriteVolumes(w.template.value, spec.projectPath).Err? then
      Err(RewriteVolumes(w.template.value, spec.projectPath).error)
    else if !w.serializes then Err(YamlDe)
    else Ok(RewriteVolumes(w.template.value, spec.projectPath).value)
  }

  /** The external steps after validation: save the document to `composeFile`, start it and read its id. */
  function LaunchRun(composeFile: string, w: ProvisionWorld): (run: Run<ContainerInfo>)
    ensures 1 <= run.steps <= 5
    ensures run.result.Ok? <==>
      w.createFile == Done && w.writeAll == Done && w.flush == Done && w.up == Exited(true)
      && w.ps.Finished? && w.ps.success && ContainerIds(w.ps.stdout) != []
    ensures run.result.Ok? ==>
      run.steps == 5 && run.result.value == ContainerInfo(ContainerId(ContainerIds(w.ps.stdout)[0]))
    ensures w.up != Exited(true) ==> run.steps <= 4
    ensures w.createFile.Fails? ==> run == Run(1, Err(Io(Some(composeFile), w.createFile.kind)))
  {
    if w.createFile.Fails? then Run(1, Err(Io(Some(composeFile), w.createFile.kind)))
    else if w.writeAll.Fails? then Run(2, Err(Io(Some(composeFile), w.writeAll.kind)))
    else if w.flush.Fails? then Run(3, Err(Io(Some(composeFile), w.flush.kind)))
    else if w.up != Exited(true) then Run(4, Err(Command("docker compose", w.up.SpawnFailed?)))
    else if !w.ps.Finished? || !w.ps.success then Run(5, Err(Command("docker compose", w.ps.OutputSpawnFailed?)))
    else
      var id := FirstContainerId(w.ps.stdout);
      if id.Err? then Run(5, Err(id.error)) else Run(5, Ok(ContainerInfo(id.value)))
  }

  /**
   * The outcome of the rest of `provision_and_start` once the files are
   * ready: validate and rewrite the template, save it, start the container
   * and read its id. `steps` counts the external operations attempted;
   * validation and serialisation attempt none.
   */
  function FinishRun(spec: EnvSpec, w: ProvisionWorld): (run: Run<ContainerInfo>)
    ensures run.steps <= 5
    ensures run.result.Ok? <==> StartSucceeds(w)
    ensures run.result.Ok? ==>
      run.steps == 5 && run.result.value == ContainerInfo(ContainerId(ContainerIds(w.ps.stdout)[0]))
    ensures w.template.Some? && |w.template.value.services| != 1 ==>
      run == Run(0, Err(InvalidComposeConfig("services count must be exactly one")))
    ensures run.steps >= 4 ==> w.template.Some? && |w.template.value.services| == 1
    ensures w.up != Exited(true) ==> run.steps <= 4
  {
    match ValidateTemplate(spec, w)
    case Err(e) => Run(0, Err(e))
    case Ok(_) => LaunchRun(ConfigDir(spec.uuid) + COMPOSE_NAME, w)
  }

  /**
   * The outcome of `provision_and_start` in the world `w`: every step returns
   * early with its own error; validation and serialisation attempt no
   * external operation.
   */
  function ProvisionRun(shared: SharedResources, spec: EnvSpec, w: ProvisionWorld): (run: Run<ContainerInfo>)
    ensures 1 <= run.steps <= 13
    ensures run.result.Ok? <==> ProvisionSucceeds(w)
    ensures run.result.Ok? ==>
      run.steps == 13 && run.result.value == ContainerInfo(ContainerId(ContainerIds(w.ps.stdout)[0]))
    ensures w.staleRemovalFault ==> run == Run(1, Err(Io(Some(ConfigDir(spec.uuid)), OtherKind)))
    ensures TemplateReachesValidation(w) && |w.template.value.services| != 1 ==>
      run == Run(8, Err(InvalidComposeConfig("services count must be exactly one")))
    ensures run.steps >= 12 ==> TemplateReachesValidation(w) && |w.template.value.services| == 1
    ensures w.up != Exited(true) ==> run.steps <= 12
  {
    var prepared := PrepareRun(shared, spec, w);
    if prepared.result.Err? then Run(prepared.steps, Err(prepared.result.error))
    else
      var finished := FinishRun(spec, w);
      Run(8 + finished.steps, finished.result)
  }

  /**
   * No docker command runs unless the template reached validation with
   * exactly one service, and `ps` never runs after a failed `up`.
   */
  lemma NoContainerWithoutValidTemplate(shared: SharedResources, spec: EnvSpec, w: ProvisionWorld)
    ensures var run := ProvisionRun(shared, spec, w);
      var ran := ProvisionPlan(shared, spec, PlannedDoc(spec, w))[..run.steps];
      && ((exists i :: 0 <= i < |ran| && IsDockerCommand(ran[i])) ==>
           TemplateReachesValidation(w) && |w.template.value.services| == 1)
      && (w.up != Exited(true) ==> forall i :: 0 <= i < |ran| ==> !ran[i].ComposePs?)
  {
    var run := ProvisionRun(shared, spec, w);
    var plan := ProvisionPlan(shared, spec, PlannedDoc(spec, w));
    forall i | 0 <= i < run.steps
      ensures IsDockerCommand(plan[i]) ==> run.steps >= 12
      ensures plan[i].ComposePs? ==> run.steps == 13
    {
      PlanDockerCommands(shared, spec, PlannedDoc(spec, w), i);
    }
  }

  /** A run that succeeds writes the rewritten template: one service whose only volume is the project binding. */
  lemma ProvisionWritesRewrittenTemplate(shared: SharedResources, spec: EnvSpec, w: ProvisionWorld)
    requires ProvisionSucceeds(w)
    ensures ProvisionPlan(shared, spec, PlannedDoc(spec, w))[9]
      == WriteAll(ConfigDir(spec.uuid) + COMPOSE_NAME, RewriteVolumes(w.template.value, spec.projectPath).value)
    ensures |PlannedDoc(spec, w).services| == 1
    ensures PlannedDoc(spec, w).services[0].1.volumes == Some([Str(VolumeBinding(spec.projectPath))])
  {
  }

  /** The external operations of a teardown, in order. */
  function TeardownPlan(record: EnvRecord, dir: string): (plan: seq<Effect>)
    ensures |plan| == 3
    ensures plan[0].DockerKill? && plan[1].DockerRm? && plan[0].id == plan[1].id == record.containerInfo.containerId.id
    ensures plan[2] == RemoveDirAll(dir)
  {
    var id := record.containerInfo.containerId.id;
    [DockerKill(id), DockerRm(id), RemoveDirAll(dir)]
  }

  /** A teardown in which every command succeeds. */
  predicate CleanTeardown(w: TeardownWorld)
  {
    w.kill == Exited(true) && w.rm == Exited(true) && !w.removeFault
  }

  /**
   * The outcome of a teardown in the world `w`, where `dirExists` says
   * whether the directory to remove exists: the first failing step ends the
   * run with its error.
   */
  function TeardownRun(w: TeardownWorld, dirExists: bool): (run: Run<()>)
    ensures 1 <= run.steps <= 3
    ensures run.result.Ok? <==> CleanTeardown(w) && dirExists
    ensures run.result.Ok? ==> run.steps == 3
    ensures w.kill != Exited(true) ==> run == Run(1, Err(Command("docker kill", w.kill.SpawnFailed?)))
    ensures w.kill == Exited(true) && w.rm != Exited(true) ==> run == Run(2, Err(Command("docker rm", w.rm.SpawnFailed?)))
    ensures CleanTeardown(w) && !dirExists ==> run == Run(3, Err(Io(None, NotFoundKind)))
  {
    if w.kill != Exited(true) then Run(1, Err(Command("docker kill", w.kill.SpawnFailed?)))
    else if w.rm != Exited(true) then Run(2, Err(Command("docker rm", w.rm.SpawnFailed?)))
    else if w.removeFault then Run(3, Err(Io(None, OtherKind)))
    else if !dirExists then Run(3, Err(Io(None, NotFoundKind)))
    else Run(3, Ok(()))
  }

  /** The container is killed before it is removed, and the directory is removed last, only once both commands succeeded. */
  lemma TeardownOrder(record: EnvRecord, dir: string, w: TeardownWorld, dirExists: bool)
    ensures var ran := TeardownPlan(record, dir)[..TeardownRun(w, dirExists).steps];
      && ran[0] == DockerKill(record.containerInfo.containerId.id)
      && (RemoveDirAll(dir) in ran ==> w.kill == Exited(true) && w.rm == Exited(true))
  {
    var ran := TeardownPlan(record, dir)[..TeardownRun(w, dirExists).steps];
    if RemoveDirAll(dir) in ran {
      assert ran[0] != RemoveDirAll(dir);
      assert |ran| > 1 ==> ran[1] != RemoveDirAll(dir);
      assert |ran| == 3;
    }
  }

  /** The directory the teardown code removes, `/tmp/<uuid>` (see the findings). */
  function TeardownDirAsWritten(uuid: Uuids.Uuid): (dir: string)
    ensures |dir| == 41 && dir[..5] == "/tmp/"
  {
    "/tmp/" + Uuids.ToString(uuid)
  }

  /** The directory teardown removes is not the one provisioning created, not even up to a trailing slash. */
  lemma TeardownDirAsWrittenMissesConfigDir(uuid: Uuids.Uuid)
    ensures TeardownDirAsWritten(uuid) != ConfigDir(uuid)
    ensures TeardownDirAsWritten(uuid) + "/" != ConfigDir(uuid)
  {
    assert |TeardownDirAsWritten(uuid)| == 41;
    assert |ConfigDir(uuid)| == 49;
  }

  /**
   * `DockerForContainerRuntime`. The struct has no fields; this class holds
   * what its methods act on: the directories on the host and the log of
   * external operations.
   */
  class DockerRuntime {
    var dirs: set<string>
    var executed: seq<Effect>

    constructor (existingDirs: set<string>)
      ensures dirs == existingDirs && executed == []
    {
      dirs := existingDirs;
      executed := [];
    }

    /**
     * `provision_and_start`: materialise the configuration directory, rewrite
     * the compose template, start it with `docker compose up --build -d` and
     * read back the container id. Every step returns early on failure.
     */
    method ProvisionAndStart(shared: SharedResources, spec: EnvSpec, w: ProvisionWorld) returns (res: Result<ContainerInfo, Error>)
      modifies this
      ensures executed == old(executed) + ProvisionPlan(shared, spec, PlannedDoc(spec, w))[..ProvisionRun(shared, spec, w).steps]
      ensures res == ProvisionRun(shared, spec, w).result
      ensures dirs == if w.staleRemovalFault then old(dirs)
                      else if w.createDir.Fails? then old(dirs) - {ConfigDir(spec.uuid)}
                      else old(dirs) + {ConfigDir(spec.uuid)}
    {
      var prepared := PrepareFiles(shared, spec, w);
      if prepared.Err? {
        ProvisionPlanPrefix(shared, spec, PlannedDoc(spec, w), PrepareRun(shared, spec, w).steps);
        return Err(prepared.error);
      }
      res := SaveAndStart(spec, w);
      ProvisionPlanPrefix(shared, spec, PlannedDoc(spec, w), FinishRun(spec, w).steps);
    }

    /** The steps after the file steps: validate, rewrite and save the document, then start it. */
    method SaveAndStart(spec: EnvSpec, w: ProvisionWorld) returns (res: Result<ContainerInfo, Error>)
      modifies this
      ensures executed == old(executed) + StartPlan(ConfigDir(spec.uuid) + COMPOSE_NAME, PlannedDoc(spec, w))[..FinishRun(spec, w).steps]
      ensures res == FinishRun(spec, w).result
      ensures dirs == old(dirs)
    {
      var composeFile := ConfigDir(spec.uuid) + COMPOSE_NAME;
      if w.template.None? {
        return Err(YamlSer);
      }
      var rewritten := RewriteVolumes(w.template.value, spec.projectPath);
      if rewritten.Err? {
        return Err(rewritten.error);
      }
      if !w.serializes {
        return Err(YamlDe);
      }
      res := Launch(composeFile, rewritten.value, w);
    }

    /** Save `doc` to `composeFile`, then start it and read back the container id. */
    method Launch(composeFile: string, doc: Compose, w: ProvisionWorld) returns (res: Result<ContainerInfo, Error>)
      modifies this
      ensures executed == old(executed) + StartPlan(composeFile, doc)[..LaunchRun(composeFile, w).steps]
      ensures res == LaunchRun(composeFile, w).result
      ensures dirs == old(dirs)
    {
      ghost var plan := StartPlan(composeFile, doc);
      var saved := SaveCompose(composeFile, doc, w.createFile, w.writeAll, w.flush);
      SliceExtendThrice(plan, 0, 0);
      if saved.Err? {
        return Err(saved.error);
      }
      ghost var before := executed;
      assert before == old(executed) + plan[..3];

      res := StartAndFindContainer(composeFile, w.up, w.ps);
      SliceExtendTwice(plan, 0, 3);
    }

    /** The file steps of `provision_and_start`. */
    method PrepareFiles(shared: SharedResources, spec: EnvSpec, w: ProvisionWorld) returns (r: Result<(), Error>)
      modifies this
      ensures executed == old(executed) + PreparePlan(shared, spec)[..PrepareRun(shared, spec, w).steps]
      ensures r == PrepareRun(shared, spec, w).result
      ensures dirs == if w.staleRemovalFault then old(dirs)
                      else if w.createDir.Fails? then old(dirs) - {ConfigDir(spec.uuid)}
                      else old(dirs) + {ConfigDir(spec.uuid)}
    {
      var configPath := ConfigDir(spec.uuid);
      ghost var plan := PreparePlan(shared, spec);

      r := ReplaceConfigDir(configPath, w.staleRemovalFault, w.createDir);
      SliceExtendTwice(plan, 0, 0);
      if r.Err? {
        return;
      }
      ghost var before := executed;
      assert before == old(executed) + plan[..2];

      r := CopyFiles(shared, configPath, w);
      PreparePlanPrefix(shared, spec, CopyRun(shared, configPath, w).steps);
    }

    /** Copy both templates into `dir` and read the compose template. */
    method CopyFiles(shared: SharedResources, dir: string, w: ProvisionWorld) returns (r: Result<(), Error>)
      modifies this
      ensures executed == old(executed) + CopyPlan(shared, dir)[..CopyRun(shared, dir, w).steps]
      ensures r == CopyRun(shared, dir, w).result
      ensures dirs == old(dirs)
    {
      ghost var plan := CopyPlan(shared, dir);

      r := CopyTemplates(shared, dir, w);
      if r.Err? {
        return;
      }
      ghost var before := executed;
      assert before == old(executed) + plan[..4];

      r := ReadTemplate(shared.composeTemplate, w.openTemplate, w.readTemplate);
      SliceExtendTwice(plan, 0, 4);
    }

    /** Copy the Dockerfile template and then the compose template into `dir`. */
    method CopyTemplates(shared: SharedResources, dir: string, w: ProvisionWorld) returns (r: Result<(), Error>)
      modifies this
      ensures executed == old(executed) + CopyPlan(shared, dir)[..CopyTemplatesRun(dir, w).steps]
      ensures r == CopyTemplatesRun(dir, w).result
      ensures dirs == old(dirs)
    {
      ghost var plan := CopyPlan(shared, dir);

      r := CopyTemplate(shared.dockerfileTemplate, dir + DOCKERFILE_NAME, w.createDockerfile, w.copyDockerfile);
      SliceExtendTwice(plan, 0, 0);
      if r.Err? {
        return;
      }
      ghost var before := executed;
      assert before == old(executed) + plan[..2];

      r := CopyTemplate(shared.composeTemplate, dir + COMPOSE_NAME, w.createCompose, w.copyCompose);
      SliceExtendTwice(plan, 0, 2);
      if !Tolerated(w.createCompose) {
        assert executed == before + [plan[2]];
      } else {
        assert executed == before + [plan[2], plan[3]];
      }
    }

    /**
     * Remove the stale configuration directory, tolerating only its absence,
     * and create it afresh.
     */
    method ReplaceConfigDir(dir: string, removalFault: bool, create: IoOutcome) returns (r: Result<(), Error>)
      modifies this
      ensures executed == old(executed) + if removalFault then [RemoveDirAll(dir)] else [RemoveDirAll(dir), CreateDir(dir)]
      ensures r == if removalFault then Err(Io(Some(dir), OtherKind))
                   else if create.Fails? then Err(Io(Some(dir), create.kind))
                   else Ok(())
      ensures dirs == if removalFault then old(dirs) else if create.Fails? then old(dirs) - {dir} else old(dirs) + {dir}
    {
      executed := executed + [RemoveDirAll(dir)];
      if removalFault {
        return Err(Io(Some(dir), OtherKind));
      }
      dirs := dirs - {dir};
      executed := executed + [CreateDir(dir)];
      if create.Fails? {
        return Err(Io(Some(dir), create.kind));
      }
      dirs := dirs + {dir};
      r := Ok(());
    }

    /** Create the target file, tolerating one that already exists, and copy the template over it. */
    method CopyTemplate(template: string, target: string, create: IoOutcome, copy: IoOutcome) returns (r: Result<(), Error>)
      modifies this
      ensures executed == old(executed) + if !Tolerated(create) then [CreateNew(target)] else [CreateNew(target), Copy(template, target)]
      ensures r == if !Tolerated(create) then Err(Io(Some(target), OtherKind))
                   else if copy.Fails? then Err(Io(None, copy.kind))
                   else Ok(())
      ensures dirs == old(dirs)
    {
      executed := executed + [CreateNew(target)];
      if !Tolerated(create) {
        return Err(Io(Some(target), OtherKind));
      }
      executed := executed + [Copy(template, target)];
      if copy.Fails? {
        return Err(Io(None, copy.kind));
      }
      r := Ok(());
    }

    /** Open the compose template and read it whole. */
    method ReadTemplate(path: string, open: IoOutcome, read: IoOutcome) returns (r: Result<(), Error>)
      modifies this
      ensures executed == old(executed) + if open.Fails? then [Open(path)] else [Open(path), ReadToString(path)]
      ensures r == if open.Fails? then Err(Io(Some(path), open.kind))
                   else if read.Fails? then Err(Io(Some(path), read.kind))
                   else Ok(())
      ensures dirs == old(dirs)
    {
      executed := executed + [Open(path)];
      if open.Fails? {
        return Err(Io(Some(path), open.kind));
      }
      executed := executed + [ReadToString(path)];
      if read.Fails? {
        return Err(Io(Some(path), read.kind));
      }
      r := Ok(());
    }

    /** Truncate the compose file, write the document and flush it. */
    method SaveCompose(file: string, doc: Compose, create: IoOutcome, write: IoOutcome, flush: IoOutcome) returns (r: Result<(), Error>)
      modifies this
      ensures executed == old(executed) +
        if create.Fails? then [Create(file)]
        else if write.Fails? then [Create(file), WriteAll(file, doc)]
        else [Create(file), WriteAll(file, doc), Flush(file)]
      ensures r == if create.Fails? then Err(Io(Some(file), create.kind))
                   else if write.Fails? then Err(Io(Some(file), write.kind))
                   else if flush.Fails? then Err(Io(Some(file), flush.kind))
                   else Ok(())
      ensures dirs == old(dirs)
    {
      executed := executed + [Create(file)];
      if create.Fails? {
        return Err(Io(Some(file), create.kind));
      }
      executed := executed + [WriteAll(file, doc)];
      if write.Fails? {
        return Err(Io(Some(file), write.kind));
      }
      executed := executed + [Flush(file)];
      if flush.Fails? {
        return Err(Io(Some(file), flush.kind));
      }
      r := Ok(());
    }

    /** Run `docker compose up --build -d`, then `docker compose ps -q`, and take the first container id listed. */
    method StartAndFindContainer(file: string, up: Status, ps: Output) returns (r: Result<ContainerInfo, Error>)
      modifies this
      ensures executed == old(executed) + if up != Exited(true) then [ComposeUp(file)] else [ComposeUp(file), ComposePs(file)]
      ensures r == if up != Exited(true) then Err(Command("docker compose", up.SpawnFailed?))
                   else if !ps.Finished? || !ps.success then Err(Command("docker compose", ps.OutputSpawnFailed?))
                   else match FirstContainerId(ps.stdout)
                        case Err(e) => Err(e)
                        case Ok(id) => Ok(ContainerInfo(id))
      ensures dirs == old(dirs)
    {
      executed := executed + [ComposeUp(file)];
      if up != Exited(true) {
        return Err(Command("docker compose", up.SpawnFailed?));
      }
      executed := executed + [ComposePs(file)];
      if !ps.Finished? || !ps.success {
        return Err(Command("docker compose", ps.OutputSpawnFailed?));
      }
      var id := FirstContainerId(ps.stdout);
      if id.Err? {
        return Err(id.error);
      }
      r := Ok(ContainerInfo(id.value));
    }

    /** `enter`: attach to the record's container (the implementation is a stub; only the call is recorded). */
    method Enter(record: EnvRecord)
      modifies this
      ensures executed == old(executed) + [Attach(record)] && dirs == old(dirs)
    {
      executed := executed + [Attach(record)];
    }
    /**
     * Teardown: `docker kill`, `docker rm`, then remove the directory `dir`;
     * the first failing step ends the run with its error.
     */
    method Teardown(record: EnvRecord, dir: string, w: TeardownWorld) returns (res: Result<(), Error>)
      modifies this
      ensures executed == old(executed) + TeardownPlan(record, dir)[..TeardownRun(w, dir in old(dirs)).steps]
      ensures res == TeardownRun(w, dir in old(dirs)).result
      ensures dirs == if res.Ok? then old(dirs) - {dir} else old(dirs)
    {
      var id := record.containerInfo.containerId.id;
      ghost var plan := TeardownPlan(record, dir);
      executed := executed + [DockerKill(id)];
      assert plan[..1] == [DockerKill(id)];
      if w.kill != Exited(true) {
        return Err(Command("docker kill", w.kill.SpawnFailed?));
      }
      executed := executed + [DockerRm(id)];
      assert plan[..2] == [DockerKill(id), DockerRm(id)];
      if w.rm != Exited(true) {
        return Err(Command("docker rm", w.rm.SpawnFailed?));
      }
      executed := executed + [RemoveDirAll(dir)];
      assert plan[..3] == plan;
      if w.removeFault {
        return Err(Io(None, OtherKind));
      }
      if dir !in dirs {
        return Err(Io(None, NotFoundKind));
      }
      dirs := dirs - {dir};
      res := Ok(());
    }

    /** `kill` as its code reads: the directory removed is `/tmp/<uuid>`. */
    method KillAsWritten(record: EnvRecord, w: TeardownWorld) returns (res: Result<(), Error>)
      modifies this
      ensures var dir := TeardownDirAsWritten(record.spec.uuid);
        && executed == old(executed) + TeardownPlan(record, dir)[..TeardownRun(w, dir in old(dirs)).steps]
        && res == TeardownRun(w, dir in old(dirs)).result
        && dirs == if res.Ok? then old(dirs) - {dir} else old(dirs)
    {
      res := Teardown(record, TeardownDirAsWritten(record.spec.uuid), w);
    }

    /** `kill` with the directory provisioning created, `/tmp/pwnenv-<uuid>/`. */
    method Kill(record: EnvRecord, w: TeardownWorld) returns (res: Result<(), Error>)
      modifies this
      ensures var dir := ConfigDir(record.spec.uuid);
        && executed == old(executed) + TeardownPlan(record, dir)[..TeardownRun(w, dir in old(dirs)).steps]
        && res == TeardownRun(w, dir in old(dirs)).result
        && dirs == if res.Ok? then old(dirs) - {dir} else old(dirs)
    {
      res := Teardown(record, ConfigDir(record.spec.uuid), w);
    }
  }

  /**
   * Provision on a host where neither directory exists: afterwards exactly
   * the configuration directory exists, and the environment's record holds
   * the container found.
   */
  method ProvisionOnCleanHost(shared: SharedResources, spec: EnvSpec, w: ProvisionWorld)
    returns (runtime: DockerRuntime, record: EnvRecord)
    requires ProvisionSucceeds(w)
    ensures fresh(runtime)
    ensures record == EnvRecord(spec, ContainerInfo(ContainerId(ContainerIds(w.ps.stdout)[0])))
    ensures runtime.dirs == {ConfigDir(spec.uuid)}
    ensures TeardownDirAsWritten(spec.uuid) !in runtime.dirs
  {
    runtime := new DockerRuntime({});
    var info := runtime.ProvisionAndStart(shared, spec, w);
    TeardownDirAsWrittenMissesConfigDir(spec.uuid);
    record := EnvRecord(spec, info.value);
  }

  /**
   * Provision on a clean host, then tear down with the code as written: the
   * kill and the rm succeed, the removal hits a missing directory, and the
   * configuration directory stays behind.
   */
  method ProvisionThenKillAsWritten(shared: SharedResources, spec: EnvSpec, w: ProvisionWorld, tw: TeardownWorld)
    returns (killed: Result<(), Error>, leftover: set<string>)
    requires ProvisionSucceeds(w) && CleanTeardown(tw)
    ensures killed == Err(Io(None, NotFoundKind))
    ensures ConfigDir(spec.uuid) in leftover
  {
    var runtime, record := ProvisionOnCleanHost(shared, spec, w);
    killed := runtime.KillAsWritten(record, tw);
    leftover := runtime.dirs;
  }

  /** The same run with the directory corrected: teardown succeeds and removes the configuration directory. */
  method ProvisionThenKill(shared: SharedResources, spec: EnvSpec, w: ProvisionWorld, tw: TeardownWorld)
    returns (killed: Result<(), Error>, leftover: set<string>)
    requires ProvisionSucceeds(w) && CleanTeardown(tw)
    ensures killed == Ok(())
    ensures ConfigDir(spec.uuid) !in leftover
  {
    var runtime, record := ProvisionOnCleanHost(shared, spec, w);
    killed := runtime.Kill(record, tw);
    leftover := runtime.dirs;
  }
}
