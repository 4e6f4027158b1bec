/**
 * The records the core passes around: an environment's specification, the
 * handle of its container, the persisted record, the three ways a user names
 * an environment, and the error kinds the store and the runtime report.
 */
module Repo {
  import opened Wrappers
  import Uuids

  /** The identifier `docker compose ps -q` printed for the environment's container. */
  datatype ContainerId = ContainerId(id: string)

  datatype ContainerInfo = ContainerInfo(containerId: ContainerId)

  /** What is fixed when an environment is created. */
  datatype EnvSpec = EnvSpec(uuid: Uuids.Uuid, projectPath: string, projectName: string)

  /** The unit the registry persists. */
  datatype EnvRecord = EnvRecord(spec: EnvSpec, containerInfo: ContainerInfo)

  /** How a user names an environment on the command line. */
  datatype EnvSpecifier = Uuid(uuid: Uuids.Uuid) | Path(path: string) | Name(name: string)

  /** The absolute paths of the two templates in the shared resource directory. */
  datatype SharedResources = SharedResources(dockerfileTemplate: string, composeTemplate: string)

  /** The `io::ErrorKind`s the core distinguishes. */
  datatype IoErrorKind = NotFoundKind | AlreadyExistsKind | OtherKind

  /** The error kinds of the store and the runtime; payloads the core only forwards are dropped. */
  datatype Error =
    | Db
    | UuidSyntax(text: string)
    | Io(path: Option<string>, kind: IoErrorKind)
    | YamlSer
    | YamlDe
    | InvalidComposeConfig(reason: string)
    | Command(cmd: string, spawnFailed: bool)
    | NotFound(what: string)
}
