/** The managed-server record, its lifecycle status, its loosely typed
    configuration and the container settings derived from it. */
module NodeModels {
  import opened Common

  /** Lifecycle state of a managed MCP server. */
  datatype ServerStatus = StatusStopped | StatusStarting | StatusRunning | StatusStopping | StatusError

  function StatusText(s: ServerStatus): string
  {
    match s
    case StatusStopped => "stopped"
    case StatusStarting => "starting"
    case StatusRunning => "running"
    case StatusStopping => "stopping"
    case StatusError => "error"
  }

  /** A leaf of the free-form configuration (Go `any`): a string, an integral
      number, a boolean, or any other value together with the text `%v`
      prints for it (a float, a slice, a nested map, nil). */
  datatype Scalar = Str(s: string) | Int(i: int) | Bool(b: bool) | Other(shown: string)

  /** A top-level configuration value: a leaf, a `map[string]any`, or a
      `map[string]string`. */
  datatype ConfigValue =
    | Plain(v: Scalar)
    | AnyMap(entries: map<string, Scalar>)
    | StringMap(strings: map<string, string>)

  /** `map[string]any`; a nil map behaves as the empty map everywhere it is read. */
  type Config = map<string, ConfigValue>

  /** `fmt.Sprintf("%v", v)` for a configuration leaf. */
  function Render(v: Scalar): string
  {
    match v
    case Str(s) => s
    case Int(i) => IntText(i)
    case Bool(b) => if b then "true" else "false"
    case Other(shown) => shown
  }

  /** A managed MCP server instance as persisted. */
  datatype MCPServer = MCPServer(
    id: Uuid,
    ownerId: Uuid,
    name: string,
    image: string,
    status: ServerStatus,
    config: Config,
    containerId: string,
    createdAt: Time,
    updatedAt: Time)

  /** Settings for spinning up a server's container. */
  datatype ContainerConfig = ContainerConfig(
    image: string,
    env: map<string, string>,
    ports: seq<string>,
    memoryLimit: int,
    cpuLimit: real)
}
