/** The container runtime adapter: the status mapping, the environment
    extraction from a server's configuration, and the Docker-backed
    Create/Start/Stop/Remove/Status against an abstract Docker client. */
module Container {
  import opened Common
  import opened NodeModels

  // ---------------------------------------------------------------------
  // Status mapping
  // ---------------------------------------------------------------------

  /** The three state flags the adapter reads from an inspected container. */
  datatype ContainerState = ContainerState(running: bool, restarting: bool, dead: bool)

  /** The status of an inspected container; `None` is a container whose state
      could not be retrieved. The flags are read in the order running,
      restarting, dead, so an earlier flag wins over a later one. */
  function StatusOf(state: Option<ContainerState>): (s: ServerStatus)
    ensures s == StatusRunning <==> state.Some? && state.value.running
    ensures s == StatusStarting <==> state.Some? && !state.value.running && state.value.restarting
    ensures s == StatusError <==>
      state.None? || (!state.value.running && !state.value.restarting && state.value.dead)
    ensures s != StatusStopping
  {
    match state
    case None => StatusError
    case Some(st) =>
      if st.running then StatusRunning
      else if st.restarting then StatusStarting
      else if st.dead then StatusError
      else StatusStopped
  }

  // ---------------------------------------------------------------------
  // Port configuration
  // ---------------------------------------------------------------------

  /** The exposed-port set and port-binding table Docker takes. */
  datatype PortTables = PortTables(exposed: set<string>, bindings: map<string, seq<string>>)

  /** Parses `hostPort:containerPort/protocol` specs with the given parser;
      `None` stands for the nil tables. An empty list yields nil tables and no
      error whatever the parser would say; otherwise the parser decides. */
  function ParsePortConfig(ports: seq<string>, parse: seq<string> -> Result<PortTables>): (r: Result<Option<PortTables>>)
    ensures |ports| == 0 ==> r == Ok(None)
    ensures |ports| > 0 ==> (r.Ok? <==> parse(ports).Ok?)
    ensures |ports| > 0 && r.Ok? ==> r.value == Some(parse(ports).value)
    ensures |ports| > 0 && r.Err? ==> r.error == parse(ports).error
  {
    if |ports| == 0 then Ok(None)
    else match parse(ports)
      case Ok(t) => Ok(Some(t))
      case Err(e) => Err(e)
  }

  // ---------------------------------------------------------------------
  // Environment extraction
  // ---------------------------------------------------------------------

  function UpperChar(c: char): char
  {
    if 'a' <= c <= 'z' then (c as int - 32) as char else c
  }

  /** `strings.ToUpper`, for ASCII letters. */
  function UpperAscii(s: string): (u: string)
    ensures |u| == |s|
    ensures forall i :: 0 <= i < |s| ==> u[i] == UpperChar(s[i])
  {
    seq(|s|, i requires 0 <= i < |s| => UpperChar(s[i]))
  }

  /** A key is its own upper-case form exactly when it holds no lower-case letter. */
  lemma UpperFixedIffNoLower(s: string)
    ensures UpperAscii(s) == s <==> forall i :: 0 <= i < |s| ==> !('a' <= s[i] <= 'z')
  {
    if UpperAscii(s) == s {
      forall i | 0 <= i < |s| ensures !('a' <= s[i] <= 'z') {
        assert UpperAscii(s)[i] == UpperChar(s[i]);
      }
    }
  }

  /** A top-level key that looks like an environment variable name. */
  predicate LooksLikeEnvKey(k: string)
  {
    UpperAscii(k) == k && '_' in k
  }

  /** The top-level entry `k` is copied into the environment: not "env", an
      upper-case name with an underscore, and a string value. */
  predicate KeepsTopLevel(config: Config, k: string)
  {
    k in config && k != "env" && LooksLikeEnvKey(k) && config[k].Plain? && config[k].v.Str?
  }

  /** The entries of the nested "env" map, rendered with `%v`; empty when
      "env" is absent or holds anything but a map. */
  function SubEnv(config: Config): map<string, string>
  {
    if "env" !in config then map[]
    else match config["env"]
      case AnyMap(m) => map k | k in m :: Render(m[k])
      case StringMap(m) => m
      case Plain(_) => map[]
  }

  /** The entry of the nested "env" map under `k`, if there is one. */
  predicate InSubEnv(config: Config, k: string)
  {
    "env" in config &&
    ((config["env"].AnyMap? && k in config["env"].entries) ||
     (config["env"].StringMap? && k in config["env"].strings))
  }

  function SubValue(config: Config, k: string): string
    requires InSubEnv(config, k)
  {
    if config["env"].AnyMap? then Render(config["env"].entries[k]) else config["env"].strings[k]
  }

  /** The kept top-level entries among the keys in `done`. */
  function TopLevelEnv(config: Config, done: set<string>): map<string, string>
  {
    map k | k in config && k in done && KeepsTopLevel(config, k) :: config[k].v.s
  }

  /** The environment derived from a server's configuration. Keys are the
      nested "env" entries plus the kept top-level ones; a kept top-level
      value wins over a nested entry of the same name. */
  function ExtractEnv(config: Config): (env: map<string, string>)
    ensures forall k :: k in env <==> InSubEnv(config, k) || KeepsTopLevel(config, k)
    ensures forall k :: KeepsTopLevel(config, k) ==> env[k] == config[k].v.s
    ensures forall k :: InSubEnv(config, k) && !KeepsTopLevel(config, k) ==> env[k] == SubValue(config, k)
  {
    SubEnv(config) + TopLevelEnv(config, config.Keys)
  }

  /** A nil or empty configuration yields an empty environment. */
  lemma ExtractEnvEmpty()
    ensures ExtractEnv(map[]) == map[]
  {
  }

  lemma NatText5432()
    ensures NatText(5432) == "5432"
  {
    assert NatText(5) == "5";
    assert NatText(54) == "54";
    assert NatText(543) == "543";
  }

  /** The configuration of the worked example below. */
  predicate IsExampleConfig(config: Config)
  {
    config == map[
      "env" := AnyMap(map["DB_HOST" := Str("localhost"), "DB_PORT" := Int(5432)]),
      "API_KEY" := Plain(Str("secret")),
      "localonly" := Plain(Str("should be ignored"))]
  }

  lemma ExampleKept(config: Config)
    requires IsExampleConfig(config)
    ensures forall k :: KeepsTopLevel(config, k) <==> k == "API_KEY"
  {
    assert config.Keys == {"env", "API_KEY", "localonly"};
    assert UpperAscii("API_KEY") == "API_KEY";
    assert UpperAscii("localonly")[0] == 'L';
  }

  lemma ExampleSubEnv(config: Config)
    requires IsExampleConfig(config)
    ensures SubEnv(config) == map["DB_HOST" := "localhost", "DB_PORT" := "5432"]
  {
    NatText5432();
    var m := config["env"].entries;
    assert m.Keys == {"DB_HOST", "DB_PORT"};
    assert Render(m["DB_PORT"]) == "5432";
  }

  lemma ExampleTopLevel(config: Config)
    requires IsExampleConfig(config)
    ensures TopLevelEnv(config, config.Keys) == map["API_KEY" := "secret"]
  {
    ExampleKept(config);
    var top := TopLevelEnv(config, config.Keys);
    assert top.Keys == {"API_KEY"};
  }

  /** The worked example: nested entries are rendered with `%v` (5432 becomes
      "5432"), an upper-case top-level string is kept, a lower-case one is not. */
  lemma ExtractEnvExample(config: Config)
    requires IsExampleConfig(config)
    ensures ExtractEnv(config) == map["DB_HOST" := "localhost", "DB_PORT" := "5432", "API_KEY" := "secret"]
  {
    ExampleSubEnv(config);
    ExampleTopLevel(config);
  }

  /** extractEnv as the source runs it: one loop over the nested map, then one
      over the top-level keys, inserting into a fresh map. */
  method ExtractEnvLoop(config: Config) returns (env: map<string, string>)
    ensures env == ExtractEnv(config)
  {
    env := map[];
    if "env" in config {
      match config["env"]
      case AnyMap(em) =>
        env := RenderAll(em);
      case StringMap(em) =>
        env := CopyAll(em);
      case Plain(_) =>
    }
    env := AddTopLevel(config, env);
  }

  /** The loop over a nested `map[string]any`: every entry, rendered with `%v`. */
  method RenderAll(em: map<string, Scalar>) returns (env: map<string, string>)
    ensures env == map k | k in em :: Render(em[k])
  {
    env := map[];
    var pending := em.Keys;
    while pending != {}
      invariant pending <= em.Keys
      invariant env == map k | k in em && k !in pending :: Render(em[k])
      decreases pending
    {
      var k :| k in pending;
      env := env[k := Render(em[k])];
      pending := pending - {k};
    }
  }

  /** The loop over a nested `map[string]string`: every entry, as it is. */
  method CopyAll(em: map<string, string>) returns (env: map<string, string>)
    ensures env == em
  {
    env := map[];
    var pending := em.Keys;
    while pending != {}
      invariant pending <= em.Keys
      invariant env == map k | k in em && k !in pending :: em[k]
      decreases pending
    {
      var k :| k in pending;
      env := env[k := em[k]];
      pending := pending - {k};
    }
  }

  /** The loop over the top-level keys, writing each kept entry over `sub`. */
  method AddTopLevel(config: Config, sub: map<string, string>) returns (env: map<string, string>)
    ensures env == sub + TopLevelEnv(config, config.Keys)
  {
    env := sub;
    var pending := config.Keys;
    while pending != {}
      invariant pending <= config.Keys
      invariant env == sub + TopLevelEnv(config, config.Keys - pending)
      decreases pending
    {
      var k :| k in pending;
      ghost var before := config.Keys - pending;
      TopLevelStep(config, sub, before, k);
      if k != "env" && UpperAscii(k) == k && '_' in k {
        match config[k]
        case Plain(Str(s)) =>
          env := env[k := s];
        case _ =>
      }
      pending := pending - {k};
      assert config.Keys - pending == before + {k};
    }
  }

  /** Visiting one more top-level key adds its entry exactly when it is kept. */
  lemma TopLevelStep(config: Config, sub: map<string, string>, done: set<string>, k: string)
    requires k in config && k !in done
    ensures KeepsTopLevel(config, k) ==>
      sub + TopLevelEnv(config, done + {k}) == (sub + TopLevelEnv(config, done))[k := config[k].v.s]
    ensures !KeepsTopLevel(config, k) ==>
      sub + TopLevelEnv(config, done + {k}) == sub + TopLevelEnv(config, done)
  {
    if KeepsTopLevel(config, k) {
      assert TopLevelEnv(config, done + {k}) == TopLevelEnv(config, done)[k := config[k].v.s];
    } else {
      assert TopLevelEnv(config, done + {k}) == TopLevelEnv(config, done);
    }
  }

  // ---------------------------------------------------------------------
  // Environment list handed to Docker
  // ---------------------------------------------------------------------

  /** `list` holds one "k=v" entry per pair of `env`, in the key order `order`. */
  ghost predicate EnvOrder(list: seq<string>, order: seq<string>, env: map<string, string>)
  {
    && |order| == |list|
    && (forall i, j :: 0 <= i < j < |order| ==> order[i] != order[j])
    && (forall i :: 0 <= i < |order| ==> order[i] in env && list[i] == order[i] + "=" + env[order[i]])
    && (forall k :: k in env ==> k in order)
  }

  /** Builds the "k=v" list from the env map in map-iteration order, which is
      unspecified: the ghost `order` records the order that was taken. */
  method EnvList(env: map<string, string>) returns (list: seq<string>, ghost order: seq<string>)
    ensures EnvOrder(list, order, env)
    ensures |list| == |env|
  {
    list, order := [], [];
    var pending := env.Keys;
    while pending != {}
      invariant pending <= env.Keys
      invariant |order| == |list|
      invariant |order| + |pending| == |env|
      invariant forall i, j :: 0 <= i < j < |order| ==> order[i] != order[j]
      invariant forall i :: 0 <= i < |order| ==> order[i] in env && order[i] !in pending && list[i] == order[i] + "=" + env[order[i]]
      invariant forall k :: k in env ==> k in order || k in pending
      decreases pending
    {
      var k :| k in pending;
      list := list + [k + "=" + env[k]];
      order := order + [k];
      pending := pending - {k};
    }
  }

  // ---------------------------------------------------------------------
  // The Docker client seam and the adapter over it
  // ---------------------------------------------------------------------

  /** What ContainerCreate receives as container configuration. */
  datatype CreateSpec = CreateSpec(image: string, env: seq<string>, exposedPorts: Option<set<string>>)

  /** What ContainerCreate receives as host configuration; memory 0 is unset. */
  datatype HostConfig = HostConfig(portBindings: Option<map<string, seq<string>>>, memory: int)

  /** One request to the Docker engine, as recorded in the client's log. */
  datatype DockerCall =
    | PullCall(image: string)
    | CreateCall(config: CreateSpec, host: HostConfig)
    | StartCall(id: string)
    | StopCall(id: string, timeoutSeconds: int)
    | RemoveCall(id: string, force: bool)
    | InspectCall(id: string)

  /** The engine's answer to an image pull: the pull stream was refused, or
      was opened and then failed while being drained, or completed. */
  datatype PullReply = Pulled | PullFailed(error: Error) | DrainFailed(error: Error)

  /** An abstract Docker engine. Its answers are fixed functions of the calls
      made so far and of the call itself; `calls` logs every request. */
  class DockerClient {
    const onPull: (seq<DockerCall>, string) -> PullReply
    const onCreate: (seq<DockerCall>, CreateSpec, HostConfig) -> Result<string>
    const onStart: (seq<DockerCall>, string) -> Outcome
    const onStop: (seq<DockerCall>, string) -> Outcome
    const onRemove: (seq<DockerCall>, string) -> Outcome
    const onInspect: (seq<DockerCall>, string) -> Result<Option<ContainerState>>
    var calls: seq<DockerCall>

    constructor (
      onPull: (seq<DockerCall>, string) -> PullReply,
      onCreate: (seq<DockerCall>, CreateSpec, HostConfig) -> Result<string>,
      onStart: (seq<DockerCall>, string) -> Outcome,
      onStop: (seq<DockerCall>, string) -> Outcome,
      onRemove: (seq<DockerCall>, string) -> Outcome,
      onInspect: (seq<DockerCall>, string) -> Result<Option<ContainerState>>)
      ensures this.onPull == onPull && this.onCreate == onCreate && this.onStart == onStart
      ensures this.onStop == onStop && this.onRemove == onRemove && this.onInspect == onInspect
      ensures calls == []
    {
      this.onPull, this.onCreate, this.onStart := onPull, onCreate, onStart;
      this.onStop, this.onRemove, this.onInspect := onStop, onRemove, onInspect;
      calls := [];
    }

    method ImagePull(image: string) returns (r: PullReply)
      modifies this
      ensures r == onPull(old(calls), image)
      ensures calls == old(calls) + [PullCall(image)]
    {
      r := onPull(calls, image);
      calls := calls + [PullCall(image)];
    }

    method ContainerCreate(config: CreateSpec, host: HostConfig) returns (r: Result<string>)
      modifies this
      ensures r == onCreate(old(calls), config, host)
      ensures calls == old(calls) + [CreateCall(config, host)]
    {
      r := onCreate(calls, config, host);
      calls := calls + [CreateCall(config, host)];
    }

    method ContainerStart(id: string) returns (r: Outcome)
      modifies this
      ensures r == onStart(old(calls), id)
      ensures calls == old(calls) + [StartCall(id)]
    {
      r := onStart(calls, id);
      calls := calls + [StartCall(id)];
    }

    method ContainerStop(id: string, timeoutSeconds: int) returns (r: Outcome)
      modifies this
      ensures r == onStop(old(calls), id)
      ensures calls == old(calls) + [StopCall(id, timeoutSeconds)]
    {
      r := onStop(calls, id);
      calls := calls + [StopCall(id, timeoutSeconds)];
    }

    method ContainerRemove(id: string, force: bool) returns (r: Outcome)
      modifies this
      ensures r == onRemove(old(calls), id)
      ensures calls == old(calls) + [RemoveCall(id, force)]
    {
      r := onRemove(calls, id);
      calls := calls + [RemoveCall(id, force)];
    }

    method ContainerInspect(id: string) returns (r: Result<Option<ContainerState>>)
      modifies this
      ensures r == onInspect(old(calls), id)
      ensures calls == old(calls) + [InspectCall(id)]
    {
      r := onInspect(calls, id);
      calls := calls + [InspectCall(id)];
    }
  }

  /** The grace period, in seconds, given to a container before it is killed. */
  const StopTimeoutSeconds := 10

  /** The Docker-backed container manager. */
  class DockerManager {
    const cli: DockerClient
    /** The port-spec parser of the Docker connections library. */
    const parsePortSpecs: seq<string> -> Result<PortTables>

    constructor (cli: DockerClient, parsePortSpecs: seq<string> -> Result<PortTables>)
      ensures this.cli == cli && this.parsePortSpecs == parsePortSpecs
    {
      this.cli := cli;
      this.parsePortSpecs := parsePortSpecs;
    }

    /** Pulls the image, then creates a container from the configuration.
        A failed pull stops everything before ContainerCreate; the container
        gets exactly one "k=v" entry per env pair, the memory limit only when
        positive, and the id returned is the engine's. */
    method Create(cfg: ContainerConfig) returns (r: Result<string>)
      modifies cli
      ensures var pull := cli.onPull(old(cli.calls), cfg.image);
        var pulled := old(cli.calls) + [PullCall(cfg.image)];
        var ports := ParsePortConfig(cfg.ports, parsePortSpecs);
        && (pull.PullFailed? ==>
              r == Err(Wrapped("pulling image " + cfg.image, pull.error)) && cli.calls == pulled)
        && (pull.DrainFailed? ==>
              r == Err(Wrapped("reading image pull output", pull.error)) && cli.calls == pulled)
        && (pull.Pulled? && ports.Err? ==>
              r == Err(Wrapped("parsing port config", ports.error)) && cli.calls == pulled)
        && (pull.Pulled? && ports.Ok? ==>
              && |cli.calls| == |pulled| + 1
              && cli.calls[..|pulled|] == pulled
              && cli.calls[|pulled|].CreateCall?
              && var spec, host := cli.calls[|pulled|].config, cli.calls[|pulled|].host;
              && spec.image == cfg.image
              && (exists order :: EnvOrder(spec.env, order, cfg.env))
              && spec.exposedPorts == (if ports.value.Some? then Some(ports.value.value.exposed) else None)
              && host.portBindings == (if ports.value.Some? then Some(ports.value.value.bindings) else None)
              && host.memory == (if cfg.memoryLimit > 0 then cfg.memoryLimit else 0)
              && r == match cli.onCreate(pulled, spec, host)
                      case Ok(id) => Ok(id)
                      case Err(e) => Err(Wrapped("creating container", e)))
    {
      var pull := cli.ImagePull(cfg.image);
      match pull {
        case PullFailed(e) =>
          return Err(Wrapped("pulling image " + cfg.image, e));
        case DrainFailed(e) =>
          return Err(Wrapped("reading image pull output", e));
        case Pulled =>
      }
      var env, order := EnvList(cfg.env);
      var ports := ParsePortConfig(cfg.ports, parsePortSpecs);
      if ports.Err? {
        return Err(Wrapped("parsing port config", ports.error));
      }
      var exposed := if ports.value.Some? then Some(ports.value.value.exposed) else None;
      var bindings := if ports.value.Some? then Some(ports.value.value.bindings) else None;
      var spec := CreateSpec(cfg.image, env, exposed);
      var host := HostConfig(bindings, 0);
      if cfg.memoryLimit > 0 {
        host := host.(memory := cfg.memoryLimit);
      }
      var created := cli.ContainerCreate(spec, host);
      match created {
        case Ok(id) => r := Ok(id);
        case Err(e) => r := Err(Wrapped("creating container", e));
      }
    }

    method Start(id: string) returns (r: Outcome)
      modifies cli
      ensures cli.calls == old(cli.calls) + [StartCall(id)]
      ensures r == match cli.onStart(old(cli.calls), id)
                   case Pass => Pass
                   case Fail(e) => Fail(Wrapped("starting container " + id, e))
    {
      var res := cli.ContainerStart(id);
      r := if res.Fail? then Fail(Wrapped("starting container " + id, res.error)) else Pass;
    }

    /** Stops the container with a 10-second grace period. */
    method Stop(id: string) returns (r: Outcome)
      modifies cli
      ensures cli.calls == old(cli.calls) + [StopCall(id, StopTimeoutSeconds)]
      ensures r == match cli.onStop(old(cli.calls), id)
                   case Pass => Pass
                   case Fail(e) => Fail(Wrapped("stopping container " + id, e))
    {
      var res := cli.ContainerStop(id, StopTimeoutSeconds);
      r := if res.Fail? then Fail(Wrapped("stopping container " + id, res.error)) else Pass;
    }

    /** Removes the container, forcing removal of a running one. */
    method Remove(id: string) returns (r: Outcome)
      modifies cli
      ensures cli.calls == old(cli.calls) + [RemoveCall(id, true)]
      ensures r == match cli.onRemove(old(cli.calls), id)
                   case Pass => Pass
                   case Fail(e) => Fail(Wrapped("removing container " + id, e))
    {
      var res := cli.ContainerRemove(id, true);
      r := if res.Fail? then Fail(Wrapped("removing container " + id, res.error)) else Pass;
    }

    /** The lifecycle status of a container, as StatusOf maps its inspected state. */
    method Status(id: string) returns (r: Result<ServerStatus>)
      modifies cli
      ensures cli.calls == old(cli.calls) + [InspectCall(id)]
      ensures r == match cli.onInspect(old(cli.calls), id)
                   case Ok(st) => Ok(StatusOf(st))
                   case Err(e) => Err(Wrapped("inspecting container " + id, e))
    {
      var info := cli.ContainerInspect(id);
      match info {
        case Err(e) => r := Err(Wrapped("inspecting container " + id, e));
        case Ok(st) => r := Ok(StatusOf(st));
      }
    }
  }
}
