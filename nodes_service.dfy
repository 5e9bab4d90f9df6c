/** The managed-server lifecycle: registering a server, starting and stopping
    its container, and validating a WebSocket connection, over a map-backed
    server table and an abstract container runtime. */
module NodeService {
  import opened Common
  import opened NodeModels
  import opened Container

  // ---------------------------------------------------------------------
  // The server table
  // ---------------------------------------------------------------------

  /** One request to the server table, as recorded in its log. */
  datatype RepoRequest =
    | GetRequest(id: Uuid)
    | CreateRequest(server: MCPServer)
    | UpdateRequest(server: MCPServer)
    | DeleteRequest(id: Uuid)

  /** The row UpdateServer leaves behind: name, image, status, config,
      container id and update time come from `s`; id, owner and creation
      time are never written. */
  function Persist(stored: MCPServer, s: MCPServer): (r: MCPServer)
    ensures r.id == stored.id && r.ownerId == stored.ownerId && r.createdAt == stored.createdAt
    ensures r.name == s.name && r.image == s.image && r.status == s.status && r.config == s.config
    ensures r.containerId == s.containerId && r.updatedAt == s.updatedAt
    ensures s.id == stored.id && s.ownerId == stored.ownerId && s.createdAt == stored.createdAt ==> r == s
  {
    stored.(name := s.name, image := s.image, status := s.status, config := s.config,
            containerId := s.containerId, updatedAt := s.updatedAt)
  }

  /** The `mcp_servers` table, keyed by id. Any request may fail for reasons
      outside the model (connection loss, a constraint): `fault` decides that
      from the requests made so far and the request itself. */
  class ServerRepository {
    const fault: (seq<RepoRequest>, RepoRequest) -> Option<Error>
    var servers: map<Uuid, MCPServer>
    var requests: seq<RepoRequest>

    /** Every row is stored under its own id. */
    ghost predicate Valid()
      reads this
    {
      forall k :: k in servers ==> servers[k].id == k
    }

    constructor (fault: (seq<RepoRequest>, RepoRequest) -> Option<Error>, servers: map<Uuid, MCPServer>)
      requires forall k :: k in servers ==> servers[k].id == k
      ensures Valid()
      ensures this.fault == fault && this.servers == servers && requests == []
    {
      this.fault := fault;
      this.servers := servers;
      requests := [];
    }

    /** The answer to GetServer(id): the stored row, or ErrNotFound when
        there is none. */
    function Fetched(history: seq<RepoRequest>, servers: map<Uuid, MCPServer>, id: Uuid): (r: Result<MCPServer>)
      ensures r.Ok? ==> id in servers && r.value == servers[id]
      ensures r.Err? && Is(r.error, NotFound) ==> id !in servers || fault(history, GetRequest(id)).Some?
      ensures fault(history, GetRequest(id)).None? ==> (r.Ok? <==> id in servers)
      ensures fault(history, GetRequest(id)).None? && id !in servers ==> r == Err(Sentinel(NotFound))
    {
      match fault(history, GetRequest(id))
      case Some(e) => Err(e)
      case None => if id in servers then Ok(servers[id]) else Err(Sentinel(NotFound))
    }

    /** The answer to UpdateServer(s): ErrNotFound when no row has that id. */
    function UpdateAnswer(history: seq<RepoRequest>, servers: map<Uuid, MCPServer>, s: MCPServer): (r: Outcome)
      ensures fault(history, UpdateRequest(s)).None? ==> (r.Pass? <==> s.id in servers)
      ensures fault(history, UpdateRequest(s)).None? && s.id !in servers ==> r == Fail(Sentinel(NotFound))
      ensures r.Pass? ==> s.id in servers
    {
      match fault(history, UpdateRequest(s))
      case Some(e) => Fail(e)
      case None => if s.id in servers then Pass else Fail(Sentinel(NotFound))
    }

    /** The answer to DeleteServer(id): ErrNotFound when no row has that id. */
    function DeleteAnswer(history: seq<RepoRequest>, servers: map<Uuid, MCPServer>, id: Uuid): (r: Outcome)
      ensures fault(history, DeleteRequest(id)).None? ==> (r.Pass? <==> id in servers)
      ensures fault(history, DeleteRequest(id)).None? && id !in servers ==> r == Fail(Sentinel(NotFound))
      ensures r.Pass? ==> id in servers
    {
      match fault(history, DeleteRequest(id))
      case Some(e) => Fail(e)
      case None => if id in servers then Pass else Fail(Sentinel(NotFound))
    }

    method GetServer(id: Uuid) returns (r: Result<MCPServer>)
      modifies this
      ensures r == Fetched(old(requests), old(servers), id)
      ensures requests == old(requests) + [GetRequest(id)] && servers == old(servers)
    {
      r := Fetched(requests, servers, id);
      requests := requests + [GetRequest(id)];
    }

    /** Inserts a new row; a row with the same id already present violates
        the primary key. */
    method CreateServer(s: MCPServer) returns (r: Outcome)
      requires Valid()
      modifies this
      ensures Valid()
      ensures requests == old(requests) + [CreateRequest(s)]
      ensures match fault(old(requests), CreateRequest(s))
              case Some(e) => r == Fail(e) && servers == old(servers)
              case None =>
                if s.id in old(servers) then r == Fail(DuplicateKey) && servers == old(servers)
                else r == Pass && servers == old(servers)[s.id := s]
    {
      var f := fault(requests, CreateRequest(s));
      requests := requests + [CreateRequest(s)];
      if f.Some? {
        return Fail(f.value);
      }
      if s.id in servers {
        return Fail(DuplicateKey);
      }
      servers := servers[s.id := s];
      r := Pass;
    }

    /** Writes the updatable columns of the row with `s`'s id. */
    method UpdateServer(s: MCPServer) returns (r: Outcome)
      requires Valid()
      modifies this
      ensures Valid()
      ensures r == UpdateAnswer(old(requests), old(servers), s)
      ensures requests == old(requests) + [UpdateRequest(s)]
      ensures servers == if r.Pass? then old(servers)[s.id := Persist(old(servers)[s.id], s)] else old(servers)
    {
      r := UpdateAnswer(requests, servers, s);
      requests := requests + [UpdateRequest(s)];
      if r.Pass? {
        servers := servers[s.id := Persist(servers[s.id], s)];
      }
    }

    /** Deletes the row with that id; ErrNotFound when there is none. */
    method DeleteServer(id: Uuid) returns (r: Outcome)
      requires Valid()
      modifies this
      ensures Valid()
      ensures r == DeleteAnswer(old(requests), old(servers), id)
      ensures requests == old(requests) + [DeleteRequest(id)]
      ensures servers == if r.Pass? then old(servers) - {id} else old(servers)
    {
      r := DeleteAnswer(requests, servers, id);
      requests := requests + [DeleteRequest(id)];
      if r.Pass? {
        servers := servers - {id};
      }
    }
  }

  // ---------------------------------------------------------------------
  // The container runtime seam
  // ---------------------------------------------------------------------

  /** One call to the container runtime, as recorded in its log. */
  datatype RuntimeCall =
    | CreateContainer(cfg: ContainerConfig)
    | StartContainer(id: string)
    | StopContainer(id: string)
    | RemoveContainer(id: string)

  /** An abstract container manager. Its answers are fixed functions of the
      calls made so far and of the call itself; `calls` logs every call. */
  class ContainerRuntime {
    const onCreate: (seq<RuntimeCall>, ContainerConfig) -> Result<string>
    const onStart: (seq<RuntimeCall>, string) -> Outcome
    const onStop: (seq<RuntimeCall>, string) -> Outcome
    const onRemove: (seq<RuntimeCall>, string) -> Outcome
    var calls: seq<RuntimeCall>

    constructor (
      onCreate: (seq<RuntimeCall>, ContainerConfig) -> Result<string>,
      onStart: (seq<RuntimeCall>, string) -> Outcome,
      onStop: (seq<RuntimeCall>, string) -> Outcome,
      onRemove: (seq<RuntimeCall>, string) -> Outcome)
      ensures this.onCreate == onCreate && this.onStart == onStart
      ensures this.onStop == onStop && this.onRemove == onRemove
      ensures calls == []
    {
      this.onCreate, this.onStart := onCreate, onStart;
      this.onStop, this.onRemove := onStop, onRemove;
      calls := [];
    }

    method Create(cfg: ContainerConfig) returns (r: Result<string>)
      modifies this
      ensures r == onCreate(old(calls), cfg) && calls == old(calls) + [CreateContainer(cfg)]
    {
      r := onCreate(calls, cfg);
      calls := calls + [CreateContainer(cfg)];
    }

    method Start(id: string) returns (r: Outcome)
      modifies this
      ensures r == onStart(old(calls), id) && calls == old(calls) + [StartContainer(id)]
    {
      r := onStart(calls, id);
      calls := calls + [StartContainer(id)];
    }

    method Stop(id: string) returns (r: Outcome)
      modifies this
      ensures r == onStop(old(calls), id) && calls == old(calls) + [StopContainer(id)]
    {
      r := onStop(calls, id);
      calls := calls + [StopContainer(id)];
    }

    method Remove(id: string) returns (r: Outcome)
      modifies this
      ensures r == onRemove(old(calls), id) && calls == old(calls) + [RemoveContainer(id)]
    {
      r := onRemove(calls, id);
      calls := calls + [RemoveContainer(id)];
    }
  }

  // ---------------------------------------------------------------------
  // The service
  // ---------------------------------------------------------------------

  /** The container configuration a server is launched with: its image and
      the environment derived from its config, nothing else (no ports, no
      memory or CPU limit). */
  function LaunchConfig(s: MCPServer): ContainerConfig
  {
    ContainerConfig(s.image, ExtractEnv(s.config), [], 0, 0.0)
  }

  /** The record as registration stamps it: a fresh id, status stopped and
      both timestamps set to the registration time. */
  function Registered(input: MCPServer, freshId: Uuid, now: Time): (s: MCPServer)
    ensures s.id == freshId && s.status == StatusStopped && s.createdAt == now && s.updatedAt == now
    ensures s.ownerId == input.ownerId && s.name == input.name && s.image == input.image
    ensures s.config == input.config && s.containerId == input.containerId
  {
    input.(id := freshId, status := StatusStopped, createdAt := now, updatedAt := now)
  }

  /** ConnectWebSocket's check on the lookup: a lookup error is returned as
      it is; a found server must be running. */
  function ValidateConnect(got: Result<MCPServer>): (r: Outcome)
    ensures got.Err? ==> r == Fail(got.error)
    ensures got.Ok? ==> (r == Pass <==> got.value.status == StatusRunning)
    ensures got.Ok? ==> (r == Fail(Sentinel(ContainerNotAvailable)) <==> got.value.status != StatusRunning)
  {
    match got
    case Err(e) => Fail(e)
    case Ok(s) => if s.status != StatusRunning then Fail(Sentinel(ContainerNotAvailable)) else Pass
  }

  /** The Managed MCP service: a server table and an optional container
      runtime (`null` when no container manager is configured). */
  class NodeService {
    const repo: ServerRepository
    const runtime: ContainerRuntime?

    constructor (repo: ServerRepository, runtime: ContainerRuntime?)
      ensures this.repo == repo && this.runtime == runtime
    {
      this.repo := repo;
      this.runtime := runtime;
    }

    method GetServer(id: Uuid) returns (r: Result<MCPServer>)
      modifies repo
      ensures r == repo.Fetched(old(repo.requests), old(repo.servers), id)
      ensures repo.requests == old(repo.requests) + [GetRequest(id)] && repo.servers == old(repo.servers)
    {
      r := repo.GetServer(id);
    }

    method RemoveServer(id: Uuid) returns (r: Outcome)
      requires repo.Valid()
      modifies repo
      ensures repo.Valid()
      ensures r == repo.DeleteAnswer(old(repo.requests), old(repo.servers), id)
      ensures repo.requests == old(repo.requests) + [DeleteRequest(id)]
      ensures repo.servers == if r.Pass? then old(repo.servers) - {id} else old(repo.servers)
    {
      r := repo.DeleteServer(id);
    }

    /** Stamps the record (the caller sees the stamped record whatever the
        outcome) and inserts it. */
    method RegisterServer(input: MCPServer, freshId: Uuid, now: Time) returns (r: Outcome, server: MCPServer)
      requires repo.Valid()
      modifies repo
      ensures repo.Valid()
      ensures server == Registered(input, freshId, now)
      ensures repo.requests == old(repo.requests) + [CreateRequest(server)]
      ensures r.Pass? ==> repo.servers == old(repo.servers)[freshId := server]
      ensures r.Fail? ==> repo.servers == old(repo.servers)
      ensures repo.fault(old(repo.requests), CreateRequest(server)).None? && freshId !in old(repo.servers) ==> r.Pass?
    {
      server := Registered(input, freshId, now);
      r := repo.CreateServer(server);
    }

    /** What StartServer does: the outcome and the new state of the table
        and the runtime, from the state before the call. */
    twostate predicate StartContract(id: Uuid, now: Time, r: Outcome)
      reads this, repo, runtime
    {
      && (runtime == null ==>
          && r == Fail(Sentinel(ContainerNotAvailable))
          && repo.requests == old(repo.requests) && repo.servers == old(repo.servers))
      && (runtime != null ==>
          var got := repo.Fetched(old(repo.requests), old(repo.servers), id);
          var fetched := old(repo.requests) + [GetRequest(id)];
          && (got.Err? ==>
                && r == Fail(Wrapped("getting server", got.error))
                && repo.requests == fetched && repo.servers == old(repo.servers)
                && runtime.calls == old(runtime.calls))
          && (got.Ok? ==>
                var cfg := LaunchConfig(got.value);
                var created := runtime.onCreate(old(runtime.calls), cfg);
                var afterCreate := old(runtime.calls) + [CreateContainer(cfg)];
                && (created.Err? ==>
                      && r == Fail(Wrapped("creating container", created.error))
                      && runtime.calls == afterCreate
                      && repo.requests == fetched && repo.servers == old(repo.servers))
                && (created.Ok? ==>
                      var cid := created.value;
                      var started := runtime.onStart(afterCreate, cid);
                      var afterStart := afterCreate + [StartContainer(cid)];
                      && (started.Fail? ==>
                            && r == Fail(Wrapped("starting container", started.error))
                            && runtime.calls == afterStart + [RemoveContainer(cid)]
                            && repo.requests == fetched && repo.servers == old(repo.servers))
                      && (started.Pass? ==>
                            var rec := got.value.(status := StatusRunning, containerId := cid, updatedAt := now);
                            var upd := repo.UpdateAnswer(fetched, old(repo.servers), rec);
                            && runtime.calls == afterStart
                            && repo.requests == fetched + [UpdateRequest(rec)]
                            && (upd.Pass? ==> r == Pass && repo.servers == old(repo.servers)[id := rec])
                            && (upd.Fail? ==>
                                  r == Fail(Wrapped("updating server", upd.error)) && repo.servers == old(repo.servers))))))
    }

    /** Launches the server's container and records it as running. Without a
        runtime nothing is touched. A failed Start removes the container just
        created (ignoring that outcome); a failed final update removes
        nothing. The record's current status is not consulted. */
    method StartServer(id: Uuid, now: Time) returns (r: Outcome)
      requires repo.Valid()
      modifies repo, runtime
      ensures repo.Valid()
      ensures StartContract(id, now, r)
    {
      if runtime == null {
        return Fail(Sentinel(ContainerNotAvailable));
      }
      var got := repo.GetServer(id);
      if got.Err? {
        return Fail(Wrapped("getting server", got.error));
      }
      var server := got.value;
      var cfg := LaunchConfig(server);
      var created := runtime.Create(cfg);
      if created.Err? {
        return Fail(Wrapped("creating container", created.error));
      }
      var cid := created.value;
      var started := runtime.Start(cid);
      if started.Fail? {
        var _ := runtime.Remove(cid);
        return Fail(Wrapped("starting container", started.error));
      }
      server := server.(status := StatusRunning, containerId := cid, updatedAt := now);
      var upd := repo.UpdateServer(server);
      if upd.Fail? {
        return Fail(Wrapped("updating server", upd.error));
      }
      r := Pass;
    }

    /** What StopServer does: the outcome and the new state of the table
        and the runtime, from the state before the call. */
    twostate predicate StopContract(id: Uuid, now: Time, r: Outcome)
      reads this, repo, runtime
    {
      && (runtime == null ==>
          && r == Fail(Sentinel(ContainerNotAvailable))
          && repo.requests == old(repo.requests) && repo.servers == old(repo.servers))
      && (runtime != null ==>
          var got := repo.Fetched(old(repo.requests), old(repo.servers), id);
          var fetched := old(repo.requests) + [GetRequest(id)];
          && (got.Err? ==>
                && r == Fail(Wrapped("getting server", got.error))
                && repo.requests == fetched && repo.servers == old(repo.servers)
                && runtime.calls == old(runtime.calls))
          && (got.Ok? ==>
                var cid := got.value.containerId;
                var stopped := runtime.onStop(old(runtime.calls), cid);
                var afterStop := old(runtime.calls) + [StopContainer(cid)];
                var removed := runtime.onRemove(afterStop, cid);
                && (cid != "" && stopped.Fail? ==>
                      && r == Fail(Wrapped("stopping container", stopped.error))
                      && runtime.calls == afterStop
                      && repo.requests == fetched && repo.servers == old(repo.servers))
                && (cid != "" && stopped.Pass? && removed.Fail? ==>
                      && r == Fail(Wrapped("removing container", removed.error))
                      && runtime.calls == afterStop + [RemoveContainer(cid)]
                      && repo.requests == fetched && repo.servers == old(repo.servers))
                && (cid == "" || (stopped.Pass? && removed.Pass?) ==>
                      var rec := got.value.(status := StatusStopped, containerId := "", updatedAt := now);
                      var upd := repo.UpdateAnswer(fetched, old(repo.servers), rec);
                      && runtime.calls == StopCalls(old(runtime.calls), cid)
                      && repo.requests == fetched + [UpdateRequest(rec)]
                      && (upd.Pass? ==> r == Pass && repo.servers == old(repo.servers)[id := rec])
                      && (upd.Fail? ==>
                            r == Fail(Wrapped("updating server", upd.error)) && repo.servers == old(repo.servers)))))
    }

    /** Stops and removes the server's container, if it has one, and records
        it as stopped without a container. A Stop or Remove failure returns
        before the record is written. */
    method StopServer(id: Uuid, now: Time) returns (r: Outcome)
      requires repo.Valid()
      modifies repo, runtime
      ensures repo.Valid()
      ensures StopContract(id, now, r)
    {
      if runtime == null {
        return Fail(Sentinel(ContainerNotAvailable));
      }
      var got := repo.GetServer(id);
      if got.Err? {
        return Fail(Wrapped("getting server", got.error));
      }
      var server := got.value;
      if server.containerId != "" {
        var stopped := runtime.Stop(server.containerId);
        if stopped.Fail? {
          return Fail(Wrapped("stopping container", stopped.error));
        }
        var removed := runtime.Remove(server.containerId);
        if removed.Fail? {
          return Fail(Wrapped("removing container", removed.error));
        }
      }
      server := server.(status := StatusStopped, containerId := "", updatedAt := now);
      var upd := repo.UpdateServer(server);
      if upd.Fail? {
        return Fail(Wrapped("updating server", upd.error));
      }
      r := Pass;
    }

    /** Checks that the server exists and is running; the WebSocket upgrade
        itself belongs to the handler. Needs no container runtime. */
    method ConnectWebSocket(id: Uuid) returns (r: Outcome)
      modifies repo
      ensures r == ValidateConnect(repo.Fetched(old(repo.requests), old(repo.servers), id))
      ensures repo.requests == old(repo.requests) + [GetRequest(id)] && repo.servers == old(repo.servers)
    {
      var got := repo.GetServer(id);
      r := ValidateConnect(got);
    }
  }

  /** The runtime log after a successful stop sequence for container `cid`:
      Stop then Remove, or nothing when the record has no container. */
  function StopCalls(before: seq<RuntimeCall>, cid: string): (after: seq<RuntimeCall>)
    ensures cid == "" ==> after == before
    ensures cid != "" ==> |after| == |before| + 2 && after[|before|..] == [StopContainer(cid), RemoveContainer(cid)]
  {
    if cid == "" then before else before + [StopContainer(cid), RemoveContainer(cid)]
  }

  /** The lifecycle against a table that never fails and a runtime that
      always succeeds: start, stop, and stop again. The second stop finds no
      container and makes no runtime call, yet still writes the record. */
  method StartStopStop(owner: Uuid, id: Uuid) returns (outcomes: seq<Outcome>, log: seq<RuntimeCall>, stored: MCPServer)
    ensures outcomes == [Pass, Pass, Pass]
    ensures log == [CreateContainer(ContainerConfig("mcp:latest", map[], [], 0, 0.0)),
                    StartContainer("container-abc"), StopContainer("container-abc"), RemoveContainer("container-abc")]
    ensures stored == MCPServer(id, owner, "test-server", "mcp:latest", StatusStopped, map[], "", 0, 3)
  {
    var rec := MCPServer(id, owner, "test-server", "mcp:latest", StatusStopped, map[], "", 0, 0);
    var repo := new ServerRepository((h, q) => None, map[id := rec]);
    var rt := new ContainerRuntime((h, c) => Ok("container-abc"), (h, c) => Pass, (h, c) => Pass, (h, c) => Pass);
    var svc := new NodeService(repo, rt);
    ExtractEnvEmpty();
    var launch := ContainerConfig("mcp:latest", map[], [], 0, 0.0);
    assert LaunchConfig(rec) == launch;
    var started := svc.StartServer(id, 1);
    var running := rec.(status := StatusRunning, containerId := "container-abc", updatedAt := 1);
    assert started == Pass && repo.servers == map[id := running];
    assert rt.calls == [CreateContainer(launch), StartContainer("container-abc")];
    var stopped := svc.StopServer(id, 2);
    var halted := running.(status := StatusStopped, containerId := "", updatedAt := 2);
    assert stopped == Pass && repo.servers == map[id := halted];
    assert rt.calls == [CreateContainer(launch), StartContainer("container-abc"),
                        StopContainer("container-abc"), RemoveContainer("container-abc")];
    var again := svc.StopServer(id, 3);
    outcomes := [started, stopped, again];
    log := rt.calls;
    stored := repo.servers[id];
  }
}
