/** The HTTP and WebSocket endpoints of the Managed MCP module: the mapping of
    service errors to responses, the id gate in front of every `{id}` route,
    and the WebSocket relay with its two message pumps. */
module NodeHandler {
  import opened Common
  import opened NodeModels
  import opened NodeService

  // ---------------------------------------------------------------------
  // Responses
  // ---------------------------------------------------------------------

  /** The JSON body written: `{"error": message}`, `{"status": status}`, a
      server record, or nothing. */
  datatype Body = ErrorBody(message: string) | StatusBody(status: string) | ServerBody(server: MCPServer) | NoBody

  datatype Response = Response(code: int, body: Body)

  /** The 400 written when the `{id}` path segment is not a UUID. */
  const InvalidId := Response(400, ErrorBody("invalid server id"))

  /** handleServiceError: the response for an error from the service,
      decided by errors.Is in the order NotFound, ContainerNotAvailable,
      NotImplemented. */
  function HandleServiceError(e: Error): (resp: Response)
    ensures resp.code in {404, 503, 501, 500} && resp.body.ErrorBody?
  {
    if Is(e, NotFound) then Response(404, ErrorBody("not found"))
    else if Is(e, ContainerNotAvailable) then Response(503, ErrorBody("container runtime not available"))
    else if Is(e, NotImplemented) then Response(501, ErrorBody("not implemented"))
    else Response(500, ErrorBody("internal server error"))
  }

  /** Each status answers exactly one sentinel, whatever its position in the
      switch, and the message is that sentinel's own text; every other error
      is a 500 that reveals nothing. */
  lemma HandleServiceErrorIff(e: Error)
    ensures HandleServiceError(e).code == 404 <==> Is(e, NotFound)
    ensures HandleServiceError(e).code == 503 <==> Is(e, ContainerNotAvailable)
    ensures HandleServiceError(e).code == 501 <==> Is(e, NotImplemented)
    ensures HandleServiceError(e).code == 500 ==> HandleServiceError(e).body == ErrorBody("internal server error")
    ensures HandleServiceError(e).code != 500 ==>
      exists k :: Is(e, k) && HandleServiceError(e).body == ErrorBody(SentinelText(k))
  {
    if Is(e, ContainerNotAvailable) && Is(e, NotFound) {
      SentinelUnique(e, ContainerNotAvailable, NotFound);
    }
    if Is(e, NotImplemented) && Is(e, NotFound) {
      SentinelUnique(e, NotImplemented, NotFound);
    }
    if Is(e, NotImplemented) && Is(e, ContainerNotAvailable) {
      SentinelUnique(e, NotImplemented, ContainerNotAvailable);
    }
  }

  /** A service error answers the same however many times it was wrapped. */
  lemma WrappedErrorSameResponse(contexts: seq<string>, e: Error)
    ensures HandleServiceError(WrapAll(contexts, e)) == HandleServiceError(e)
  {
    WrapAllKeepsIdentity(contexts, e, NotFound);
    WrapAllKeepsIdentity(contexts, e, ContainerNotAvailable);
    WrapAllKeepsIdentity(contexts, e, NotImplemented);
  }

  /** The response of a route that reports a bare service outcome. */
  function OutcomeResponse(r: Outcome, success: Response): (resp: Response)
    ensures r.Pass? ==> resp == success
    ensures r.Fail? ==> resp == HandleServiceError(r.error)
  {
    match r
    case Pass => success
    case Fail(e) => HandleServiceError(e)
  }

  // ---------------------------------------------------------------------
  // The backend address
  // ---------------------------------------------------------------------

  const DefaultBackendPort := "8080"
  const BackendPrefix := "ws://localhost:"

  /** The backend port: `config["ws_port"]` when it holds a string, "8080"
      for a missing entry or any other kind of value. */
  function BackendPort(config: Config): (port: string)
    ensures ("ws_port" in config && config["ws_port"] == Plain(Str(port))) || port == DefaultBackendPort
    ensures "ws_port" in config && config["ws_port"].Plain? && config["ws_port"].v.Str? ==> port == config["ws_port"].v.s
    ensures ("ws_port" !in config || !(config["ws_port"].Plain? && config["ws_port"].v.Str?)) ==> port == DefaultBackendPort
  {
    if "ws_port" in config && config["ws_port"].Plain? && config["ws_port"].v.Str? then config["ws_port"].v.s
    else DefaultBackendPort
  }

  function BackendUrl(config: Config): (url: string)
    ensures |url| >= |BackendPrefix| && url[..|BackendPrefix|] == BackendPrefix
    ensures url[|BackendPrefix|..] == BackendPort(config)
  {
    BackendPrefix + BackendPort(config)
  }

  // ---------------------------------------------------------------------
  // Frames and the rate-limit reply
  // ---------------------------------------------------------------------

  newtype byte = b: int | 0 <= b < 256

  /** A WebSocket message: its type (text, binary, ...) and payload. */
  datatype Frame = Frame(kind: int, payload: seq<byte>)

  /** The bytes of a Go string literal; every character of the literals
      used here is ASCII and becomes the byte of the same value. */
  function Bytes(s: string): (b: seq<byte>)
    ensures |b| == |s|
    ensures forall i :: 0 <= i < |s| && s[i] as int < 256 ==> b[i] as int == s[i] as int
  {
    seq(|s|, i requires 0 <= i < |s| => (s[i] as int % 256) as byte)
  }

  /** The JSON-RPC 2.0 error code sent when a message is rate limited; it
      lies in the range -32099..-32000 that section 5.1 of the JSON-RPC 2.0
      specification reserves for implementation-defined server errors. */
  const RateLimitCode := -32005

  const RateLimitText := "{\"jsonrpc\":\"2.0\",\"error\":{\"code\":-32005,\"message\":\"Rate limit exceeded\"},\"id\":null}"

  /** The reply to a rate-limited message: the fixed error object, in the
      same message type as the message it answers. */
  function LimitReply(f: Frame): (reply: Frame)
    ensures reply.kind == f.kind
    ensures reply.payload == Bytes(RateLimitText)
  {
    Frame(f.kind, Bytes(RateLimitText))
  }

  /** Close code 1011, "internal error" (section 7.4.1 of RFC 6455). */
  const CloseInternalServerErr := 1011

  // ---------------------------------------------------------------------
  // Client to backend
  // ---------------------------------------------------------------------

  /** What the client-to-backend pump did: frames written to the backend,
      rate-limit replies written to the client, frames read from the client. */
  datatype ClientPumpResult = ClientPumpResult(toBackend: seq<Frame>, toClient: seq<Frame>, read: nat)

  function Join(a: ClientPumpResult, b: ClientPumpResult): ClientPumpResult
  {
    ClientPumpResult(a.toBackend + b.toBackend, a.toClient + b.toClient, a.read + b.read)
  }

  /** The pump over the frames the client sends, `inbound[0]` being the
      `n`-th. When `limited`, the limiter is consulted once per frame and
      `verdict(n)` is its answer; a refused frame is answered with the
      rate-limit reply and dropped. The backend accepts `capacity` more
      writes; the first write past that fails and ends the pump. */
  function ClientPump(inbound: seq<Frame>, limited: bool, verdict: nat -> bool, capacity: nat, n: nat): ClientPumpResult
    decreases |inbound|
  {
    if inbound == [] then ClientPumpResult([], [], 0)
    else if limited && !verdict(n) then
      Join(ClientPumpResult([], [LimitReply(inbound[0])], 1), ClientPump(inbound[1..], limited, verdict, capacity, n + 1))
    else if capacity == 0 then ClientPumpResult([], [], 1)
    else Join(ClientPumpResult([inbound[0]], [], 1), ClientPump(inbound[1..], limited, verdict, capacity - 1, n + 1))
  }

  /** The frames the limiter lets through, in arrival order. */
  function AllowedFrames(inbound: seq<Frame>, limited: bool, verdict: nat -> bool, n: nat): seq<Frame>
    decreases |inbound|
  {
    if inbound == [] then []
    else (if !limited || verdict(n) then [inbound[0]] else []) + AllowedFrames(inbound[1..], limited, verdict, n + 1)
  }

  /** The replies owed to the frames the limiter refuses, in arrival order. */
  function DeniedReplies(inbound: seq<Frame>, limited: bool, verdict: nat -> bool, n: nat): seq<Frame>
    decreases |inbound|
  {
    if inbound == [] then []
    else (if limited && !verdict(n) then [LimitReply(inbound[0])] else []) + DeniedReplies(inbound[1..], limited, verdict, n + 1)
  }

  /** Without a limiter every frame is allowed and none is answered. */
  lemma {:induction false} UnlimitedAllowsAll(inbound: seq<Frame>, verdict: nat -> bool, n: nat)
    ensures AllowedFrames(inbound, false, verdict, n) == inbound
    ensures DeniedReplies(inbound, false, verdict, n) == []
    decreases |inbound|
  {
    if inbound != [] {
      UnlimitedAllowsAll(inbound[1..], verdict, n + 1);
    }
  }

  /** Each frame is either forwarded or answered, never both. */
  lemma {:induction false} AllowedPlusDenied(inbound: seq<Frame>, limited: bool, verdict: nat -> bool, n: nat)
    ensures |AllowedFrames(inbound, limited, verdict, n)| + |DeniedReplies(inbound, limited, verdict, n)| == |inbound|
    decreases |inbound|
  {
    if inbound != [] {
      AllowedPlusDenied(inbound[1..], limited, verdict, n + 1);
    }
  }

  /** The backend receives a prefix of the allowed frames and the client a
      prefix of the replies owed; while the backend accepts every write, it
      receives exactly the allowed frames, the client exactly the replies,
      and every frame is read (so the limiter is consulted once per frame). */
  lemma {:induction false} ClientPumpForwardsAllowed(inbound: seq<Frame>, limited: bool, verdict: nat -> bool, capacity: nat, n: nat)
    ensures var p := ClientPump(inbound, limited, verdict, capacity, n);
      && p.toBackend <= AllowedFrames(inbound, limited, verdict, n)
      && p.toClient <= DeniedReplies(inbound, limited, verdict, n)
      && p.read <= |inbound|
      && |p.toBackend| <= capacity
    ensures capacity >= |AllowedFrames(inbound, limited, verdict, n)| ==>
      var p := ClientPump(inbound, limited, verdict, capacity, n);
      && p.toBackend == AllowedFrames(inbound, limited, verdict, n)
      && p.toClient == DeniedReplies(inbound, limited, verdict, n)
      && p.read == |inbound|
    decreases |inbound|
  {
    if inbound != [] {
      if limited && !verdict(n) {
        ClientPumpForwardsAllowed(inbound[1..], limited, verdict, capacity, n + 1);
      } else if capacity > 0 {
        ClientPumpForwardsAllowed(inbound[1..], limited, verdict, capacity - 1, n + 1);
      }
    }
  }

  /** With no limiter configured and a backend that accepts every write,
      the backend receives every client frame, unchanged and in order, and
      the client is sent nothing. */
  lemma UnlimitedPumpForwardsEverything(inbound: seq<Frame>, verdict: nat -> bool, capacity: nat)
    requires capacity >= |inbound|
    ensures ClientPump(inbound, false, verdict, capacity, 0) == ClientPumpResult(inbound, [], |inbound|)
  {
    UnlimitedAllowsAll(inbound, verdict, 0);
    ClientPumpForwardsAllowed(inbound, false, verdict, capacity, 0);
  }

  /** The client-to-backend loop: read a frame; if the limiter refuses it,
      answer it and go on; otherwise write it to the backend, stopping at the
      first failed write. The loop also ends when the client has nothing more
      to send. */
  method ClientToBackend(inbound: seq<Frame>, limited: bool, verdict: nat -> bool, capacity: nat)
    returns (toBackend: seq<Frame>, toClient: seq<Frame>, read: nat)
    ensures ClientPumpResult(toBackend, toClient, read) == ClientPump(inbound, limited, verdict, capacity, 0)
  {
    toBackend, toClient, read := [], [], 0;
    ghost var whole := ClientPump(inbound, limited, verdict, capacity, 0);
    ghost var rest := whole;
    var left, failed := capacity, false;
    while read < |inbound| && !failed
      invariant read <= |inbound| && |toBackend| + left == capacity
      invariant rest == if failed then ClientPumpResult([], [], 0) else ClientPump(inbound[read..], limited, verdict, left, read)
      invariant whole == Join(ClientPumpResult(toBackend, toClient, read), rest)
      decreases |inbound| - read
    {
      var frame := inbound[read];
      ClientPumpUnfold(inbound, read, limited, verdict, left);
      if limited && !verdict(read) {
        rest := ClientPump(inbound[read + 1..], limited, verdict, left, read + 1);
        JoinStep(toBackend, toClient, read, [], [LimitReply(frame)], rest);
        toClient := toClient + [LimitReply(frame)];
      } else if left == 0 {
        failed := true;
        rest := ClientPumpResult([], [], 0);
      } else {
        rest := ClientPump(inbound[read + 1..], limited, verdict, left - 1, read + 1);
        JoinStep(toBackend, toClient, read, [frame], [], rest);
        toBackend := toBackend + [frame];
        left := left - 1;
      }
      read := read + 1;
    }
    if !failed {
      assert inbound[read..] == [];
    }
  }

  /** Moving one step of the pump from the remainder into the prefix. */
  lemma JoinStep(toBackend: seq<Frame>, toClient: seq<Frame>, read: nat, b: seq<Frame>, c: seq<Frame>, rest: ClientPumpResult)
    ensures Join(ClientPumpResult(toBackend, toClient, read), Join(ClientPumpResult(b, c, 1), rest))
         == Join(ClientPumpResult(toBackend + b, toClient + c, read + 1), rest)
  {
    assert toBackend + (b + rest.toBackend) == (toBackend + b) + rest.toBackend;
    assert toClient + (c + rest.toClient) == (toClient + c) + rest.toClient;
  }

  /** One step of the pump, taken at position `i` of the stream. */
  lemma ClientPumpUnfold(inbound: seq<Frame>, i: nat, limited: bool, verdict: nat -> bool, capacity: nat)
    requires i < |inbound|
    ensures var here := ClientPump(inbound[i..], limited, verdict, capacity, i);
      if limited && !verdict(i) then
        var rest := ClientPump(inbound[i + 1..], limited, verdict, capacity, i + 1);
        here == ClientPumpResult(rest.toBackend, [LimitReply(inbound[i])] + rest.toClient, 1 + rest.read)
      else if capacity == 0 then here == ClientPumpResult([], [], 1)
      else
        var rest := ClientPump(inbound[i + 1..], limited, verdict, capacity - 1, i + 1);
        here == ClientPumpResult([inbound[i]] + rest.toBackend, rest.toClient, 1 + rest.read)
  {
    assert inbound[i..][1..] == inbound[i + 1..];
  }

  // ---------------------------------------------------------------------
  // Backend to client
  // ---------------------------------------------------------------------

  function Min(a: nat, b: nat): nat
  {
    if a <= b then a else b
  }

  /** The backend-to-client loop: every frame the backend sends is written
      to the client unchanged and in order, with no rate limiting, until the
      backend has nothing more to send or a write to the client fails (the
      client accepts `capacity` writes). */
  method BackendToClient(frames: seq<Frame>, capacity: nat) returns (toClient: seq<Frame>)
    ensures toClient == frames[..Min(|frames|, capacity)]
  {
    toClient := [];
    var i := 0;
    while i < |frames|
      invariant i <= |frames| && i <= capacity
      invariant toClient == frames[..i]
      decreases |frames| - i
    {
      if i == capacity {
        break;
      }
      toClient := toClient + [frames[i]];
      i := i + 1;
    }
  }

  // ---------------------------------------------------------------------
  // The endpoints
  // ---------------------------------------------------------------------

  /** What the network does during a WebSocket session: whether the upgrade
      succeeds, which backend URLs can be dialled, what each side sends, the
      limiter's answers, and how many writes each side accepts. */
  datatype Peers = Peers(
    upgradeOk: bool,
    dialOk: string -> bool,
    fromClient: seq<Frame>,
    fromBackend: seq<Frame>,
    verdict: nat -> bool,
    backendCapacity: nat,
    clientCapacity: nat)

  /** How a WebSocket request ends: answered over HTTP before any upgrade; the
      upgrade failed; upgraded and then closed with a close frame before any
      relaying; or relayed, with what each direction carried. */
  datatype Session =
    | Rejected(resp: Response)
    | UpgradeFailed
    | Closed(code: int, reason: string)
    | Relayed(url: string, toBackend: seq<Frame>, replies: seq<Frame>, toClient: seq<Frame>)

  /** The HTTP handler over the service. `parse` is uuid.Parse; `limited`
      says whether a per-server rate limiter is configured. */
  class Handler {
    const svc: NodeService
    const parse: string -> Option<Uuid>
    const limited: bool

    constructor (svc: NodeService, parse: string -> Option<Uuid>, limited: bool)
      ensures this.svc == svc && this.parse == parse && this.limited == limited
    {
      this.svc := svc;
      this.parse := parse;
      this.limited := limited;
    }

    /** GET /{id}: the record, or the mapped service error. */
    method GetServer(raw: string) returns (resp: Response)
      modifies svc.repo
      ensures svc.repo.servers == old(svc.repo.servers)
      ensures parse(raw).None? ==> resp == InvalidId && svc.repo.requests == old(svc.repo.requests)
      ensures parse(raw).Some? ==>
        var got := svc.repo.Fetched(old(svc.repo.requests), old(svc.repo.servers), parse(raw).value);
        && svc.repo.requests == old(svc.repo.requests) + [GetRequest(parse(raw).value)]
        && resp == if got.Ok? then Response(200, ServerBody(got.value)) else HandleServiceError(got.error)
    {
      var id := parse(raw);
      if id.None? {
        return InvalidId;
      }
      var got := svc.GetServer(id.value);
      if got.Err? {
        return HandleServiceError(got.error);
      }
      resp := Response(200, ServerBody(got.value));
    }

    /** DELETE /{id}: 204 with no body, or the mapped service error. */
    method RemoveServer(raw: string) returns (resp: Response)
      requires svc.repo.Valid()
      modifies svc.repo
      ensures svc.repo.Valid()
      ensures parse(raw).None? ==>
        resp == InvalidId && svc.repo.requests == old(svc.repo.requests) && svc.repo.servers == old(svc.repo.servers)
      ensures parse(raw).Some? ==>
        var id := parse(raw).value;
        var r := svc.repo.DeleteAnswer(old(svc.repo.requests), old(svc.repo.servers), id);
        && svc.repo.requests == old(svc.repo.requests) + [DeleteRequest(id)]
        && svc.repo.servers == (if r.Pass? then old(svc.repo.servers) - {id} else old(svc.repo.servers))
        && resp == OutcomeResponse(r, Response(204, NoBody))
    {
      var id := parse(raw);
      if id.None? {
        return InvalidId;
      }
      var r := svc.RemoveServer(id.value);
      resp := OutcomeResponse(r, Response(204, NoBody));
    }

    /** POST /{id}/start: `{"status":"started"}`, or the mapped service
        error. A malformed id reaches neither the table nor the runtime. */
    method StartServer(raw: string, now: Time) returns (resp: Response, ghost outcome: Option<Outcome>)
      requires svc.repo.Valid()
      modifies svc.repo, svc.runtime
      ensures svc.repo.Valid()
      ensures parse(raw).None? ==>
        && resp == InvalidId && outcome == None
        && svc.repo.requests == old(svc.repo.requests) && svc.repo.servers == old(svc.repo.servers)
        && (svc.runtime != null ==> svc.runtime.calls == old(svc.runtime.calls))
      ensures parse(raw).Some? ==>
        && outcome.Some?
        && svc.StartContract(parse(raw).value, now, outcome.value)
        && resp == OutcomeResponse(outcome.value, Response(200, StatusBody("started")))
    {
      var id := parse(raw);
      if id.None? {
        return InvalidId, None;
      }
      var r := svc.StartServer(id.value, now);
      outcome := Some(r);
      resp := OutcomeResponse(r, Response(200, StatusBody("started")));
    }

    /** POST /{id}/stop: `{"status":"stopped"}`, or the mapped service
        error. A malformed id reaches neither the table nor the runtime. */
    method StopServer(raw: string, now: Time) returns (resp: Response, ghost outcome: Option<Outcome>)
      requires svc.repo.Valid()
      modifies svc.repo, svc.runtime
      ensures svc.repo.Valid()
      ensures parse(raw).None? ==>
        && resp == InvalidId && outcome == None
        && svc.repo.requests == old(svc.repo.requests) && svc.repo.servers == old(svc.repo.servers)
        && (svc.runtime != null ==> svc.runtime.calls == old(svc.runtime.calls))
      ensures parse(raw).Some? ==>
        && outcome.Some?
        && svc.StopContract(parse(raw).value, now, outcome.value)
        && resp == OutcomeResponse(outcome.value, Response(200, StatusBody("stopped")))
    {
      var id := parse(raw);
      if id.None? {
        return InvalidId, None;
      }
      var r := svc.StopServer(id.value, now);
      outcome := Some(r);
      resp := OutcomeResponse(r, Response(200, StatusBody("stopped")));
    }

    /** GET /{id}/ws: validate, upgrade, look the server up again for its
        port, dial the backend, then relay in both directions. The two pumps
        run concurrently in the handler; here each is run on its own. */
    method ConnectWebSocket(raw: string, peers: Peers) returns (session: Session)
      modifies svc.repo
      ensures svc.repo.servers == old(svc.repo.servers)
      ensures parse(raw).None? ==> session == Rejected(InvalidId) && svc.repo.requests == old(svc.repo.requests)
      ensures parse(raw).Some? ==>
        var id := parse(raw).value;
        var h0 := old(svc.repo.requests);
        var check := ValidateConnect(svc.repo.Fetched(h0, old(svc.repo.servers), id));
        && (check.Fail? ==>
              session == Rejected(HandleServiceError(check.error)) && svc.repo.requests == h0 + [GetRequest(id)])
        && (check.Pass? && !peers.upgradeOk ==>
              session == UpgradeFailed && svc.repo.requests == h0 + [GetRequest(id)])
        && (check.Pass? && peers.upgradeOk ==>
              var again := svc.repo.Fetched(h0 + [GetRequest(id)], old(svc.repo.servers), id);
              && svc.repo.requests == h0 + [GetRequest(id), GetRequest(id)]
              && (again.Err? ==> session == Closed(CloseInternalServerErr, "server not found"))
              && (again.Ok? && !peers.dialOk(BackendUrl(again.value.config)) ==>
                    session == Closed(CloseInternalServerErr, "backend connection failed"))
              && (again.Ok? && peers.dialOk(BackendUrl(again.value.config)) ==>
                    var up := ClientPump(peers.fromClient, limited, peers.verdict, peers.backendCapacity, 0);
                    session == Relayed(BackendUrl(again.value.config), up.toBackend, up.toClient,
                                       peers.fromBackend[..Min(|peers.fromBackend|, peers.clientCapacity)])))
    {
      var id := parse(raw);
      if id.None? {
        return Rejected(InvalidId);
      }
      var check := svc.ConnectWebSocket(id.value);
      if check.Fail? {
        return Rejected(HandleServiceError(check.error));
      }
      if !peers.upgradeOk {
        return UpgradeFailed;
      }
      var got := svc.GetServer(id.value);
      if got.Err? {
        return Closed(CloseInternalServerErr, "server not found");
      }
      var url := BackendUrl(got.value.config);
      if !peers.dialOk(url) {
        return Closed(CloseInternalServerErr, "backend connection failed");
      }
      var toBackend, replies, _ := ClientToBackend(peers.fromClient, limited, peers.verdict, peers.backendCapacity);
      var toClient := BackendToClient(peers.fromBackend, peers.clientCapacity);
      session := Relayed(url, toBackend, replies, toClient);
    }
  }
}
