# NexusClaw gateway core, modelled in Dafny

This project models the sequential core of the NexusClaw gateway and proves properties of it. The core has four parts:

- **Managed MCP servers** (`internal/nodes`):
  - the Docker adapter that creates, starts, stops, removes and inspects containers, and derives a container's environment from a server's config;
  - the service that launches and stops a server's container and keeps its record up to date;
  - the HTTP and WebSocket handler, which maps service errors to statuses, gates routes on UUID path ids, picks the backend port and relays frames in both directions.
- **Platform middleware**:
  - the per-client token-bucket rate limiter;
  - Bearer-token authentication;
  - the CORS allow-list.
- **The firewall ("sentry")**:
  - per-user token budgets;
  - the rule engine that blocks an `action:resource` subject.
- **The credential vault ("pass")**:
  - password login that issues a session;
  - sealing and storing provider credentials;
  - relaying the newest stored credential of a provider.

How the model is built:

- **Pure code** (rules, auth, CORS, relay) becomes functions.
- **Loops** become methods proved equal to a specification function:
  - the environment extraction;
  - the env list;
  - Relay's first-match search;
  - the limiter's cleanup;
  - both WebSocket pumps.
- **Objects that change state** become classes whose methods state the whole new state:
  - the repositories;
  - the rate limiter;
  - the budget tracker;
  - the services.
- **The environment is a set of oracles.** The Docker engine, the database, the container runtime and the crypto primitives are function-valued constants. Each one answers from the history of requests and the request itself, and every request is logged. A contract can therefore say which requests were made, in which order, and what the answer was.

Files:

- `common.dfy` holds UUIDs, instants, `Option`/`Result`/`Outcome` and Go-style errors. An error is a sentinel, a plain failure, or a `%w` wrapping, with `errors.Is` and `Error()` modelled.
- `nodes_models.dfy`, `nodes_container.dfy`, `nodes_service.dfy` and `nodes_handler.dfy` model `internal/nodes`.
- `ratelimit.dfy`, `auth.dfy` and `cors.dfy` model the middleware.
- `sentry_budget.dfy` and `sentry_rules.dfy` model the firewall.
- `pass_service.dfy` models the vault service and the relay.

WebSocket session teardown: in `internal/nodes/handler.go:236-247` the handler ends the backend-to-client loop and then waits for the client-to-backend goroutine. Both connections close only when the handler returns. So a backend that hangs up does not by itself end the client pump. The model runs each pump on its own input and does not claim that one ending stops the other.

## Model

| member | source | states |
|---|---|---|
| Common.WrapKeepsIdentity | internal/nodes/service.go:61-64 | a `%w` wrapping keeps `errors.Is` for every sentinel, and its message starts with the context |
| Common.WrapAllKeepsIdentity | internal/nodes/service.go:56-98 | any number of nested `%w` wrappings keep `errors.Is` |
| Common.SentinelUnique | internal/nodes/handler.go:250-261 | an error chain matches at most one sentinel under `errors.Is` |
| Common.NatTextRoundTrip | internal/nodes/container.go:178-181 | the decimal text `%v` prints for a number reads back as that number |
| Container.StatusOf | internal/nodes/container.go:134-147 | running iff the state says running; starting iff restarting and not running; error iff there is no state, or the container is dead and neither running nor restarting; never stopping |
| Container.ParsePortConfig | internal/nodes/container.go:152-165 | an empty port list gives no tables and does not consult the parser; otherwise it gives the parser's tables, or the parser's error unchanged |
| Container.UpperFixedIffNoLower | internal/nodes/container.go:194 | a key equals its upper-casing iff it has no lower-case ASCII letter |
| Container.ExtractEnv | internal/nodes/container.go:169-202 | a key is in the result iff it is in the "env" sub-map, or it is a top-level upper-case key containing `_` with a string value; top-level string keys win; sub-map values are rendered as `%v` |
| Container.ExtractEnvEmpty | internal/nodes/container.go:171-173 | a nil or empty config gives an empty environment |
| Container.ExtractEnvExample | internal/nodes/container.go:176-199 | the config with env {DB_HOST: "localhost", DB_PORT: 5432}, API_KEY "secret" and a lower-case key gives exactly DB_HOST=localhost, DB_PORT=5432 and API_KEY=secret |
| Container.ExtractEnvLoop | internal/nodes/container.go:169-202 | the loops compute exactly `ExtractEnv` |
| Container.RenderAll | internal/nodes/container.go:178-182 | every entry of a `map[string]any` env sub-map is copied, rendered with `%v` |
| Container.CopyAll | internal/nodes/container.go:182-186 | a `map[string]string` env sub-map is copied unchanged |
| Container.AddTopLevel | internal/nodes/container.go:189-199 | the top-level pass adds exactly the qualifying string keys over the sub-map |
| Container.EnvList | internal/nodes/container.go:69-72 | one "k=v" entry per env pair, no duplicates, in some key order |
| Container.DockerManager.Create | internal/nodes/container.go:55-104 | pulls first, and a pull or drain failure stops before ContainerCreate; port tables come from ParsePortConfig; the env list has one entry per pair; memory is set only when positive; the result is the engine's id or a wrapped error |
| Container.DockerManager.Start | internal/nodes/container.go:106-111 | one start request; an error is wrapped with "starting container <id>" |
| Container.DockerManager.Stop | internal/nodes/container.go:113-119 | one stop request with a 10-second timeout; an error is wrapped |
| Container.DockerManager.Remove | internal/nodes/container.go:121-126 | one forced remove request; an error is wrapped |
| Container.DockerManager.Status | internal/nodes/container.go:128-148 | one inspect request; the status is StatusOf of the state, or an error wrapped with "inspecting container <id>" |
| NodeService.Persist | internal/nodes/postgres_repo.go:96-114 | an update writes name, image, status, config, container id and update time, and never id, owner or creation time |
| NodeService.ServerRepository.Fetched | internal/nodes/postgres_repo.go:60-80 | a lookup without a fault succeeds iff the id is stored, and returns the stored row; without a fault a missing row is exactly ErrNotFound |
| NodeService.ServerRepository.UpdateAnswer | internal/nodes/postgres_repo.go:96-114 | an update without a fault succeeds iff the id is stored, and is exactly ErrNotFound otherwise |
| NodeService.ServerRepository.DeleteAnswer | internal/nodes/postgres_repo.go:116-125 | a delete without a fault succeeds iff the id is stored, and is exactly ErrNotFound otherwise |
| NodeService.ServerRepository.GetServer | internal/nodes/postgres_repo.go:60-80 | answers `Fetched` and does not change the table |
| NodeService.ServerRepository.CreateServer | internal/nodes/postgres_repo.go:82-94 | inserts the record under its id; a taken id is refused with the duplicate-key error; keys keep mapping to records with the same id |
| NodeService.ServerRepository.UpdateServer | internal/nodes/postgres_repo.go:96-114 | on success the row becomes `Persist` of the old row; otherwise the table is unchanged |
| NodeService.ServerRepository.DeleteServer | internal/nodes/postgres_repo.go:116-125 | on success exactly that row is removed; otherwise the table is unchanged |
| NodeService.Registered | internal/nodes/service.go:43-50 | registration stamps a fresh id, status stopped and both timestamps, and keeps owner, name, image, config and container id |
| NodeService.ValidateConnect | internal/nodes/service.go:130-140 | a lookup error is returned as it is; a found server passes iff it is running, and gives ErrContainerNotAvailable otherwise |
| NodeService.NodeService.GetServer | internal/nodes/service.go:39-41 | delegates one lookup to the repository |
| NodeService.NodeService.RemoveServer | internal/nodes/service.go:52-54 | delegates one delete; the row is gone iff the delete succeeded |
| NodeService.NodeService.RegisterServer | internal/nodes/service.go:43-50 | inserts `Registered(input)`, which succeeds when there is no fault and the id is free, and returns the stamped record whatever the outcome |
| NodeService.NodeService.StartServer | internal/nodes/service.go:56-98 | without a runtime: ErrContainerNotAvailable and nothing touched. Otherwise get, then create with the image and `ExtractEnv(config)`, then start (a failed start also removes the container), then update the record to running with the container id; each failure is wrapped with its step and leaves the table unchanged |
| NodeService.NodeService.StopServer | internal/nodes/service.go:100-128 | without a runtime: ErrContainerNotAvailable. Otherwise get, then, only when there is a container, stop and then remove it, then update the record to stopped with no container id; each failure is wrapped with its step |
| NodeService.NodeService.ConnectWebSocket | internal/nodes/service.go:130-140 | one lookup, answered by `ValidateConnect`; needs no runtime |
| NodeService.StopCalls | internal/nodes/service.go:110-117 | a container leads to exactly Stop then Remove; no container leads to no runtime call |
| NodeService.StartStopStop | internal/nodes/service.go:56-128 | start, stop, stop over a faultless table and runtime: all succeed, the runtime sees Create, Start, Stop, Remove, and the record ends stopped with no container |
| NodeHandler.HandleServiceError | internal/nodes/handler.go:250-261 | every service error gets 404, 503, 501 or 500 with an error body |
| NodeHandler.HandleServiceErrorIff | internal/nodes/handler.go:250-261 | 404 iff ErrNotFound, 503 iff ErrContainerNotAvailable, 501 iff ErrNotImplemented, anything else 500 "internal server error", through any wrapping |
| NodeHandler.WrappedErrorSameResponse | internal/nodes/handler.go:250-261 | wrapping an error any number of times does not change its response |
| NodeHandler.OutcomeResponse | internal/nodes/handler.go:123-166 | success gives the route's own response; a failure gives `HandleServiceError` |
| NodeHandler.BackendPort | internal/nodes/handler.go:198-202 | the port is `config["ws_port"]` when it is a string, and "8080" otherwise |
| NodeHandler.BackendUrl | internal/nodes/handler.go:198-205 | the dial URL is "ws://localhost:" followed by the backend port |
| NodeHandler.LimitReply | internal/nodes/handler.go:225-227 | a rate-limited message is answered, in its own message type, with the bytes of the fixed JSON-RPC error object (code -32005, "Rate limit exceeded", id null) |
| NodeHandler.UnlimitedAllowsAll | internal/nodes/handler.go:225 | without a limiter every frame is allowed and none is answered |
| NodeHandler.AllowedPlusDenied | internal/nodes/handler.go:219-233 | every frame read is either forwarded or answered, never both |
| NodeHandler.ClientPumpForwardsAllowed | internal/nodes/handler.go:217-234 | the backend receives a prefix of the allowed frames in order, and the client a prefix of the replies; exactly all of them when the backend accepts every write |
| NodeHandler.UnlimitedPumpForwardsEverything | internal/nodes/handler.go:217-234 | with no limiter and a backend that accepts every write, everything the client sends reaches the backend unchanged |
| NodeHandler.ClientToBackend | internal/nodes/handler.go:217-234 | the client-to-backend loop computes exactly `ClientPump` |
| NodeHandler.BackendToClient | internal/nodes/handler.go:236-245 | the client receives the backend's frames in order, up to the first failed write |
| NodeHandler.Handler.GetServer | internal/nodes/handler.go:107-121 | a bad id gives 400 with no lookup; otherwise 200 with the record, or the mapped error |
| NodeHandler.Handler.RemoveServer | internal/nodes/handler.go:123-136 | a bad id gives 400 with no delete; otherwise 204, or the mapped error |
| NodeHandler.Handler.StartServer | internal/nodes/handler.go:138-151 | a bad id gives 400 and the service is not called; otherwise the service's start contract, and "started" or the mapped error |
| NodeHandler.Handler.StopServer | internal/nodes/handler.go:153-166 | a bad id gives 400 and the service is not called; otherwise the service's stop contract, and "stopped" or the mapped error |
| NodeHandler.Handler.ConnectWebSocket | internal/nodes/handler.go:168-248 | bad id gives 400; a failed validation gives the mapped error over HTTP; a failed upgrade ends the request; after the upgrade, a second lookup or dial failure gives close 1011 with its reason; otherwise the pumps relay as `ClientPump` and `BackendToClient` state |
| RateLimit.Admit | internal/platform/middleware/ratelimit.go:57-74 | a client's first request is admitted and leaves burst - 1 tokens; a known client is refused iff its refilled bucket holds less than one token; a refusal consumes nothing, an admission consumes one token; either way the bucket is stamped with the request's instant |
| RateLimit.Refilled | internal/platform/middleware/ratelimit.go:63-67 | the refilled tokens are the smaller of burst and the old tokens plus elapsed time times rate |
| RateLimit.AdmitKeepsBounds | internal/platform/middleware/ratelimit.go:52-75 | with a non-negative rate, a burst of at least one and a clock that does not go back, a bucket stays within [0, burst] |
| RateLimit.RunRestOfBurst | internal/platform/middleware/ratelimit.go:52-75 | inside a burst that refills less than one token, every remaining request but the last is admitted and the last is refused |
| RateLimit.BurstThenRefuse | internal/platform/middleware/ratelimit.go:52-75 | a new client sending burst + 1 requests quickly enough gets exactly burst admissions and then a refusal |
| RateLimit.Surviving | internal/platform/middleware/ratelimit.go:77-87 | a bucket survives a cleanup iff it was used at or after the cutoff, and survives unchanged |
| RateLimit.RateLimiter.Allow | internal/platform/middleware/ratelimit.go:52-75 | decides as `Admit` on that key's bucket, touches no other key, and keeps all buckets within bounds |
| RateLimit.RateLimiter.Cleanup | internal/platform/middleware/ratelimit.go:77-87 | leaves exactly `Surviving` with a cutoff ten minutes before `now` |
| RateLimit.RateLimiter.Handle | internal/platform/middleware/ratelimit.go:40-49 | a refused request gets 429 "rate limit exceeded" and is not passed on; an admitted one is passed on |
| SentryBudget.Add64 | internal/sentry/budget.go:34 | int64 addition: the exact sum when it fits, and otherwise the sum wrapped by 2^64 |
| SentryBudget.AllowsAsWritten | internal/sentry/budget.go:25-35 | the check as written: ErrNotFound allows; another lookup error refuses with that error; a budget allows iff the int64 sum of used and tokens is at most the cap |
| SentryBudget.Allows | internal/sentry/budget.go:25-35 | the intended check: the same, with the exact sum |
| SentryBudget.AllowsAgreeWithoutOverflow | internal/sentry/budget.go:34 | the two checks agree whenever the sum fits in an int64 |
| SentryBudget.AllowsAsWrittenOverflow | internal/sentry/budget.go:34 | used 1, cap 100, tokens 2^63 - 1: as written allowed, intended refused |
| SentryBudget.AllowsMonotone | internal/sentry/budget.go:34 | if a spend is allowed, any smaller spend is allowed |
| SentryBudget.Upsert | internal/sentry/postgres_repo.go:170-182 | an upsert writes period, cap, usage and reset time, and keeps id, user and creation time |
| SentryBudget.BudgetRepository.Fetched | internal/sentry/postgres_repo.go:154-168 | a lookup without a fault succeeds iff the user has a row, and returns that row; without a fault a missing row is exactly ErrNotFound |
| SentryBudget.BudgetRepository.Upserted | internal/sentry/postgres_repo.go:170-182 | the table after an upsert: a user without a row gets `b` inserted; a user with one gets `Upsert` of it (period, cap, usage and reset written); other rows are untouched |
| SentryBudget.BudgetRepository.GetBudget | internal/sentry/postgres_repo.go:154-168 | answers `Fetched` without changing the table; the row returned is the requested user's, since every row is keyed by its own user |
| SentryBudget.BudgetRepository.UpdateBudget | internal/sentry/postgres_repo.go:170-182 | on success the table becomes `Upserted`; on a fault it is unchanged; every row stays keyed by its own user |
| SentryBudget.BudgetTracker.Check | internal/sentry/budget.go:25-35 | one lookup, decided by the corrected `Allows` (exact sum), which equals the as-written int64 decision whenever the sum fits in int64; never writes; a user with no budget row is allowed (`Ok(true)`) when the lookup does not fail |
| SentryBudget.BudgetTracker.Increment | internal/sentry/budget.go:37-44 | a lookup error, ErrNotFound included, is returned and nothing is written; otherwise the budget with used + tokens (int64) is written back, with no other field changed; on success the user's row differs from before only in usage, grown by `tokens` with the int64 wrap |
| SentryRules.Subject | internal/sentry/rules.go:30 | the subject is the action, ":", then the resource |
| SentryRules.Scan | internal/sentry/rules.go:32-47 | refuses iff some rule is enabled, has a pattern that compiles and matches, and has action "block" |
| SentryRules.Evaluate | internal/sentry/rules.go:24-48 | a listing error refuses with that error; otherwise refuses iff some enabled, valid, matching rule blocks the subject |
| SentryRules.NoRulesAllow | internal/sentry/rules.go:47 | no rules: allowed |
| SentryRules.ScanIgnoresOrder | internal/sentry/rules.go:32-47 | reordering the rules never changes the outcome, so an earlier matching allow cannot override a later block |
| SentryRules.DisabledRulesIgnored | internal/sentry/rules.go:33-35 | dropping the disabled rules never changes the outcome |
| Auth.SplitAtFirstSpace | internal/platform/middleware/auth.go:26 | one part iff there is no space; otherwise the part before the first space (which has no space) and everything after it |
| Auth.SplitKeepsRest | internal/platform/middleware/auth.go:26 | "scheme token" splits into the scheme and the whole token, the token's own spaces included |
| Auth.BearerSchemeIff | internal/platform/middleware/auth.go:27 | the accepted schemes are exactly "bearer" in any mix of letter case |
| Auth.Authenticate | internal/platform/middleware/auth.go:17-42 | no header gives 401 "missing authorization header"; no space gives 401 "invalid authorization format"; every refusal is 401 |
| Auth.AuthenticateSchemeAndToken | internal/platform/middleware/auth.go:26-39 | another scheme gives 401 "invalid authorization format"; with the Bearer scheme, a verifier error gives 401 "invalid or expired token"; otherwise next is called with the verified subject |
| Auth.NextOnlyWithVerifiedBearer | internal/platform/middleware/auth.go:26-39 | next is called only for "<Bearer> <token>" with a token the verifier accepted, carrying its subject |
| Auth.GetUserId | internal/platform/middleware/auth.go:46-49 | the stored id, or "" when there is none |
| Cors.CorsHeaders | internal/platform/middleware/cors.go:15-26 | Allow-Origin is present iff the origin is allow-listed, and then echoes it; the five fixed headers are always present with their values; no other header is set |
| Cors.Handle | internal/platform/middleware/cors.go:15-35 | OPTIONS gets 204 and next is not called; any other method calls next once; the headers are `CorsHeaders(origin)` either way |
| Cors.EmptyOriginNotEchoed | internal/platform/middleware/cors.go:17-20 | a request with no Origin gets no Allow-Origin |
| Cors.HeadersIgnoreMethod | internal/platform/middleware/cors.go:22-33 | the headers do not depend on the method, and a disallowed origin still reaches next |
| Cors.DisallowedOriginsLookAlike | internal/platform/middleware/cors.go:17-26 | every origin outside the allow-list gets exactly the fixed headers |
| PassService.Forward | internal/pass/relay.go:23-33 | an empty provider is refused first; a given credential is returned unchanged; a missing one is ErrNotFound; the repository and the key are not read |
| PassService.ForwardNotFoundIff | internal/pass/relay.go:24-32 | the answer is ErrNotFound iff the provider is non-empty and no credential is given |
| PassService.FirstMatch | internal/pass/service.go:145-151 | the least index whose provider equals the requested one exactly, or none iff no entry matches |
| PassService.FindEntry | internal/pass/service.go:145-151 | the search loop finds exactly `FirstMatch` |
| PassService.RelayAnswer | internal/pass/service.go:139-167 | a listing error is wrapped; no match gives ErrNotFound unwrapped, and nothing is opened |
| PassService.RelayNotFoundIff | internal/pass/service.go:152-154 | Relay answers a bare ErrNotFound iff the listing succeeded and no entry has the provider |
| PassService.LoginPlan | internal/pass/service.go:69-95 | an unknown email gives ErrInvalidCredentials; a session is built only after the password verified, for the user's id, with the issued token, expiring at now + expiry |
| PassService.LoginInvalidCredentialsIff | internal/pass/service.go:70-84 | the bare ErrInvalidCredentials comes exactly from an unknown email or a wrong password |
| PassService.StorePlan | internal/pass/service.go:111-127 | the entry has the caller's user id, the credential's provider, no IV, and the sealed JSON of the credential |
| PassService.StoreThenRelay | internal/pass/service.go:111-167 | if sealing then opening, and encoding then decoding, are identities, relaying the provider of the newest stored entry gives back the stored credential |
| PassService.Owned | internal/pass/postgres_repo.go:58-87 | a user's listing holds exactly that user's entries, and the vault's newest entry, when it is the user's, comes first |
| PassService.OwnedAppend | internal/pass/postgres_repo.go:58-87 | listing keeps the vault's order: the user's entries of newer rows come before those of older rows, so the listing is newest first |
| PassService.Without | internal/pass/postgres_repo.go:102-111 | a delete removes exactly the entries with that id |
| PassService.PassRepository.CreateSession | internal/pass/postgres_repo.go:23-33 | the session is stamped with the new id and the creation time, then inserted unless the write fails; an id already taken is refused with the duplicate-key error and nothing changes |
| PassService.PassRepository.DeleteSession | internal/pass/postgres_repo.go:47-56 | ErrNotFound iff no session has the id; otherwise that session is removed |
| PassService.PassRepository.Listed | internal/pass/postgres_repo.go:58-87 | the listing is `Owned(vault, user)`, or the fault |
| PassService.PassRepository.ListVaultEntries | internal/pass/postgres_repo.go:58-87 | answers `Listed` without changing anything |
| PassService.PassRepository.CreateVaultEntry | internal/pass/postgres_repo.go:89-100 | the entry is stamped with the new id and equal creation and update times, and becomes the newest entry; an id already taken is refused with the duplicate-key error and nothing changes |
| PassService.PassRepository.DeleteVaultEntry | internal/pass/postgres_repo.go:102-111 | ErrNotFound iff no entry has the id; otherwise the entries with that id are removed |
| PassService.UserRepository.GetUserByEmail | internal/pass/user_repo.go:60-70 | a lookup without a fault succeeds iff the email is known; an unknown email is ErrNotFound |
| PassService.Service.Login | internal/pass/service.go:69-101 | nothing is written unless `LoginPlan` succeeds; then the session is persisted and returned with its id, or the write error is wrapped with "pass: creating session" |
| PassService.Service.Logout | internal/pass/service.go:103-105 | the repository's answer, ErrNotFound included, is passed through unchanged |
| PassService.Service.StoreCredential | internal/pass/service.go:111-133 | nothing is written unless `StorePlan` succeeds; then the entry is persisted as the newest, or the write error is wrapped |
| PassService.Service.RemoveCredential | internal/pass/service.go:135-137 | the repository's answer, ErrNotFound included, is passed through unchanged |
| PassService.Service.Relay | internal/pass/service.go:139-167 | one listing request, answered by `RelayAnswer`; nothing is written |
| PassService.StoreAndRelay | internal/pass/service.go:111-167 | over a repository that never fails and a new entry id not yet in the vault: store, then relay of the same provider, gives the credential back |

## Left out

- `SyncCapabilities` and the goroutine that starts it after a launch (internal/nodes/service.go:90-95, 142-224). These are WebSocket dials, sleeps and retries against a live backend.
- `ListServers`, `DiscoverServers` and the list/register/discover handlers, `Routes`, `registry.go` and the OAuth flow. These are delegation, JSON decoding or an external provider.
- Concurrency:
  - The two WebSocket pumps run concurrently in the source. The model runs each on its own input sequence, so interleavings are not modelled.
  - The rate limiter's mutex and its periodic cleanup goroutine are left out. `now` is a parameter.
- The Docker SDK:
  - It is an oracle over the request log.
  - Draining the pull stream is reduced to success or a drain error.
  - `nat.ParsePortSpecs` is an oracle.
  - `NanoCPUs` from the CPU limit is not modelled, since the service never sets a CPU limit.
- WebSocket I/O:
  - The upgrade and the dial are booleans.
  - The per-server message limiter of `internal/nodes/rate_limit.go` is a verdict per frame.
  - Writes that fail are modelled as a capacity: each side accepts a number of writes and then fails.
- SQL: every table is a map or sequence with a fault oracle.
  - The duplicate-key error of an insert is a fixed failure text.
  - Vault entries are listed newest first by assuming each entry is created no earlier than the ones before it.
- Cryptography and codecs:
  - Seal/Open, IssueToken/VerifyToken, password hashing and JSON encoding are opaque functions.
  - The round trip `StoreThenRelay` is proved under the hypotheses that open undoes seal and that JSON decoding undoes encoding.
  - Register, which only hashes and inserts, is not modelled.
- Timestamps are integers. `time.Now()` is the parameter `now`, used for both ExpiresAt and the repository's CreatedAt.
- RateLimit.RateLimiter.Allow: tokens and instants are reals. float64 rounding is not modelled.
- Container.ExtractEnv:
  - `strings.ToUpper` is modelled for ASCII letters only.
  - `%v` is modelled for strings, integers and booleans. Any other value is rendered by an opaque text.
- Auth.Authenticate: `strings.EqualFold` is modelled by ASCII case folding. For the literal "Bearer" this is exact, because no non-ASCII character folds to any of its letters.
- Response bodies are modelled as their status and message, not as their JSON encoding.
- SentryBudget.BudgetTracker.Check decides with the exact sum `UsedTokens + tokens` (the corrected `Allows`), not with the int64 sum of internal/sentry/budget.go:34. It therefore refuses the overflowing spends that the code allows (see "## Findings"); on every other input the two agree, as `SentryBudget.AllowsAgreeWithoutOverflow` proves.
- SentryBudget.BudgetTracker.Increment keeps the int64 wrap-around of `UsedTokens += tokens` as written.

## Findings

| source | as written | input that shows it | evidently intended | confidence | as-written member | corrected member |
|---|---|---|---|---|---|---|
| internal/sentry/budget.go:34 | `budget.UsedTokens+tokens <= budget.MaxTokens` is evaluated in int64 and wraps on overflow | UsedTokens 1, MaxTokens 100, tokens 9223372036854775807: the sum wraps to -9223372036854775808, so the request is allowed | refuse any spend whose exact total exceeds the cap | medium, not executed | SentryBudget.AllowsAsWrittenOverflow | SentryBudget.Allows |

`SentryBudget.BudgetTracker.Check` decides with the corrected `Allows`. `SentryBudget.AllowsAgreeWithoutOverflow` shows that the two checks differ only on overflowing sums.
