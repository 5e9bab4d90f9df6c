/** The credential vault ("pass"): password login that issues a session,
    storing a provider credential sealed under the vault key, and relaying
    the newest stored credential of a provider back through the relay. */
module PassService {
  import opened Common

  newtype byte = b: int | 0 <= b < 256

  type Bytes = seq<byte>

  datatype Session = Session(id: Uuid, userId: Uuid, token: string, expiresAt: Time, createdAt: Time)

  /** A stored credential: `creds` is the sealed JSON of the credential;
      `iv` is always empty because the nonce is part of the sealed bytes. */
  datatype VaultEntry = VaultEntry(
    id: Uuid,
    userId: Uuid,
    provider: string,
    creds: Bytes,
    iv: Bytes,
    createdAt: Time,
    updatedAt: Time)

  /** A provider credential in plain text. */
  datatype Credential = Credential(provider: string, accessToken: string, secret: string)

  datatype User = User(id: Uuid, email: string, passwordHash: string)

  /** The primitives the service calls and the model does not open:
      authenticated encryption under a key, the JSON codec of a credential,
      password-hash verification and token issuing. */
  datatype Primitives = Primitives(
    seal: (Bytes, Bytes) -> Result<Bytes>,
    open: (Bytes, Bytes) -> Result<Bytes>,
    marshal: Credential -> Result<Bytes>,
    unmarshal: Bytes -> Result<Credential>,
    verifyPassword: (string, string) -> Result<bool>,
    issueToken: (Uuid, int, Bytes) -> Result<string>)

  /** Opening what was sealed under the same key gives the plain text back. */
  ghost predicate OpenUndoesSeal(p: Primitives)
  {
    forall plain, key :: p.seal(plain, key).Ok? ==> p.open(p.seal(plain, key).value, key) == Ok(plain)
  }

  /** Decoding the JSON of a credential gives the credential back. */
  ghost predicate JsonRoundTrips(p: Primitives)
  {
    forall c :: p.marshal(c).Ok? ==> p.unmarshal(p.marshal(c).value) == Ok(c)
  }

  // ---------------------------------------------------------------------
  // The relay
  // ---------------------------------------------------------------------

  const EmptyProvider: Error := Failure("pass: provider must not be empty")

  /** relay.Forward: an empty provider is refused first, then the given
      credential is passed through unchanged, and a missing one is
      ErrNotFound. It reads neither the repository nor the vault key. */
  function Forward(provider: string, creds: Option<Credential>): (r: Result<Credential>)
    ensures provider == "" ==> r == Err(EmptyProvider)
    ensures provider != "" && creds.Some? ==> r == Ok(creds.value)
    ensures provider != "" && creds.None? ==> r == Err(Sentinel(NotFound))
  {
    if provider == "" then Err(EmptyProvider)
    else match creds
      case Some(c) => Ok(c)
      case None => Err(Sentinel(NotFound))
  }

  /** Forward answers ErrNotFound exactly when the provider is named and no
      credential is given; the empty-provider error is not ErrNotFound. */
  lemma ForwardNotFoundIff(provider: string, creds: Option<Credential>)
    ensures var r := Forward(provider, creds);
      (r.Err? && Is(r.error, NotFound)) <==> (provider != "" && creds.None?)
  {
  }

  // ---------------------------------------------------------------------
  // Relay's lookup
  // ---------------------------------------------------------------------

  /** The first listed entry whose provider equals `provider` exactly. */
  function FirstMatch(entries: seq<VaultEntry>, provider: string): (i: Option<nat>)
    ensures i.Some? ==> i.value < |entries| && entries[i.value].provider == provider
    ensures i.Some? ==> forall j :: 0 <= j < i.value ==> entries[j].provider != provider
    ensures i.None? <==> forall j :: 0 <= j < |entries| ==> entries[j].provider != provider
    decreases |entries|
  {
    if entries == [] then None
    else if entries[0].provider == provider then Some(0)
    else
      match FirstMatch(entries[1..], provider)
      case None =>
        assert forall j :: 1 <= j < |entries| ==> entries[j] == entries[1..][j - 1];
        None
      case Some(k) =>
        assert forall j :: 1 <= j < k + 1 ==> entries[j] == entries[1..][j - 1];
        Some(k + 1)
  }

  /** The search loop of Relay. */
  method FindEntry(entries: seq<VaultEntry>, provider: string) returns (matched: Option<nat>)
    ensures matched == FirstMatch(entries, provider)
  {
    var i := 0;
    while i < |entries|
      invariant 0 <= i <= |entries|
      invariant forall j :: 0 <= j < i ==> entries[j].provider != provider
    {
      if entries[i].provider == provider {
        matched := Some(i);
        FirstMatchIsLeast(entries, provider, i);
        return;
      }
      i := i + 1;
    }
    matched := None;
  }

  /** The first match is the least index that matches. */
  lemma FirstMatchIsLeast(entries: seq<VaultEntry>, provider: string, i: nat)
    requires i < |entries| && entries[i].provider == provider
    requires forall j :: 0 <= j < i ==> entries[j].provider != provider
    ensures FirstMatch(entries, provider) == Some(i)
  {
  }

  /** Relay's answer on the listed entries of the user: a listing error is
      wrapped; no matching entry is ErrNotFound itself, with nothing opened;
      otherwise the first match is opened and decoded, each failure wrapped
      with its step, and the credential goes through Forward. */
  function RelayAnswer(listed: Result<seq<VaultEntry>>, provider: string, p: Primitives, vaultKey: Bytes): (r: Result<Credential>)
    ensures listed.Err? ==> r == Err(Wrapped("pass: listing vault entries", listed.error))
    ensures listed.Ok? && FirstMatch(listed.value, provider).None? ==> r == Err(Sentinel(NotFound))
  {
    match listed
    case Err(e) => Err(Wrapped("pass: listing vault entries", e))
    case Ok(entries) =>
      match FirstMatch(entries, provider)
      case None => Err(Sentinel(NotFound))
      case Some(i) =>
        match p.open(entries[i].creds, vaultKey)
        case Err(e) => Err(Wrapped("pass: decrypting credential", e))
        case Ok(plain) =>
          match p.unmarshal(plain)
          case Err(e) => Err(Wrapped("pass: unmarshaling credential", e))
          case Ok(cred) => Forward(provider, Some(cred))
  }

  /** Relay answers an unwrapped ErrNotFound exactly when the listing
      succeeded and no entry has the provider. */
  lemma RelayNotFoundIff(listed: Result<seq<VaultEntry>>, provider: string, p: Primitives, vaultKey: Bytes)
    ensures RelayAnswer(listed, provider, p, vaultKey) == Err(Sentinel(NotFound)) <==>
      listed.Ok? && forall j :: 0 <= j < |listed.value| ==> listed.value[j].provider != provider
  {
    if listed.Ok? && FirstMatch(listed.value, provider).Some? {
      ForwardNotFoundIff(provider, None);
    }
  }

  // ---------------------------------------------------------------------
  // Login and StoreCredential, up to the repository write
  // ---------------------------------------------------------------------

  /** The session Login persists for the looked-up user, or the error it
      returns before reaching the repository. An unknown email and a wrong
      password are both ErrInvalidCredentials; other failures are wrapped
      with the step that failed. The session's id and creation time are
      filled in by the repository. */
  function LoginPlan(got: Result<User>, password: string, p: Primitives, secret: Bytes, expiry: int, now: Time): (r: Result<Session>)
    ensures got.Err? && Is(got.error, NotFound) ==> r == Err(Sentinel(InvalidCredentials))
    ensures r.Ok? ==> got.Ok? && p.verifyPassword(password, got.value.passwordHash) == Ok(true)
    ensures r.Ok? ==> r.value.userId == got.value.id && r.value.expiresAt == now + expiry
    ensures r.Ok? ==> Ok(r.value.token) == p.issueToken(got.value.id, expiry, secret)
  {
    match got
    case Err(e) => if Is(e, NotFound) then Err(Sentinel(InvalidCredentials)) else Err(Wrapped("pass: looking up user", e))
    case Ok(user) =>
      match p.verifyPassword(password, user.passwordHash)
      case Err(e) => Err(Wrapped("pass: verifying password", e))
      case Ok(ok) =>
        if !ok then Err(Sentinel(InvalidCredentials))
        else
          match p.issueToken(user.id, expiry, secret)
          case Err(e) => Err(Wrapped("pass: issuing token", e))
          case Ok(token) => Ok(Session(0, user.id, token, now + expiry, 0))
  }

  /** Login refuses with the bare ErrInvalidCredentials exactly for an
      unknown email and for a wrong password; every other failure is a
      wrapping, so the two cannot be told apart by a caller. */
  lemma LoginInvalidCredentialsIff(got: Result<User>, password: string, p: Primitives, secret: Bytes, expiry: int, now: Time)
    ensures LoginPlan(got, password, p, secret, expiry, now) == Err(Sentinel(InvalidCredentials)) <==>
      (got.Err? && Is(got.error, NotFound)) || (got.Ok? && p.verifyPassword(password, got.value.passwordHash) == Ok(false))
  {
  }

  /** The entry StoreCredential persists, or the error it returns before
      reaching the repository. */
  function StorePlan(user: Uuid, cred: Credential, p: Primitives, vaultKey: Bytes): (r: Result<VaultEntry>)
    ensures r.Ok? ==> r.value.userId == user && r.value.provider == cred.provider && r.value.iv == []
    ensures r.Ok? ==> p.marshal(cred).Ok? && Ok(r.value.creds) == p.seal(p.marshal(cred).value, vaultKey)
    ensures p.marshal(cred).Err? ==> r == Err(Wrapped("pass: marshaling credential", p.marshal(cred).error))
  {
    match p.marshal(cred)
    case Err(e) => Err(Wrapped("pass: marshaling credential", e))
    case Ok(plain) =>
      match p.seal(plain, vaultKey)
      case Err(e) => Err(Wrapped("pass: encrypting credential", e))
      case Ok(sealed) => Ok(VaultEntry(0, user, cred.provider, sealed, [], 0, 0))
  }

  /** The round trip: if a credential with a non-empty provider was stored
      and its entry is the newest of the user's entries, relaying that
      provider gives the credential back. */
  lemma {:induction false} StoreThenRelay(user: Uuid, cred: Credential, stored: VaultEntry, older: seq<VaultEntry>, p: Primitives, vaultKey: Bytes)
    requires OpenUndoesSeal(p) && JsonRoundTrips(p) && cred.provider != ""
    requires StorePlan(user, cred, p, vaultKey).Ok?
    requires stored.provider == cred.provider && stored.creds == StorePlan(user, cred, p, vaultKey).value.creds
    ensures RelayAnswer(Ok([stored] + older), cred.provider, p, vaultKey) == Ok(cred)
  {
    var entries := [stored] + older;
    assert FirstMatch(entries, cred.provider) == Some(0);
    var plain := p.marshal(cred).value;
    assert p.open(stored.creds, vaultKey) == Ok(plain);
    assert p.unmarshal(plain) == Ok(cred);
  }

  // ---------------------------------------------------------------------
  // Repositories and the service
  // ---------------------------------------------------------------------

  datatype PassRequest =
    | CreateSessionRequest(session: Session)
    | DeleteSessionRequest(id: Uuid)
    | ListVaultRequest(userId: Uuid)
    | CreateVaultRequest(entry: VaultEntry)
    | DeleteVaultRequest(id: Uuid)

  /** The entries of one user, newest first (the table's created_at
      descending order, entries being added at the current time). */
  function Owned(vault: seq<VaultEntry>, user: Uuid): (r: seq<VaultEntry>)
    ensures forall e :: e in r <==> e in vault && e.userId == user
    ensures vault != [] && vault[0].userId == user ==> r != [] && r[0] == vault[0]
    decreases |vault|
  {
    if vault == [] then []
    else (if vault[0].userId == user then [vault[0]] else []) + Owned(vault[1..], user)
  }

  /** Listing keeps the vault's order: the user's entries of a prefix come
      before those of the rest, so the listing stays newest first. */
  lemma {:induction false} OwnedAppend(older: seq<VaultEntry>, newer: seq<VaultEntry>, user: Uuid)
    ensures Owned(newer + older, user) == Owned(newer, user) + Owned(older, user)
    decreases |newer|
  {
    if newer != [] {
      assert (newer + older)[1..] == newer[1..] + older;
      OwnedAppend(older, newer[1..], user);
    } else {
      assert newer + older == older;
    }
  }

  /** The vault without the entries of the given id. */
  function Without(vault: seq<VaultEntry>, id: Uuid): (r: seq<VaultEntry>)
    ensures forall e :: e in r <==> e in vault && e.id != id
    decreases |vault|
  {
    if vault == [] then []
    else (if vault[0].id != id then [vault[0]] else []) + Without(vault[1..], id)
  }

  predicate HasEntry(vault: seq<VaultEntry>, id: Uuid)
  {
    exists e :: e in vault && e.id == id
  }

  /** The sessions and vault_entries tables. Requests may fail for reasons
      outside the model, as `fault` decides from the requests so far. */
  class PassRepository {
    const fault: (seq<PassRequest>, PassRequest) -> Option<Error>
    var sessions: map<Uuid, Session>
    var vault: seq<VaultEntry>
    var requests: seq<PassRequest>

    constructor (fault: (seq<PassRequest>, PassRequest) -> Option<Error>)
      ensures this.fault == fault && sessions == map[] && vault == [] && requests == []
    {
      this.fault := fault;
      sessions := map[];
      vault := [];
      requests := [];
    }

    /** CreateSession: stamps the session with a fresh id and the current
        time and inserts it; an id already taken is refused by the primary
        key. */
    method CreateSession(s: Session, freshId: Uuid, now: Time) returns (r: Outcome, stamped: Session)
      modifies this
      ensures stamped == s.(id := freshId, createdAt := now)
      ensures requests == old(requests) + [CreateSessionRequest(stamped)] && vault == old(vault)
      ensures match fault(old(requests), CreateSessionRequest(stamped))
              case Some(e) => r == Fail(e) && sessions == old(sessions)
              case None =>
                if freshId in old(sessions) then r == Fail(DuplicateKey) && sessions == old(sessions)
                else r == Pass && sessions == old(sessions)[freshId := stamped]
    {
      stamped := s.(id := freshId, createdAt := now);
      var f := fault(requests, CreateSessionRequest(stamped));
      requests := requests + [CreateSessionRequest(stamped)];
      if f.Some? {
        return Fail(f.value), stamped;
      }
      if freshId in sessions {
        return Fail(DuplicateKey), stamped;
      }
      sessions := sessions[freshId := stamped];
      r := Pass;
    }

    /** DeleteSession: ErrNotFound when no session has the id. */
    method DeleteSession(id: Uuid) returns (r: Outcome)
      modifies this
      ensures requests == old(requests) + [DeleteSessionRequest(id)] && vault == old(vault)
      ensures match fault(old(requests), DeleteSessionRequest(id))
              case Some(e) => r == Fail(e) && sessions == old(sessions)
              case None =>
                if id in old(sessions) then r == Pass && sessions == old(sessions) - {id}
                else r == Fail(Sentinel(NotFound)) && sessions == old(sessions)
    {
      var f := fault(requests, DeleteSessionRequest(id));
      requests := requests + [DeleteSessionRequest(id)];
      if f.Some? {
        return Fail(f.value);
      }
      if id !in sessions {
        return Fail(Sentinel(NotFound));
      }
      sessions := sessions - {id};
      r := Pass;
    }

    /** ListVaultEntries: the user's entries, newest first. */
    method ListVaultEntries(user: Uuid) returns (r: Result<seq<VaultEntry>>)
      modifies this
      ensures requests == old(requests) + [ListVaultRequest(user)]
      ensures sessions == old(sessions) && vault == old(vault)
      ensures r == Listed(old(requests), old(vault), user)
    {
      r := Listed(requests, vault, user);
      requests := requests + [ListVaultRequest(user)];
    }

    /** The answer to ListVaultEntries(user). */
    function Listed(history: seq<PassRequest>, vault: seq<VaultEntry>, user: Uuid): (r: Result<seq<VaultEntry>>)
      ensures fault(history, ListVaultRequest(user)).None? ==> r == Ok(Owned(vault, user))
      ensures fault(history, ListVaultRequest(user)).Some? ==> r == Err(fault(history, ListVaultRequest(user)).value)
    {
      match fault(history, ListVaultRequest(user))
      case Some(e) => Err(e)
      case None => Ok(Owned(vault, user))
    }

    /** CreateVaultEntry: stamps the entry with a fresh id and the current
        time (as both creation and update time) and adds it as the newest;
        an id already taken is refused by the primary key. */
    method CreateVaultEntry(entry: VaultEntry, freshId: Uuid, now: Time) returns (r: Outcome, stamped: VaultEntry)
      modifies this
      ensures stamped == entry.(id := freshId, createdAt := now, updatedAt := now)
      ensures requests == old(requests) + [CreateVaultRequest(stamped)] && sessions == old(sessions)
      ensures match fault(old(requests), CreateVaultRequest(stamped))
              case Some(e) => r == Fail(e) && vault == old(vault)
              case None =>
                if HasEntry(old(vault), freshId) then r == Fail(DuplicateKey) && vault == old(vault)
                else r == Pass && vault == [stamped] + old(vault)
    {
      stamped := entry.(id := freshId, createdAt := now, updatedAt := now);
      var f := fault(requests, CreateVaultRequest(stamped));
      requests := requests + [CreateVaultRequest(stamped)];
      if f.Some? {
        return Fail(f.value), stamped;
      }
      if HasEntry(vault, freshId) {
        return Fail(DuplicateKey), stamped;
      }
      vault := [stamped] + vault;
      r := Pass;
    }

    /** DeleteVaultEntry: ErrNotFound when no entry has the id. */
    method DeleteVaultEntry(id: Uuid) returns (r: Outcome)
      modifies this
      ensures requests == old(requests) + [DeleteVaultRequest(id)] && sessions == old(sessions)
      ensures match fault(old(requests), DeleteVaultRequest(id))
              case Some(e) => r == Fail(e) && vault == old(vault)
              case None =>
                if HasEntry(old(vault), id) then r == Pass && vault == Without(old(vault), id)
                else r == Fail(Sentinel(NotFound)) && vault == old(vault)
    {
      var f := fault(requests, DeleteVaultRequest(id));
      requests := requests + [DeleteVaultRequest(id)];
      if f.Some? {
        return Fail(f.value);
      }
      if !HasEntry(vault, id) {
        return Fail(Sentinel(NotFound));
      }
      vault := Without(vault, id);
      r := Pass;
    }
  }

  /** The users table, read by email. */
  class UserRepository {
    const fault: string -> Option<Error>
    const users: map<string, User>

    constructor (fault: string -> Option<Error>, users: map<string, User>)
      ensures this.fault == fault && this.users == users
    {
      this.fault := fault;
      this.users := users;
    }

    /** GetUserByEmail: the user, or ErrNotFound. */
    function GetUserByEmail(email: string): (r: Result<User>)
      ensures fault(email).None? ==> (r.Ok? <==> email in users)
      ensures r.Ok? ==> email in users && r.value == users[email]
      ensures fault(email).None? && email !in users ==> r == Err(Sentinel(NotFound))
    {
      match fault(email)
      case Some(e) => Err(e)
      case None => if email in users then Ok(users[email]) else Err(Sentinel(NotFound))
    }
  }

  /** The vault service. */
  class Service {
    const repo: PassRepository
    const userRepo: UserRepository
    const prims: Primitives
    const tokenSecret: Bytes
    const tokenExpiry: int
    const vaultKey: Bytes

    constructor (repo: PassRepository, userRepo: UserRepository, prims: Primitives, tokenSecret: Bytes, tokenExpiry: int, vaultKey: Bytes)
      ensures this.repo == repo && this.userRepo == userRepo && this.prims == prims
      ensures this.tokenSecret == tokenSecret && this.tokenExpiry == tokenExpiry && this.vaultKey == vaultKey
    {
      this.repo := repo;
      this.userRepo := userRepo;
      this.prims := prims;
      this.tokenSecret := tokenSecret;
      this.tokenExpiry := tokenExpiry;
      this.vaultKey := vaultKey;
    }

    /** Login at `now`: nothing is written unless the plan succeeds; then
        the session is persisted and returned with its id, or the write's
        error is wrapped. */
    method Login(email: string, password: string, freshId: Uuid, now: Time) returns (r: Result<Session>)
      modifies repo
      ensures var plan := LoginPlan(userRepo.GetUserByEmail(email), password, prims, tokenSecret, tokenExpiry, now);
        && (plan.Err? ==> r == plan && unchanged(repo))
        && (plan.Ok? ==>
              var s := plan.value.(id := freshId, createdAt := now);
              && repo.requests == old(repo.requests) + [CreateSessionRequest(s)]
              && repo.vault == old(repo.vault)
              && match repo.fault(old(repo.requests), CreateSessionRequest(s))
                 case Some(e) => r == Err(Wrapped("pass: creating session", e)) && repo.sessions == old(repo.sessions)
                 case None =>
                   if freshId in old(repo.sessions) then r == Err(Wrapped("pass: creating session", DuplicateKey)) && repo.sessions == old(repo.sessions)
                   else r == Ok(s) && repo.sessions == old(repo.sessions)[freshId := s])
    {
      var got := userRepo.GetUserByEmail(email);
      if got.Err? {
        if Is(got.error, NotFound) {
          return Err(Sentinel(InvalidCredentials));
        }
        return Err(Wrapped("pass: looking up user", got.error));
      }
      var user := got.value;
      var ok := prims.verifyPassword(password, user.passwordHash);
      if ok.Err? {
        return Err(Wrapped("pass: verifying password", ok.error));
      }
      if !ok.value {
        return Err(Sentinel(InvalidCredentials));
      }
      var token := prims.issueToken(user.id, tokenExpiry, tokenSecret);
      if token.Err? {
        return Err(Wrapped("pass: issuing token", token.error));
      }
      var session := Session(0, user.id, token.value, now + tokenExpiry, 0);
      var written, stamped := repo.CreateSession(session, freshId, now);
      if written.Fail? {
        return Err(Wrapped("pass: creating session", written.error));
      }
      r := Ok(stamped);
    }

    /** Logout: the repository's answer, ErrNotFound included, unchanged. */
    method Logout(sessionId: Uuid) returns (r: Outcome)
      modifies repo
      ensures repo.requests == old(repo.requests) + [DeleteSessionRequest(sessionId)] && repo.vault == old(repo.vault)
      ensures match repo.fault(old(repo.requests), DeleteSessionRequest(sessionId))
              case Some(e) => r == Fail(e) && repo.sessions == old(repo.sessions)
              case None =>
                if sessionId in old(repo.sessions) then r == Pass && repo.sessions == old(repo.sessions) - {sessionId}
                else r == Fail(Sentinel(NotFound)) && repo.sessions == old(repo.sessions)
    {
      r := repo.DeleteSession(sessionId);
    }

    /** StoreCredential: seals the credential's JSON and persists the entry
        for `user`; nothing is written when encoding or sealing fails. */
    method StoreCredential(user: Uuid, cred: Credential, freshId: Uuid, now: Time) returns (r: Result<VaultEntry>)
      modifies repo
      ensures var plan := StorePlan(user, cred, prims, vaultKey);
        && (plan.Err? ==> r == Err(plan.error) && unchanged(repo))
        && (plan.Ok? ==>
              var e := plan.value.(id := freshId, createdAt := now, updatedAt := now);
              && repo.requests == old(repo.requests) + [CreateVaultRequest(e)]
              && repo.sessions == old(repo.sessions)
              && match repo.fault(old(repo.requests), CreateVaultRequest(e))
                 case Some(err) => r == Err(Wrapped("pass: storing vault entry", err)) && repo.vault == old(repo.vault)
                 case None =>
                   if HasEntry(old(repo.vault), freshId) then r == Err(Wrapped("pass: storing vault entry", DuplicateKey)) && repo.vault == old(repo.vault)
                   else r == Ok(e) && repo.vault == [e] + old(repo.vault))
    {
      var plain := prims.marshal(cred);
      if plain.Err? {
        return Err(Wrapped("pass: marshaling credential", plain.error));
      }
      var sealed := prims.seal(plain.value, vaultKey);
      if sealed.Err? {
        return Err(Wrapped("pass: encrypting credential", sealed.error));
      }
      var entry := VaultEntry(0, user, cred.provider, sealed.value, [], 0, 0);
      var written, stamped := repo.CreateVaultEntry(entry, freshId, now);
      if written.Fail? {
        return Err(Wrapped("pass: storing vault entry", written.error));
      }
      r := Ok(stamped);
    }

    /** RemoveCredential: the repository's answer, ErrNotFound included,
        unchanged. */
    method RemoveCredential(entryId: Uuid) returns (r: Outcome)
      modifies repo
      ensures repo.requests == old(repo.requests) + [DeleteVaultRequest(entryId)] && repo.sessions == old(repo.sessions)
      ensures match repo.fault(old(repo.requests), DeleteVaultRequest(entryId))
              case Some(e) => r == Fail(e) && repo.vault == old(repo.vault)
              case None =>
                if HasEntry(old(repo.vault), entryId) then r == Pass && repo.vault == Without(old(repo.vault), entryId)
                else r == Fail(Sentinel(NotFound)) && repo.vault == old(repo.vault)
    {
      r := repo.DeleteVaultEntry(entryId);
    }

    /** Relay: lists the user's entries and answers as RelayAnswer; the only
        request it makes is the listing. */
    method Relay(user: Uuid, provider: string) returns (r: Result<Credential>)
      modifies repo
      ensures r == RelayAnswer(repo.Listed(old(repo.requests), old(repo.vault), user), provider, prims, vaultKey)
      ensures repo.requests == old(repo.requests) + [ListVaultRequest(user)]
      ensures repo.sessions == old(repo.sessions) && repo.vault == old(repo.vault)
    {
      var listed := repo.ListVaultEntries(user);
      if listed.Err? {
        return Err(Wrapped("pass: listing vault entries", listed.error));
      }
      var entries := listed.value;
      var matched := FindEntry(entries, provider);
      if matched.None? {
        return Err(Sentinel(NotFound));
      }
      var plain := prims.open(entries[matched.value].creds, vaultKey);
      if plain.Err? {
        return Err(Wrapped("pass: decrypting credential", plain.error));
      }
      var cred := prims.unmarshal(plain.value);
      if cred.Err? {
        return Err(Wrapped("pass: unmarshaling credential", cred.error));
      }
      r := Forward(provider, Some(cred.value));
    }
  }

  /** A credential stored for a user and then relayed for its provider comes
      back unchanged, over a repository that answers every request. */
  method StoreAndRelay(svc: Service, user: Uuid, cred: Credential, freshId: Uuid, now: Time)
    returns (stored: Result<VaultEntry>, relayed: Result<Credential>)
    requires OpenUndoesSeal(svc.prims) && JsonRoundTrips(svc.prims) && cred.provider != ""
    requires svc.prims.marshal(cred).Ok? && svc.prims.seal(svc.prims.marshal(cred).value, svc.vaultKey).Ok?
    requires forall history, q :: svc.repo.fault(history, q).None?
    requires !HasEntry(svc.repo.vault, freshId)
    modifies svc.repo
    ensures stored.Ok? && stored.value.userId == user && stored.value.provider == cred.provider
    ensures relayed == Ok(cred)
  {
    stored := svc.StoreCredential(user, cred, freshId, now);
    var e := stored.value;
    assert svc.repo.vault[0] == e;
    var listed := svc.repo.Listed(svc.repo.requests, svc.repo.vault, user);
    assert listed == Ok([e] + Owned(svc.repo.vault[1..], user)) by {
      assert svc.repo.vault == [e] + svc.repo.vault[1..];
    }
    StoreThenRelay(user, cred, e, Owned(svc.repo.vault[1..], user), svc.prims, svc.vaultKey);
    relayed := svc.Relay(user, provider := cred.provider);
  }
}
