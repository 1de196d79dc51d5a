/** The authorization server as a state machine.
  *
  * A World is everything the server's stores hold together with what has happened so far.  An Event is one access
  * to a shared store, together with the work on local data that the same request does right after it; requests of
  * different callers interleave between events in any way.  Legal says when an event may happen: the evidence it
  * needs must have been gathered earlier, but any number of other events may have come in between.  A restart is an
  * event too, after all that the process did: what was only in memory is gone, and the keys may be others.  The
  * methods of the Handler class are shown to append only legal events.
  */
module Protocol {
  import opened Common
  import AuthCodes
  import Clients
  import Persistence
  import Jwts
  import Base64Url
  import RedirectUrl

  const DASHBOARD := "dashboard"
  const ADMIN_MFA := "admin-mfa"
  const DASHBOARD_TOKEN_EXPIRY := 7 * DAY
  const ADMIN_MFA_TOKEN_EXPIRY := 15 * MINUTE
  const REGISTRY_KEY_PREFIX := 8
  const MAX_REGISTERED_URIS := 10

  /** The configuration, with the keys of the first start, and the functions the server computes with but this model
    * does not look into: url.Parse, SHA-256, and the case folding behind strings.EqualFold. */
  datatype Setup = Setup(
    secret: string, previousSecret: string, tokenExpiry: int, kiteAPIKey: string, recordsConsent: bool,
    parse: string -> Option<RedirectUrl.Url>, sha256: string -> Bytes, fold: string -> string)
  {
    function Keys(): Jwts.Keys {
      Jwts.Keys(secret, previousSecret)
    }

    /** The S256 code challenge of a verifier (RFC 7636 section 4.6). */
    function S256(verifier: string): string {
      Base64Url.Encode(sha256(verifier), false)
    }

    predicate IsWebURL(uri: string) {
      var u := parse(uri);
      u.Some? && (u.value.scheme == "http" || u.value.scheme == "https")
    }
  }

  /** The parameters of an authorization request that the flow carries along. */
  datatype AuthRequest = AuthRequest(clientID: string, redirectURI: string, codeChallenge: string, state: Bytes)

  datatype OAuthState = OAuthState(
    clientID: string, redirectURI: string, codeChallenge: string, state: Bytes, registryKey: string)

  function StateOf(req: AuthRequest): OAuthState {
    OAuthState(req.clientID, req.redirectURI, req.codeChallenge, req.state, "")
  }

  function RequestOf(st: OAuthState): AuthRequest {
    AuthRequest(st.clientID, st.redirectURI, st.codeChallenge, st.state)
  }

  // ----- What has happened -----

  /** Someone proved to be `email`: to Kite, or by a password or Google login. */
  datatype Login = Login(email: string, at: int)

  datatype Cause =
    | Cookie(login: Login)
    | Grant(code: string)
    | Elevation(email: string, basis: Option<Pass>)  // None if other code than the handlers asked for it

  /** Someone enrolled, or verified a code: the check was passed, and for an enrolment the secret stored. */
  datatype Pass = Pass(email: string, enrolled: bool, at: int)

  datatype Minted = Minted(token: Jwts.Token, at: int, cause: Cause)

  datatype Source =
    | Session(req: AuthRequest, cookie: Minted, seenAt: int)
    | Exchanged(st: OAuthState, login: Login)
    | Deferred(st: OAuthState)

  datatype Birth = Birth(entry: AuthCodes.AuthCodeEntry, at: int, source: Source)

  /** What the token endpoint saw when it looked the client up. */
  datatype ClientAuth = ClientAuth(clientID: string, isKite: bool, secret: string)

  datatype Response = Response(
    auth: ClientAuth, verifier: string, redeemedAt: int, login: Option<Login>, email: string, minted: Minted)

  datatype World = World(
    now: int,
    keys: Jwts.Keys,
    clients: Clients.ClientMap,
    db: Persistence.Database,
    ids: set<string>,               // every client id ever in use
    kite: set<string>,              // every client id that was a Kite client's since the last start
    registered: map<string, Clients.ClientEntry>,  // every dynamic registration ever
    codes: AuthCodes.Entries,
    births: map<string, Birth>,     // every code ever issued
    accepted: set<AuthRequest>,     // requests whose redirect URI was found registered
    signed: set<OAuthState>,        // states the server has put its signature on
    authenticated: set<ClientAuth>,
    responses: map<string, Response>,  // successful token responses, by the code they redeemed
    logins: set<Login>,
    passes: set<Pass>,
    minted: set<Minted>,            // every token ever signed
    consents: nat)

  function Start(s: Setup): World {
    World(0, s.Keys(), map[], Persistence.EMPTY, {}, {}, map[], map[], map[], {}, {}, {}, map[], {}, {}, {}, 0)
  }

  datatype Event =
    | ClientCall(op: Clients.ClientOp)
    | Write(n: nat, accepted: bool)
    | Accept(req: AuthRequest)
    | SignRequest(req: AuthRequest)
    | SignAgain(st: OAuthState, registryKey: Option<string>)
    | IssueFromSession(code: Bytes, req: AuthRequest, cookie: Minted, seenAt: int, at: int)
    | IssueFromExchange(code: Bytes, st: OAuthState, login: Login, at: int, cookieAt: int)
    | IssueDeferred(code: Bytes, st: OAuthState, requestToken: string, at: int)
    | Authenticate(auth: ClientAuth)
    | Burn(code: Bytes, auth: ClientAuth, at: int)
    | Redeem(code: Bytes, auth: ClientAuth, verifier: string, at: int, proof: Option<Login>, mintedAt: int)
    | Sweep(at: int)
    | LogIn(login: Login, cookieAt: int)
    | PassCheck(pass: Pass)
    | Elevate(email: string, basis: Option<Pass>, mintedAt: int)
    | Restart(secret: string, previous: string, loaded: bool, at: int)

  /** The entry the server stores for a code: from a request with an email, or from a state with an email or a token. */
  function EntryFor(req: AuthRequest, email: string, requestToken: string, at: int): AuthCodes.AuthCodeEntry {
    var expiresAt := at + AuthCodes.CODE_LIFETIME;
    AuthCodes.AuthCodeEntry(req.clientID, req.codeChallenge, req.redirectURI, email, requestToken, expiresAt)
  }

  function CookieFor(key: string, login: Login, at: int): Minted {
    Minted(Jwts.Mint(key, login.email, DASHBOARD, DASHBOARD_TOKEN_EXPIRY, at), at, Cookie(login))
  }

  function ElevationFor(key: string, email: string, basis: Option<Pass>, at: int): Minted {
    Minted(Jwts.Mint(key, email, ADMIN_MFA, ADMIN_MFA_TOKEN_EXPIRY, at), at, Elevation(email, basis))
  }

  function GrantFor(s: Setup, key: string, code: string, clientID: string, email: string, at: int): Minted {
    Minted(Jwts.Mint(key, email, clientID, s.tokenExpiry, at), at, Grant(code))
  }

  /** The identity a redeemed code stands for: the stored email, or the one the deferred exchange returned. */
  function ResolvedEmail(entry: AuthCodes.AuthCodeEntry, login: Option<Login>): string {
    if entry.email == "" && entry.requestToken != "" && login.Some? then login.value.email else entry.email
  }

  function ResponseTo(s: Setup, w: World, e: Event): Response
    requires e.Redeem? && e.code in w.codes
  {
    var email := ResolvedEmail(w.codes[e.code], e.proof);
    var grant := GrantFor(s, w.keys.secret, e.code, e.auth.clientID, email, e.mintedAt);
    Response(e.auth, e.verifier, e.at, e.proof, email, grant)
  }

  function Issue(w: World, code: string, entry: AuthCodes.AuthCodeEntry, source: Source, at: int): World {
    w.(now := at,
       codes := AuthCodes.Apply(w.codes, AuthCodes.Generate(code, entry, at)),
       births := w.births[code := Birth(entry, at, source)])
  }

  function KiteIds(c: Clients.ClientMap): set<string> {
    set id | id in c && c[id].isKiteAPIKey
  }

  // ----- Steps -----

  predicate Legal(s: Setup, w: World, e: Event) {
    match e
    case ClientCall(op) =>
      && Clients.Legal(w.clients, op)
      && (match op
          case Register(id, _, uris, _, at, _) =>
            id != "" && id !in w.ids && 1 <= |uris| <= MAX_REGISTERED_URIS && w.now <= at
          case RegisterKite(id, uris, at, _) => id != "" && |uris| == 1 && w.now <= at
          case AddURI(id, _) => id in w.kite)
    case Write(n, _) => n in w.db.inFlight
    case Accept(req) =>
      && req.clientID != "" && req.redirectURI != "" && req.codeChallenge != ""
      && s.IsWebURL(req.redirectURI)
      && Clients.IsRegisteredURI(w.clients, req.clientID, req.redirectURI)
    case SignRequest(req) => req in w.accepted
    case SignAgain(st, key) => st in w.signed && (key.Some? ==> |key.value| >= REGISTRY_KEY_PREFIX)
    case IssueFromSession(code, req, cookie, seenAt, at) =>
      && req in w.accepted && cookie in w.minted
      && Jwts.Accepts(w.keys, cookie.token, [DASHBOARD], seenAt) && Jwts.Subject(cookie.token) != ""
      && cookie.at <= seenAt <= at && w.now <= at
      && code !in w.births && AuthCodes.HasRoom(w.codes)
    case IssueFromExchange(code, st, login, at, cookieAt) =>
      && st in w.signed && login.at <= at <= cookieAt && w.now <= at
      && code !in w.births && AuthCodes.HasRoom(w.codes)
    case IssueDeferred(code, st, requestToken, at) =>
      && st in w.signed && requestToken != "" && w.now <= at
      && code !in w.births && AuthCodes.HasRoom(w.codes)
    case Authenticate(auth) =>
      && auth.clientID in w.clients
      && auth.isKite == w.clients[auth.clientID].isKiteAPIKey
      && (auth.isKite || auth.secret == w.clients[auth.clientID].clientSecret)
    case Burn(_, auth, at) => auth in w.authenticated && w.now <= at
    case Redeem(code, auth, verifier, at, login, mintedAt) =>
      && auth in w.authenticated && w.now <= at <= mintedAt
      && AuthCodes.Live(w.codes, code, at)
      && var entry := w.codes[code];
      && entry.clientID == auth.clientID && s.S256(verifier) == entry.codeChallenge
      && (login.Some? <==> entry.email == "" && entry.requestToken != "")
      && (login.Some? ==> at <= login.value.at <= mintedAt)
      && ResolvedEmail(entry, login) != ""
    case Sweep(at) => w.now <= at
    case LogIn(login, cookieAt) => login.at <= cookieAt
    case PassCheck(_) => true
    case Elevate(email, basis, mintedAt) =>
      basis.Some? ==> basis.value in w.passes && basis.value.email == email && basis.value.at <= mintedAt
    case Restart(_, _, _, at) => w.now <= at && forall m | m in w.minted :: m.at <= at
  }

  function Step(s: Setup, w: World, e: Event): World {
    match e
    case ClientCall(op) =>
      var w' := w.(clients := Clients.Apply(w.clients, op),
                   db := Persistence.Issue(w.db, Clients.RowToWrite(w.clients, op)));
      if !Clients.Creates(w.clients, op) then w'
      else
        w'.(now := op.at,
            ids := w.ids + {op.id},
            kite := if op.RegisterKite? then w.kite + {op.id} else w.kite,
            registered := if op.RegisterKite? then w.registered else w.registered[op.id := Clients.NewEntry(op)])
    case Write(n, accepted) => w.(db := Persistence.Land(w.db, n, accepted))
    case Accept(req) => w.(accepted := w.accepted + {req})
    case SignRequest(req) => w.(signed := w.signed + {StateOf(req)})
    case SignAgain(st, key) =>
      w.(signed := w.signed + {match key case None => st case Some(k) => st.(registryKey := k)})
    case IssueFromSession(code, req, cookie, seenAt, at) =>
      Issue(w, code, EntryFor(req, Jwts.Subject(cookie.token), "", at), Session(req, cookie, seenAt), at)
    case IssueFromExchange(code, st, login, at, cookieAt) =>
      var w' := Issue(w, code, EntryFor(RequestOf(st), login.email, "", at), Exchanged(st, login), at)
                .(logins := w.logins + {login});
      if login.email == "" then w'
      else w'.(minted := w.minted + {CookieFor(w.keys.secret, login, cookieAt)},
               consents := if s.recordsConsent then w.consents + 1 else w.consents)
    case IssueDeferred(code, st, requestToken, at) =>
      Issue(w, code, EntryFor(RequestOf(st), "", requestToken, at), Deferred(st), at)
    case Authenticate(auth) => w.(authenticated := w.authenticated + {auth})
    case Burn(code, _, at) =>
      w.(now := at, codes := AuthCodes.Apply(w.codes, AuthCodes.Consume(code, at)))
    case Redeem(code, auth, verifier, at, login, mintedAt) =>
      var w' := w.(now := at, codes := AuthCodes.Apply(w.codes, AuthCodes.Consume(code, at)));
      if code !in w.codes then w'
      else
        var r := ResponseTo(s, w, e);
        w'.(responses := w.responses[code := r],
            minted := w.minted + {r.minted},
            logins := if login.Some? then w.logins + {login.value} else w.logins)
    case Sweep(at) => w.(now := at, codes := AuthCodes.Apply(w.codes, AuthCodes.Sweep(at)))
    case LogIn(login, cookieAt) =>
      w.(logins := w.logins + {login}, minted := w.minted + {CookieFor(w.keys.secret, login, cookieAt)})
    case PassCheck(pass) => w.(passes := w.passes + {pass})
    case Elevate(email, basis, mintedAt) =>
      w.(minted := w.minted + {ElevationFor(w.keys.secret, email, basis, mintedAt)})
    case Restart(secret, previous, loaded, at) =>
      var clients := if loaded then Clients.Restored(w.db.rows) else map[];
      w.(now := at, keys := Jwts.Keys(secret, previous), clients := clients, db := Persistence.Reload(w.db, loaded),
         kite := KiteIds(clients), codes := map[])
  }

  type Trace = seq<Event>

  function After(s: Setup, t: Trace): World {
    if t == [] then Start(s) else Step(s, After(s, t[..|t| - 1]), t[|t| - 1])
  }

  predicate LegalTrace(s: Setup, t: Trace) {
    t == [] || (LegalTrace(s, t[..|t| - 1]) && Legal(s, After(s, t[..|t| - 1]), t[|t| - 1]))
  }

  lemma TraceGrows(s: Setup, t: Trace, e: Event)
    requires LegalTrace(s, t) && Legal(s, After(s, t), e)
    ensures LegalTrace(s, t + [e]) && After(s, t + [e]) == Step(s, After(s, t), e)
  {
    assert (t + [e])[..|t|] == t;
  }
}
