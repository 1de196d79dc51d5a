/** The HTTP handlers (handlers.go, handlers_oauth.go, handlers_callback.go, middleware.go, handlers_browser.go,
  * handlers_admin_mfa.go) as methods over the stores.
  *
  * Between two accesses to a shared store a handler calls Others, which lets any other requests run: it continues the
  * record of store accesses in an arbitrary legal way.  Valid says that the record is legal and the stores are what it
  * makes them; every handler keeps it, so the handlers only ever take legal steps, however they interleave, and
  * whatever is proved of legal traces holds of them.
  */
module Handlers {
  import opened Common
  import opened Protocol
  import opened Invariants
  import Theorems
  import AuthCodes
  import Clients
  import Persistence
  import Jwts
  import RedirectQuery
  import RedirectUrl
  import BrowserTarget

  // ----- What comes in -----

  /** Kite, for the duration of one request.  None stands for an error or an unknown key. */
  datatype Kite = Kite(
    exchange: string -> Option<string>,
    exchangeWith: (string, string, string) -> Option<string>,
    secretOf: string -> Option<string>,
    credentialsOf: string -> Option<(string, string)>)

  datatype Registry = Registry(hasEntries: bool, byEmail: string -> Option<string>, secretOf: string -> Option<string>)

  /** The `data` or `oauth_state` parameter, by what the signer and the decoder make of it. */
  datatype SignedData = Missing | BadSignature | Undecodable | Carries(st: OAuthState)

  type FreshnessCheck = Option<string -> bool>

  datatype AuthorizeParams = AuthorizeParams(
    responseType: string, clientID: string, redirectURI: string, codeChallenge: string, codeChallengeMethod: string,
    state: Bytes)

  datatype TokenParams = TokenParams(
    grantType: string, code: Bytes, codeVerifier: string, clientID: string, clientSecret: string)

  // ----- What goes out -----

  datatype Location = Location(scheme: Bytes, host: Bytes, path: Bytes, params: RedirectQuery.Values)

  datatype Reply =
    | UnsupportedResponseType | InvalidRequest | RedirectMismatch | NoCredentialsConfigured
    | Redirect(to: Location)
    | ToKite(apiKey: string, data: OAuthState)
    | EmailPrompt(data: OAuthState)
    | InvalidSession | RegistryNotConfigured | Aborted
    | RegistryCredentialsMissing | ExchangeFailed | StoreFull
    | UnsupportedGrantType | InvalidClient | InvalidGrant | SecretRequired | NoIdentity
    | AccessToken(token: Jwts.Token, expiresIn: int)
    | Registered(clientID: string, clientSecret: string)

  function LocationFor(u: RedirectUrl.Url, code: Bytes, state: Bytes): Location {
    Location(u.scheme, u.host, u.path, RedirectQuery.RedirectParams(u.rawQuery, code, state))
  }

  /** The checks Authorize makes before it looks at any store. */
  function ParamError(s: Setup, p: AuthorizeParams): Option<Reply> {
    if p.responseType != "code" then Some(UnsupportedResponseType)
    else if p.clientID == "" || p.redirectURI == "" || p.codeChallengeMethod != "S256" || p.codeChallenge == ""
            || !s.IsWebURL(p.redirectURI) then Some(InvalidRequest)
    else None
  }

  /** Whether a session cookie read at a time lets the person skip the login at Kite. */
  predicate SessionServes(keys: Jwts.Keys, cookie: Option<Jwts.Token>, checker: FreshnessCheck, at: int) {
    && cookie.Some? && Jwts.Accepts(keys, cookie.value, [DASHBOARD], at)
    && Jwts.Subject(cookie.value) != ""
    && checker.Some? && checker.value(Jwts.Subject(cookie.value))
  }

  datatype Plan = Refuse(reply: Reply) | Named(email: string) | Later

  /** How a callback learns who logged in: by the credentials of a Kite client, of a registered app, or of the
    * server. */
  function CallbackPlan(st: OAuthState, isKite: bool, requestToken: string, kite: Kite,
                        registry: Option<Registry>): Plan {
    if isKite then
      match kite.secretOf(st.clientID)
      case None => Later
      case Some(secret) =>
        (match kite.exchangeWith(requestToken, st.clientID, secret) case Some(email) => Named(email) case None => Later)
    else if st.registryKey != "" then
      var secret := if registry.Some? then registry.value.secretOf(st.registryKey) else None;
      if secret.None? || secret.value == "" then Refuse(RegistryCredentialsMissing)
      else
        (match kite.exchangeWith(requestToken, st.registryKey, secret.value)
         case Some(email) => Named(email) case None => Refuse(ExchangeFailed))
    else
      match kite.exchange(requestToken) case Some(email) => Named(email) case None => Refuse(ExchangeFailed)
  }

  /** What the token endpoint makes of a code it has taken out of the store. */
  function TokenPlan(s: Setup, p: TokenParams, entry: AuthCodes.AuthCodeEntry, kite: Kite): Plan {
    if entry.clientID != p.clientID || s.S256(p.codeVerifier) != entry.codeChallenge then Refuse(InvalidGrant)
    else if entry.email != "" then Named(entry.email)
    else if entry.requestToken == "" then Refuse(NoIdentity)
    else
      var secret := if p.clientSecret != "" then Some(p.clientSecret) else kite.secretOf(p.clientID);
      if secret.None? then Refuse(SecretRequired)
      else
        match kite.exchangeWith(entry.requestToken, p.clientID, secret.value)
        case None => Refuse(InvalidGrant)
        case Some(email) => if email == "" then Refuse(NoIdentity) else Named(email)
  }

  predicate ClientMayPresent(c: Clients.ClientMap, p: TokenParams) {
    p.clientID in c && (c[p.clientID].isKiteAPIKey || c[p.clientID].clientSecret == p.clientSecret)
  }

  function LookupOutcome(email: string, data: SignedData, csrfOk: bool, registry: Option<Registry>): Reply {
    if !data.Carries? then InvalidSession
    else if !csrfOk || email == "" then EmailPrompt(data.st)
    else if registry.None? || !registry.value.hasEntries then RegistryNotConfigured
    else
      match registry.value.byEmail(email)
      case None => EmailPrompt(data.st)
      case Some(key) => if |key| < REGISTRY_KEY_PREFIX then Aborted else ToKite(key, data.st.(registryKey := key))
  }

  // ----- What a request did, between the record before it and the record after it -----

  /** The server was not restarted meanwhile: a request does not outlive the process that serves it. */
  ghost predicate Grew(s: Setup, before: Trace, after: Trace) {
    && before <= after && KeepsEvidence(After(s, before), After(s, after))
    && After(s, before).keys == After(s, after).keys && After(s, before).kite <= After(s, after).kite
    && forall i | |before| <= i < |after| :: !after[i].Restart?
  }

  /** The database behind the client store, and whether it accepts this request's write. */
  datatype Backend = NoBackend | Backend(accepts: bool)

  /** The client store call at point `call` is followed by its write, if there is one to make, and that ends the
    * record. */
  ghost predicate WroteBack(s: Setup, after: Trace, call: nat, backend: Backend)
    requires call < |after| && after[call].ClientCall?
  {
    var w := After(s, after[..call]);
    if backend.NoBackend? || Clients.RowToWrite(w.clients, after[call].op).None? then |after| == call + 1
    else |after| > call + 1 && after[|after| - 1] == Write(|w.db.writes|, backend.accepts)
  }

  /** A client nobody knows is registered as a Kite client; a Kite client may gain the URI. */
  ghost predicate Admitted(s: Setup, before: Trace, after: Trace, id: string, uri: string, backend: Backend,
                           seen: nat, call: nat)
  {
    && |before| <= seen <= call <= |after| && before <= after
    && if id !in After(s, before).clients then
         && call < |after|
         && var e := after[call];
         && e.ClientCall? && e.op.RegisterKite? && e.op.id == id && e.op.uris == [uri]
         && WroteBack(s, after, call, backend)
       else if Clients.IsKite(After(s, after[..seen]).clients, id) then
         && call < |after| && after[call] == ClientCall(Clients.AddURI(id, uri)) && WroteBack(s, after, call, backend)
       else |after| == seen
  }

  /** The points of the record at which an authorization request looked at the stores. */
  datatype Points = Points(
    kiteRead: nat, call: nat, admitted: nat, checked: nat, session: nat, seenAt: int, decided: nat)

  ghost predicate AuthorizeRan(s: Setup, before: Trace, after: Trace, p: AuthorizeParams, cookie: Option<Jwts.Token>,
                               checker: FreshnessCheck, registry: Option<Registry>, backend: Backend, r: Reply,
                               at: Points)
  {
    if ParamError(s, p).Some? then r == ParamError(s, p).value && after == before
    else
      var req := AuthRequest(p.clientID, p.redirectURI, p.codeChallenge, p.state);
      && |before| <= at.admitted <= at.checked <= |after| && before <= after
      && Admitted(s, before, after[..at.admitted], p.clientID, p.redirectURI, backend, at.kiteRead, at.call)
      && if !Clients.IsRegisteredURI(After(s, after[..at.checked]).clients, p.clientID, p.redirectURI) then
           r == RedirectMismatch && |after| == at.checked
         else
           && at.checked < at.session <= |after| && after[at.checked] == Accept(req)
           && Answered(s, after, req, cookie, checker, registry, r, at)
  }

  ghost predicate Answered(s: Setup, after: Trace, req: AuthRequest, cookie: Option<Jwts.Token>,
                           checker: FreshnessCheck,
                           registry: Option<Registry>, r: Reply, at: Points)
  {
    && at.session <= |after|
    && if SessionServes(After(s, after).keys, cookie, checker, at.seenAt)
          && AuthCodes.HasRoom(After(s, after[..at.session]).codes) then
         SessionAnswer(s, after, req, cookie.value, r, at)
       else
         at.session <= at.decided <= |after| && LoginAnswer(s, after, req, registry, r, at.decided)
  }

  ghost predicate SessionAnswer(s: Setup, after: Trace, req: AuthRequest, cookie: Jwts.Token, r: Reply, at: Points)
    requires at.session <= |after|
  {
    && |after| == at.session + 1
    && var e := after[at.session];
    && e.IssueFromSession? && e.req == req && e.cookie.token == cookie && e.seenAt == at.seenAt
    && s.parse(req.redirectURI).Some?
    && r == Redirect(LocationFor(s.parse(req.redirectURI).value, e.code, req.state))
  }

  ghost predicate LoginAnswer(s: Setup, after: Trace, req: AuthRequest, registry: Option<Registry>, r: Reply,
                              decided: nat)
    requires decided <= |after|
  {
    if Clients.IsKite(After(s, after[..decided]).clients, req.clientID) then
      r == ToKite(req.clientID, StateOf(req)) && after == after[..decided] + [SignRequest(req)]
    else if registry.Some? && registry.value.hasEntries then
      r == EmailPrompt(StateOf(req)) && after == after[..decided] + [SignRequest(req)]
    else if s.kiteAPIKey == "" then
      r == NoCredentialsConfigured && |after| == decided
    else
      r == ToKite(s.kiteAPIKey, StateOf(req)) && after == after[..decided] + [SignRequest(req)]
  }

  /** A lookup signs the state it was given again, with the registry key it found if it found one. */
  ghost predicate LookupRan(before: Trace, after: Trace, data: SignedData, r: Reply) {
    match r
    case EmailPrompt(st) => data.Carries? && after == before + [SignAgain(data.st, None)] && st == data.st
    case ToKite(key, st) =>
      data.Carries? && after == before + [SignAgain(data.st, Some(key))] && st == data.st.(registryKey := key)
    case _ => after == before
  }

  /** What a callback hands out: its reply, the dashboard cookie it sets, and the email it records a consent for. */
  datatype Callback = Callback(reply: Reply, cookie: Option<Jwts.Token>, consent: Option<string>)

  /** A callback that comes as far as storing a code delivers it. */
  ghost predicate CallbackRan(s: Setup, before: Trace, after: Trace, requestToken: string, data: SignedData, kite: Kite,
                              registry: Option<Registry>, r: Callback, at: nat)
  {
    if requestToken == "" || !data.Carries? then r == Callback(InvalidRequest, None, None) && after == before
    else
      var st := data.st;
      var plan := CallbackPlan(st, Clients.IsKite(After(s, before).clients, st.clientID), requestToken, kite, registry);
      if plan.Refuse? then r == Callback(plan.reply, None, None) && after == before
      else
        && |before| <= at
        && if plan.Later? then Postponed(s, after, st, requestToken, r, at)
           else Answers(s, after, st, plan.email, r, at)
  }

  /** A code was stored for a person with this email, who got a dashboard cookie unless the email is empty. */
  ghost predicate Answers(s: Setup, after: Trace, st: OAuthState, email: string, r: Callback, at: nat) {
    && at <= |after|
    && if !AuthCodes.HasRoom(After(s, after[..at]).codes) then r == Callback(StoreFull, None, None) && |after| == at
       else
         && |after| == at + 1
         && var e := after[at];
         && e.IssueFromExchange? && e.st == st && e.login.email == email
         && s.parse(st.redirectURI).Some?
         && r.reply == Redirect(LocationFor(s.parse(st.redirectURI).value, e.code, st.state))
         && r.cookie == (if email == "" then None
                         else Some(CookieFor(After(s, after).keys.secret, e.login, e.cookieAt).token))
         && r.consent == (if email == "" || !s.recordsConsent then None else Some(email))
  }

  /** A code was stored whose owner is not known yet. */
  ghost predicate Postponed(s: Setup, after: Trace, st: OAuthState, requestToken: string, r: Callback, at: nat) {
    && at <= |after|
    && if !AuthCodes.HasRoom(After(s, after[..at]).codes) then r == Callback(StoreFull, None, None) && |after| == at
       else
         && |after| == at + 1
         && var e := after[at];
         && e.IssueDeferred? && e.st == st && e.requestToken == requestToken
         && s.parse(st.redirectURI).Some?
         && r == Callback(Redirect(LocationFor(s.parse(st.redirectURI).value, e.code, st.state)), None, None)
  }

  ghost predicate TokenRan(s: Setup, before: Trace, after: Trace, p: TokenParams, kite: Kite, r: Reply, at: nat) {
    if p.grantType != "authorization_code" then r == UnsupportedGrantType && after == before
    else if p.code == "" || p.codeVerifier == "" || p.clientID == "" then r == InvalidRequest && after == before
    else if !ClientMayPresent(After(s, before).clients, p) then r == InvalidClient && after == before
    else
      var auth := ClientAuth(p.clientID, After(s, before).clients[p.clientID].isKiteAPIKey, p.clientSecret);
      && |before| < at && |after| == at + 1 && before <= after && after[|before|] == Authenticate(auth)
      && Redeemed(s, after, p, auth, kite, r, at)
  }

  /** The code was taken out of the store at point `at`: either for nothing, or for a token. */
  ghost predicate Redeemed(s: Setup, after: Trace, p: TokenParams, auth: ClientAuth, kite: Kite, r: Reply, at: nat) {
    && |after| == at + 1
    && var codes, e := After(s, after[..at]).codes, after[at];
    && (e.Burn? || e.Redeem?) && e.code == p.code && e.auth == auth
    && if !AuthCodes.Live(codes, p.code, e.at) then e.Burn? && r == InvalidGrant
       else
         match TokenPlan(s, p, codes[p.code], kite)
         case Refuse(reply) => e.Burn? && r == reply
         case Named(email) =>
           && e.Redeem? && e.verifier == p.codeVerifier && ResolvedEmail(codes[p.code], e.proof) == email
           && var key := After(s, after).keys.secret;
              r == AccessToken(Jwts.Mint(key, email, p.clientID, s.tokenExpiry, e.mintedAt), s.tokenExpiry / SECOND)
         case Later => false
  }

  // ----- What the handlers know about the record -----

  lemma NoClientIsNameless(s: Setup, t: Trace)
    requires LegalTrace(s, t)
    ensures "" !in After(s, t).clients && After(s, t).clients.Keys <= After(s, t).ids
  {
    InvAlways(s, t);
  }

  lemma KiteClientsAreRemembered(s: Setup, t: Trace, id: string)
    requires LegalTrace(s, t) && Clients.IsKite(After(s, t).clients, id)
    ensures id in After(s, t).kite
  {
    InvAlways(s, t);
  }

  lemma AcceptedURIsParse(s: Setup, t: Trace, req: AuthRequest)
    requires LegalTrace(s, t) && req in After(s, t).accepted
    ensures s.parse(req.redirectURI).Some?
  {
    InvAlways(s, t);
  }

  lemma SignedURIsParse(s: Setup, t: Trace, st: OAuthState)
    requires LegalTrace(s, t) && st in After(s, t).signed
    ensures s.parse(st.redirectURI).Some?
  {
    InvAlways(s, t);
    AcceptedURIsParse(s, t, RequestOf(st));
  }

  lemma RegistryKeysAreLong(s: Setup, t: Trace, st: OAuthState)
    requires LegalTrace(s, t) && st in After(s, t).signed && st.registryKey != ""
    ensures |st.registryKey| >= REGISTRY_KEY_PREFIX
  {
    InvAlways(s, t);
  }

  /** Whom Kite names for a browser login: by the credentials of the person the target names, or by the server's. */
  function BrowserIdentity(requestToken: string, dashEmail: string, kite: Kite): Option<string> {
    if requestToken == "" then None
    else if dashEmail == "" then kite.exchange(requestToken)
    else
      var c := kite.credentialsOf(dashEmail);
      if c.None? then None else kite.exchangeWith(requestToken, c.value.0, c.value.1)
  }

  /** What a browser login did: the redirect and, for whom Kite names, the cookie. */
  ghost predicate BrowserRan(s: Setup, before: Trace, after: Trace, requestToken: string, target: Option<Bytes>,
                             kite: Kite, r: Option<(Jwts.Token, Bytes)>)
  {
    var read := if target.Some? then BrowserTarget.Read(target.value)
                else BrowserTarget.Target([], BrowserTarget.FALLBACK);
    var email := BrowserIdentity(requestToken, read.email, kite);
    if email.None? then r.None? && after == before
    else
      && |after| == |before| + 1 && before <= after
      && var e := after[|before|];
      && e.LogIn? && e.login.email == email.value
      && r == Some((CookieFor(After(s, after).keys.secret, e.login, e.cookieAt).token, read.redirect))
  }

  /** If an elevation was handed out by a handler, the check was passed first. */
  ghost predicate ElevationRan(s: Setup, before: Trace, after: Trace, email: string, enrolled: bool,
                               r: Option<Jwts.Token>) {
    if r.None? then after == before
    else
      && |after| == |before| + 2
      && var e := after[|before| + 1];
      && e.Elevate? && e.email == email && e.basis.Some?
      && e.basis.value.email == email && e.basis.value.enrolled == enrolled
      && after == before + [PassCheck(e.basis.value), e]
      && r.value == ElevationFor(After(s, after).keys.secret, email, e.basis, e.mintedAt).token
      && r.value.Jwt? && r.value.key == After(s, after).keys.secret
      && Jwts.IsClaimed(r.value.claims, email, "admin-mfa", e.mintedAt, 15 * MINUTE)
  }

  /** An unexpired token for the dashboard under one of the server's keys. */
  ghost predicate IsSession(keys: Jwts.Keys, token: Jwts.Token, now: int) {
    && token.Jwt? && token.alg == Jwts.HS256
    && (token.key == keys.secret || (keys.previous != "" && token.key == keys.previous))
    && now < token.claims.expiresAt && "dashboard" in token.claims.audience
  }

  datatype Gate = Open | ToVerify | ToEnroll | Unauthorized

  ghost predicate IsGenuine(w: World, token: Jwts.Token, arrived: int) {
    Jwts.SignedUnder(w.keys, token) ==> exists m | m in w.minted :: m.token == token && m.at <= arrived
  }

  lemma CookiesStayGenuine(s: Setup, before: Trace, after: Trace, cookie: Option<Jwts.Token>, arrived: int)
    requires Grew(s, before, after) && (cookie.Some? ==> IsGenuine(After(s, before), cookie.value, arrived))
    ensures cookie.Some? ==> IsGenuine(After(s, after), cookie.value, arrived)
  {
  }

  function ClientsAfter(w: World, e: Event): Clients.ClientMap {
    if e.ClientCall? then Clients.Apply(w.clients, e.op) else w.clients
  }

  function RowsAfter(w: World, e: Event): Clients.Rows {
    if e.Write? then Persistence.Land(w.db, e.n, e.accepted).rows else w.db.rows
  }

  function CodesAfter(s: Setup, w: World, e: Event): AuthCodes.Entries {
    var c := CodeCall(s, w, e);
    if c.Some? then AuthCodes.Apply(w.codes, c.value) else w.codes
  }

  lemma ExchangeIsLegal(s: Setup, w: World, e: Event)
    requires e.IssueFromExchange? && e.st in w.signed && e.login.at <= e.at <= e.cookieAt && w.now <= e.at
    requires e.code !in w.births && AuthCodes.HasRoom(w.codes)
    ensures Legal(s, w, e)
  {
  }

  /** Generate overwrites whatever expiry the entry it is given has. */
  lemma StampIsSet(m: AuthCodes.Entries, code: string, req: AuthRequest, email: string, requestToken: string, at: int)
    ensures AuthCodes.Apply(m, AuthCodes.Generate(code, EntryFor(req, email, requestToken, 0), at))
         == AuthCodes.Apply(m, AuthCodes.Generate(code, EntryFor(req, email, requestToken, at), at))
  {
  }

  lemma RowsNameTheirClients(s: Setup, t: Trace)
    requires LegalTrace(s, t)
    ensures forall id | id in After(s, t).db.rows :: After(s, t).db.rows[id].clientID == id
  {
    InvAlways(s, t);
  }

  lemma RestartIsLegal(s: Setup, w: World, e: Event)
    requires e.Restart? && w.now <= e.at && forall m | m in w.minted :: m.at <= e.at
    ensures Legal(s, w, e)
  {
  }

  lemma NothingIsRestored()
    ensures Clients.Restored(map[]) == map[]
  {
  }

  lemma RestartGrowsTheTrace(s: Setup, t: Trace, e: Event)
    requires LegalTrace(s, t) && e.Restart?
    requires After(s, t).now <= e.at && forall m | m in After(s, t).minted :: m.at <= e.at
    ensures LegalTrace(s, t + [e])
    ensures var w, w' := After(s, t), After(s, t + [e]);
            && w'.clients == (if e.loaded then Clients.Restored(w.db.rows) else map[]) && w'.codes == map[]
            && w'.keys == Jwts.Keys(e.secret, e.previous) && w'.db.rows == w.db.rows
  {
    hide LegalTrace, After, Legal, Step;
    RestartIsLegal(s, After(s, t), e);
    TraceGrows(s, t, e);
    RestartEffect(s, After(s, t), e);
  }

  lemma OnlyRestartsChangeKeys(s: Setup, w: World, e: Event)
    requires Legal(s, w, e) && !e.Restart?
    ensures Step(s, w, e).keys == w.keys && w.kite <= Step(s, w, e).kite
    ensures e.PassCheck? ==> e.pass in Step(s, w, e).passes
  {
    if e.IssueFromExchange? {
      hide Step;
      ExchangeStep(s, w, e);
    } else if e.Redeem? {
      hide Step;
      RedeemStep(s, w, e);
    }
  }

  lemma EventRemembers(s: Setup, t: Trace, e: Event)
    requires LegalTrace(s, t) && Legal(s, After(s, t), e)
    ensures KeepsEvidence(After(s, t), Step(s, After(s, t), e))
  {
    hide Legal, Step;
    InvAlways(s, t);
    StepRemembers(s, After(s, t), e);
  }

  lemma {:induction false} RunGrows(s: Setup, t: Trace, more: Trace)
    requires LegalTrace(s, t + more) && Theorems.NeverRestarted(more)
    ensures Grew(s, t, t + more)
  {
    hide Step, Legal, LegalTrace, After, Inv;
    if more == [] {
      assert t + more == t;
      NothingGrew(s, t);
    } else {
      var n := |more| - 1;
      var p := t + more[..n];
      assert (t + more)[..|p|] == p && p + [more[n]] == t + more;
      Theorems.LegalPrefix(s, t + more, |p|);
      RunGrows(s, t, more[..n]);
      EventRemembers(s, p, more[n]);
      OnlyRestartsChangeKeys(s, After(s, p), more[n]);
      assert (t + more)[..|p| + 1] == t + more;
    }
  }

  lemma WriteIsLegal(s: Setup, w: World, n: nat, accepted: bool)
    requires n in w.db.inFlight
    ensures Legal(s, w, Write(n, accepted))
  {
  }

  lemma CallIssuesItsWrite(s: Setup, w: World, op: Clients.ClientOp)
    ensures var db, row := Step(s, w, ClientCall(op)).db, Clients.RowToWrite(w.clients, op);
            row.Some? ==>
              var n := |w.db.writes|; n in db.inFlight && n < |db.writes| && db.writes[n] == row.value
  {
  }

  lemma TraceStep(s: Setup, t: Trace, e: Event)
    ensures After(s, t + [e]) == Step(s, After(s, t), e)
  {
    assert (t + [e])[..|t|] == t;
  }

  lemma WriteStaysUnderWay(s: Setup, w: World, e: Event, n: nat)
    requires Legal(s, w, e) && !e.Restart? && !(e.Write? && e.n == n)
    requires n in w.db.inFlight && n < |w.db.writes|
    ensures var db := Step(s, w, e).db; n in db.inFlight && n < |db.writes| && db.writes[n] == w.db.writes[n]
  {
    hide Step, Legal, Clients.RowToWrite;
    ClientCallEffect(s, w, e);
  }

  /** None of the events is write `mine`. */
  predicate LeavesAlone(t: Trace, mine: Option<nat>) {
    mine.Some? ==> forall i | 0 <= i < |t| :: !(t[i].Write? && t[i].n == mine.value)
  }

  lemma {:induction false} WriteStaysMine(s: Setup, t: Trace, more: Trace, n: nat)
    requires LegalTrace(s, t + more) && Theorems.NeverRestarted(more) && LeavesAlone(more, Some(n))
    requires n in After(s, t).db.inFlight && n < |After(s, t).db.writes|
    ensures var db := After(s, t + more).db;
            n in db.inFlight && n < |db.writes| && db.writes[n] == After(s, t).db.writes[n]
  {
    hide Step, Legal, LegalTrace, After;
    if more == [] {
      assert t + more == t;
    } else {
      var k := |more| - 1;
      var p := t + more[..k];
      assert (t + more)[..|p|] == p && (t + more)[..|p| + 1] == t + more;
      Theorems.LegalPrefix(s, t + more, |p|);
      WriteStaysMine(s, t, more[..k], n);
      WriteStaysUnderWay(s, After(s, p), more[k], n);
    }
  }

  lemma EvidenceStays(s: Setup, before: Trace, after: Trace)
    requires Grew(s, before, after)
    ensures After(s, before).signed <= After(s, after).signed && After(s, before).accepted <= After(s, after).accepted
    ensures After(s, before).authenticated <= After(s, after).authenticated
    ensures before <= after
  {
  }

  lemma NothingGrew(s: Setup, t: Trace)
    ensures Grew(s, t, t)
  {
  }

  lemma GrewOnce(s: Setup, a: Trace, b: Trace, c: Trace)
    requires Grew(s, a, b) && Grew(s, b, c)
    ensures Grew(s, a, c)
    ensures c[..|b|] == b && c[..|a|] == a
  {
  }

  class Handler {
    const setup: Setup
    const clients: Clients.ClientStore
    const codes: AuthCodes.AuthCodeStore
    const jwt: Jwts.JWTManager

    /** Every access to a shared store so far.  It belongs to the model: only what stands for the clock, for fresh
      * random values and for the origin of a genuine token looks at it. */
    var trace: Trace

    ghost predicate Valid()
      reads {this, codes, jwt} + clients.Footprint()
    {
      && LegalTrace(setup, trace)
      && clients.clients == World().clients
      && codes.entries == World().codes
      && KeysFit() && RowsFit()
    }

    ghost predicate KeysFit()
      reads this, jwt
    {
      jwt.CurrentKeys() == World().keys && jwt.tokenExpiry == setup.tokenExpiry
    }

    ghost predicate RowsFit()
      reads {this} + clients.Footprint()
    {
      World().db.rows == if clients.persister == null then map[] else clients.persister.rows
    }

    ghost function World(): World
      reads this
    {
      After(setup, trace)
    }

    /** The database, as this request finds it. */
    function BackendFor(saved: bool): Backend {
      if clients.persister == null then NoBackend else Backend(saved)
    }

    ghost function Footprint(): set<object> {
      {this, codes} + clients.Footprint()
    }

    /** The signature oracle: a token that checks out under one of the server's keys was minted by the server,
      * before the request that brings it arrived. */
    ghost predicate Genuine(token: Jwts.Token, arrived: int)
      reads this
    {
      IsGenuine(World(), token, arrived)
    }

    /** A first start, with a database that holds no clients. */
    constructor (setup: Setup, persister: Clients.ClientPersister?)
      requires persister != null ==> persister.rows == map[]
      ensures Valid() && trace == [] && this.setup == setup
      ensures fresh(Footprint() - {persister}) && clients.persister == persister
    {
      this.setup := setup;
      clients := new Clients.ClientStore(persister);
      codes := new AuthCodes.AuthCodeStore();
      var j := new Jwts.JWTManager(setup.secret, setup.tokenExpiry);
      j.SetPreviousSecret(setup.previousSecret);
      jwt := j;
      trace := [];
    }

    /** A later start: the clients come from the database if it can be read, codes are gone, and the keys are those
      * configured now. */
    constructor Restarted(setup: Setup, persister: Clients.ClientPersister?, past: Trace, secret: string,
                          previous: string, readable: bool, now: int)
      requires LegalTrace(setup, past)
      requires After(setup, past).db.rows == if persister == null then map[] else persister.rows
      requires After(setup, past).now <= now && forall m | m in After(setup, past).minted :: m.at <= now
      ensures Valid() && this.setup == setup
      ensures trace == past + [Restart(secret, previous, persister == null || readable, now)]
      ensures fresh(Footprint() - {persister}) && clients.persister == persister
    {
      hide LegalTrace, After, Legal, Clients.Restored;
      RowsNameTheirClients(setup, past);
      var store := new Clients.ClientStore(persister);
      var loaded := store.LoadFromDB(readable);
      this.setup := setup;
      clients := store;
      codes := new AuthCodes.AuthCodeStore();
      var j := new Jwts.JWTManager(secret, setup.tokenExpiry);
      j.SetPreviousSecret(previous);
      jwt := j;
      var e := Restart(secret, previous, loaded, now);
      RestartGrowsTheTrace(setup, past, e);
      NothingIsRestored();
      trace := past + [e];
    }

    /** Other requests run for a while.  What they do not do is land write `mine`, which is this request's own. */
    method Others(mine: Option<nat>)
      requires Valid()
      modifies Footprint()
      ensures Valid() && Grew(setup, old(trace), trace)
      ensures mine.Some? && mine.value in old(World().db.inFlight) && mine.value < |old(World().db.writes)| ==>
                && mine.value in World().db.inFlight && mine.value < |World().db.writes|
                && World().db.writes[mine.value] == old(World().db.writes)[mine.value]
    {
      hide After, LegalTrace;
      assert trace + [] == trace;
      var more: Trace :| LegalTrace(setup, trace + more) && Theorems.NeverRestarted(more) && LeavesAlone(more, mine)
                         && (clients.persister == null ==> After(setup, trace + more).db.rows == map[]);
      ghost var soFar := trace;
      trace := trace + more;
      clients.clients := After(setup, trace).clients;
      codes.entries := After(setup, trace).codes;
      if clients.persister != null {
        clients.persister.rows := After(setup, trace).db.rows;
      }
      RunGrows(setup, soFar, more);
      if mine.Some? && mine.value in After(setup, soFar).db.inFlight && mine.value < |After(setup, soFar).db.writes| {
        WriteStaysMine(setup, soFar, more, mine.value);
      }
    }

    /** What a mutation of the client store has left to write goes to the database, if there is one. */
    method WriteBack(row: Option<Clients.ClientLoadEntry>, n: nat, saved: bool)
      requires Valid()
      requires row.Some? ==> n in World().db.inFlight && n < |World().db.writes| && World().db.writes[n] == row.value
      modifies Footprint()
      ensures Valid() && Grew(setup, old(trace), trace)
      ensures if row.None? || clients.persister == null then trace == old(trace)
              else old(trace) < trace && trace[|trace| - 1] == Write(n, saved)
    {
      hide After, Step, LegalTrace, Grew;
      if row.None? || clients.persister == null {
        NothingGrew(setup, trace);
        return;
      }
      ghost var t0 := trace;
      Others(Some(n));
      ghost var t1 := trace;
      EvidenceStays(setup, t0, t1);
      clients.Persist(row.value, saved);
      WriteIsLegal(setup, After(setup, trace), n, saved);
      hide Legal;
      Record(Write(n, saved));
      GrewOnce(setup, t0, t1, trace);
      assert trace == t1 + [Write(n, saved)];
    }

    /** The handler notes the store access it has just made. */
    method Record(e: Event)
      requires LegalTrace(setup, trace) && KeysFit() && Legal(setup, World(), e) && !e.Restart?
      requires clients.clients == ClientsAfter(World(), e) && codes.entries == CodesAfter(setup, World(), e)
      requires RowsAfter(World(), e) == if clients.persister == null then map[] else clients.persister.rows
      modifies this`trace
      ensures Valid() && trace == old(trace) + [e] && Grew(setup, old(trace), trace)
      ensures e.Accept? ==> e.req in World().accepted
      ensures e.Authenticate? ==> e.auth in World().authenticated
      ensures e.PassCheck? ==> e.pass in World().passes
    {
      TraceGrows(setup, trace, e);
      InvAlways(setup, trace);
      StepRemembers(setup, World(), e);
      ClientCallEffect(setup, World(), e);
      CodeCallEffect(setup, World(), e);
      RecordsEffect(setup, World(), e);
      OnlyRestartsChangeKeys(setup, World(), e);
      trace := trace + [e];
    }

    method ReadClock(notBefore: int) returns (t: int)
      ensures t >= notBefore && t >= World().now
    {
      var d: nat :| true;
      t := (if notBefore > After(setup, trace).now then notBefore else After(setup, trace).now) + d;
    }

    // ----- Dynamic client registration -----

    /** POST /oauth/register.  `saved` says whether the persister accepts the write. */
    method Register(redirectURIs: seq<string>, clientName: string, saved: bool) returns (r: Reply)
      requires Valid()
      modifies Footprint()
      ensures Valid() && Grew(setup, old(trace), trace)
      ensures !(1 <= |redirectURIs| <= 10) ==> r == InvalidRequest && trace == old(trace)
      ensures 1 <= |redirectURIs| <= 10 ==>
                && r.Registered? && r.clientID !in old(World()).ids && old(trace) < trace
                && var e := trace[|old(trace)|];
                && e.ClientCall? && e.op.Register? && e.op.id == r.clientID && e.op.secret == r.clientSecret
                && e.op.uris == redirectURIs && e.op.name == clientName && e.op.at >= old(World()).now
                && WroteBack(setup, trace, |old(trace)|, BackendFor(saved))
    {
      hide After, Step, LegalTrace;
      if |redirectURIs| == 0 || |redirectURIs| > MAX_REGISTERED_URIS {
        NothingGrew(setup, trace);
        return InvalidRequest;
      }
      NoClientIsNameless(setup, trace);
      var w := After(setup, trace);
      var id := RandomHex(w.ids);
      var secret := RandomHex({});
      var now := ReadClock(0);
      ghost var t0 := trace;
      var op, row := clients.RegisterLocked(id, secret, redirectURIs, clientName, now);
      NoteClientCall(op, Some(row), saved);
      assert trace[..|t0|] == t0;
      return Registered(id, secret);
    }

    /** After the locked part of a mutation: the call is noted, and what it leaves to write is written. */
    method NoteClientCall(op: Clients.ClientOp, row: Option<Clients.ClientLoadEntry>, saved: bool)
      requires LegalTrace(setup, trace) && KeysFit() && RowsFit() && codes.entries == World().codes
      requires Legal(setup, World(), ClientCall(op)) && clients.clients == Clients.Apply(World().clients, op)
      requires row == Clients.RowToWrite(World().clients, op)
      modifies Footprint()
      ensures Valid() && Grew(setup, old(trace), trace)
      ensures old(trace) < trace && trace[|old(trace)|] == ClientCall(op)
      ensures WroteBack(setup, trace, |old(trace)|, BackendFor(saved))
    {
      hide After, Step, LegalTrace, Legal, Grew, Clients.Apply, Clients.RowToWrite;
      ghost var t0 := trace;
      var n := |After(setup, trace).db.writes|;
      CallIssuesItsWrite(setup, After(setup, trace), op);
      Record(ClientCall(op));
      ghost var t1 := trace;
      TraceStep(setup, t0, ClientCall(op));
      WriteBack(row, n, saved);
      GrewOnce(setup, t0, t1, trace);
      assert trace[..|t0|] == t0;
    }

    // ----- Authorization endpoint -----

    /** The part of Authorize that gets to know the client.  `seen` is the point at which a known client was asked
      * whether it is a Kite client, and `call` the point of the client store call, if one was made. */
    method AdmitClient(clientID: string, redirectURI: string, saved: bool) returns (ghost seen: nat, ghost call: nat)
      requires Valid() && clientID != ""
      modifies Footprint()
      ensures Valid() && Grew(setup, old(trace), trace)
      ensures Admitted(setup, old(trace), trace, clientID, redirectURI, BackendFor(saved), seen, call)
    {
      hide After, Step, LegalTrace, WroteBack;
      var client := clients.Get(clientID);
      Others(None);
      ghost var t := trace;
      seen, call := |trace|, |trace|;
      if client.None? {
        AutoRegister(clientID, redirectURI, saved);
        GrewOnce(setup, old(trace), t, trace);
      } else {
        var isKite := clients.IsKiteClient(clientID);
        if isKite {
          call := WidenKiteClient(clientID, redirectURI, saved);
        }
        GrewOnce(setup, old(trace), t, trace);
      }
    }

    method AutoRegister(clientID: string, redirectURI: string, saved: bool)
      requires Valid() && clientID != ""
      modifies Footprint()
      ensures Valid() && Grew(setup, old(trace), trace)
      ensures old(trace) < trace && var e := trace[|old(trace)|];
              && e.ClientCall? && e.op.RegisterKite? && e.op.id == clientID && e.op.uris == [redirectURI]
              && WroteBack(setup, trace, |old(trace)|, BackendFor(saved))
    {
      hide After, Step, LegalTrace, Grew;
      var now := ReadClock(0);
      NoClientIsNameless(setup, trace);
      var op, row := clients.RegisterKiteClientLocked(clientID, [redirectURI], now);
      NoteClientCall(op, row, saved);
    }

    method WidenKiteClient(clientID: string, redirectURI: string, saved: bool) returns (ghost call: nat)
      requires Valid() && Clients.IsKite(clients.clients, clientID)
      modifies Footprint()
      ensures Valid() && Grew(setup, old(trace), trace)
      ensures |old(trace)| <= call < |trace| && trace[call] == ClientCall(Clients.AddURI(clientID, redirectURI))
      ensures WroteBack(setup, trace, call, BackendFor(saved))
    {
      hide After, Step, LegalTrace;
      KiteClientsAreRemembered(setup, trace, clientID);
      Others(None);
      ghost var t := trace;
      call := |t|;
      var row := clients.AddRedirectURILocked(clientID, redirectURI);
      NoteClientCall(Clients.AddURI(clientID, redirectURI), row, saved);
      GrewOnce(setup, old(trace), t, trace);
    }

    /** GET /oauth/authorize.  Nothing is signed or issued before this request's own lookup of its redirect URI. */
    method Authorize(p: AuthorizeParams, cookie: Option<Jwts.Token>, checker: FreshnessCheck,
                     registry: Option<Registry>,
                     arrived: int, saved: bool)
      returns (r: Reply, ghost at: Points)
      requires Valid() && (cookie.Some? ==> Genuine(cookie.value, arrived))
      modifies Footprint()
      ensures Valid() && Grew(setup, old(trace), trace)
      ensures AuthorizeRan(setup, old(trace), trace, p, cookie, checker, registry, BackendFor(saved), r, at)
    {
      hide After, Step, LegalTrace, Admitted, LoginAnswer;
      at := Points(0, 0, 0, 0, 0, 0, 0);
      var bad := ParamError(setup, p);
      if bad.Some? {
        r := bad.value;
        return;
      }
      var req := AuthRequest(p.clientID, p.redirectURI, p.codeChallenge, p.state);
      ghost var t0 := trace;
      ghost var seen, call := AdmitClient(p.clientID, p.redirectURI, saved);
      ghost var t1 := trace;
      Others(None);
      ghost var t2 := trace;
      GrewOnce(setup, t0, t1, t2);
      CookiesStayGenuine(setup, t0, t2, cookie, arrived);
      at := at.(kiteRead := seen, call := call, admitted := |t1|, checked := |t2|);
      var known := CheckRedirectURI(req);
      if !known {
        assert trace == t2 && trace[..|t2|] == t2;
        r := RedirectMismatch;
        return;
      }
      ghost var t3 := trace;
      GrewOnce(setup, t0, t2, t3);
      r, at := AnswerAccepted(req, cookie, checker, registry, arrived, at);
      GrewOnce(setup, t2, t3, trace);
      GrewOnce(setup, t1, t2, trace);
      GrewOnce(setup, t0, t1, trace);
    }

    method CheckRedirectURI(req: AuthRequest) returns (known: bool)
      requires Valid() && setup.IsWebURL(req.redirectURI)
      requires req.clientID != "" && req.redirectURI != "" && req.codeChallenge != ""
      modifies this`trace
      ensures Valid() && Grew(setup, old(trace), trace)
      ensures known <==> Clients.IsRegisteredURI(old(World()).clients, req.clientID, req.redirectURI)
      ensures trace == old(trace) + if known then [Accept(req)] else []
      ensures known ==> req in World().accepted
    {
      hide After, Step, LegalTrace;
      known := clients.ValidateRedirectURI(req.clientID, req.redirectURI);
      if known {
        Record(Accept(req));
      }
    }

    /** The part of Authorize after the request was accepted. */
    method AnswerAccepted(req: AuthRequest, cookie: Option<Jwts.Token>, checker: FreshnessCheck,
                          registry: Option<Registry>,
                          arrived: int, ghost soFar: Points)
      returns (r: Reply, ghost at: Points)
      requires Valid() && req in World().accepted && (cookie.Some? ==> Genuine(cookie.value, arrived))
      modifies Footprint()
      ensures Valid() && Grew(setup, old(trace), trace)
      ensures at == soFar.(session := at.session, seenAt := at.seenAt, decided := at.decided)
      ensures |old(trace)| <= at.session && Answered(setup, trace, req, cookie, checker, registry, r, at)
    {
      hide After, Step, LegalTrace, LoginAnswer;
      ghost var t0 := trace;
      Others(None);
      ghost var t1 := trace;
      CookiesStayGenuine(setup, t0, t1, cookie, arrived);
      var session;
      ghost var seenAt;
      session, seenAt := ShortCircuitFromDashboard(req, cookie, checker, arrived);
      at := soFar.(session := |t1|, seenAt := seenAt);
      GrewOnce(setup, t0, t1, trace);
      if session.Some? {
        r := Redirect(session.value);
        return;
      }
      Others(None);
      ghost var t2 := trace;
      at := at.(decided := |t2|);
      GrewOnce(setup, t0, t1, t2);
      r := AnswerByLogin(req, registry);
      GrewOnce(setup, t1, t2, trace);
      GrewOnce(setup, t0, t1, trace);
    }

    method AnswerByLogin(req: AuthRequest, registry: Option<Registry>) returns (r: Reply)
      requires Valid() && req in World().accepted
      modifies this`trace
      ensures Valid() && Grew(setup, old(trace), trace)
      ensures LoginAnswer(setup, trace, req, registry, r, |old(trace)|)
    {
      hide After, Step, LegalTrace;
      ghost var t := trace;
      var isKite := clients.IsKiteClient(req.clientID);
      if isKite {
        r := RedirectToKiteLogin(req.clientID, req);
      } else if registry.Some? && registry.value.hasEntries {
        Record(SignRequest(req));
        r := EmailPrompt(StateOf(req));
      } else if setup.kiteAPIKey == "" {
        r := NoCredentialsConfigured;
      } else {
        r := RedirectToKiteLogin(setup.kiteAPIKey, req);
      }
      assert trace[..|t|] == t;
    }

    method RedirectToKiteLogin(apiKey: string, req: AuthRequest) returns (r: Reply)
      requires Valid() && req in World().accepted
      modifies this`trace
      ensures Valid() && Grew(setup, old(trace), trace)
      ensures trace == old(trace) + [SignRequest(req)] && r == ToKite(apiKey, StateOf(req))
    {
      hide After, Step, LegalTrace;
      Record(SignRequest(req));
      return ToKite(apiKey, StateOf(req));
    }

    /** Issues a code at once if the dashboard session serves and the code store has room; otherwise does nothing. */
    method ShortCircuitFromDashboard(req: AuthRequest, cookie: Option<Jwts.Token>, checker: FreshnessCheck,
                                     arrived: int)
      returns (r: Option<Location>, ghost seenAt: int)
      requires Valid() && req in World().accepted && (cookie.Some? ==> Genuine(cookie.value, arrived))
      modifies Footprint()
      ensures Valid() && Grew(setup, old(trace), trace)
      ensures r.Some? <==>
                SessionServes(old(World()).keys, cookie, checker, seenAt) && AuthCodes.HasRoom(old(World()).codes)
      ensures r.None? ==> trace == old(trace)
      ensures r.Some? ==>
                && |trace| == |old(trace)| + 1 && old(trace) <= trace
                && var e := trace[|old(trace)|];
                && e.IssueFromSession? && e.req == req && e.cookie.token == cookie.value && e.seenAt == seenAt
                && setup.parse(req.redirectURI).Some?
                && r.value == LocationFor(setup.parse(req.redirectURI).value, e.code, req.state)
    {
      hide After, Step, LegalTrace;
      r, seenAt := None, 0;
      if cookie.None? {
        return;
      }
      var now := ReadClock(arrived);
      seenAt := now;
      var v := jwt.ValidateToken(cookie.value, [DASHBOARD], now);
      if v.Invalid? || v.claims.subject == "" {
        return;
      }
      var email := v.claims.subject;
      if checker.None? || !checker.value(email) {
        return;
      }
      var minted := After(setup, trace).minted;
      var m :| m in minted && m.token == cookie.value && m.at <= now;
      r := IssueFromDashboard(req, m, email, now);
    }

    /** The part of the short circuit after its guards.  `m` is the session token, seen at time `seenAt`. */
    method IssueFromDashboard(req: AuthRequest, m: Minted, email: string, seenAt: int) returns (r: Option<Location>)
      requires Valid() && req in World().accepted && m in World().minted && m.at <= seenAt
      requires Jwts.Accepts(World().keys, m.token, [DASHBOARD], seenAt) && Jwts.Subject(m.token) == email != ""
      modifies this`trace, codes
      ensures Valid() && Grew(setup, old(trace), trace)
      ensures r.Some? <==> AuthCodes.HasRoom(old(World()).codes)
      ensures r.None? ==> trace == old(trace)
      ensures r.Some? ==>
                && |trace| == |old(trace)| + 1 && old(trace) <= trace
                && var e := trace[|old(trace)|];
                && e.IssueFromSession? && e.req == req && e.cookie == m && e.seenAt == seenAt
                && setup.parse(req.redirectURI).Some?
                && r.value == LocationFor(setup.parse(req.redirectURI).value, e.code, req.state)
    {
      hide After, Step, LegalTrace, Legal, Jwts.Accepts;
      var w := After(setup, trace);
      var at := ReadClock(seenAt);
      var drawn := RandomHex(w.births.Keys);
      var code := codes.Generate(drawn, EntryFor(req, email, "", 0), at);
      if code.None? {
        return None;
      }
      StampIsSet(w.codes, drawn, req, email, "", at);
      ghost var e := IssueFromSession(drawn, req, m, seenAt, at);
      assert codes.entries == CodesAfter(setup, w, e);
      SessionIsLegal(setup, w, e);
      AcceptedURIsParse(setup, trace, req);
      Record(IssueFromSession(drawn, req, m, seenAt, at));
      var u := setup.parse(req.redirectURI);
      return Some(LocationFor(u.value, drawn, req.state));
    }

    /** POST /oauth/email-lookup. */
    method HandleEmailLookup(email: string, data: SignedData, csrfOk: bool, registry: Option<Registry>)
      returns (r: Reply)
      requires Valid() && (data.Carries? ==> data.st in World().signed)
      modifies this`trace
      ensures Valid() && Grew(setup, old(trace), trace)
      ensures r == LookupOutcome(email, data, csrfOk, registry) && LookupRan(old(trace), trace, data, r)
    {
      hide After, Step, LegalTrace;
      if !csrfOk {
        if data.Carries? {
          Record(SignAgain(data.st, None));
          return EmailPrompt(data.st);
        }
        return InvalidSession;
      }
      if !data.Carries? {
        return InvalidSession;
      }
      var st := data.st;
      if email == "" {
        Record(SignAgain(st, None));
        return EmailPrompt(st);
      }
      if registry.None? || !registry.value.hasEntries {
        return RegistryNotConfigured;
      }
      var key := registry.value.byEmail(email);
      if key.None? {
        Record(SignAgain(st, None));
        return EmailPrompt(st);
      }
      st := st.(registryKey := key.value);
      if |key.value| < REGISTRY_KEY_PREFIX {
        return Aborted;  // the log line slices the key before anything is signed, and panics
      }
      Record(SignAgain(data.st, Some(key.value)));
      return ToKite(key.value, st);
    }

    // ----- Kite's callback -----

    /** Kite sends the browser back with flow=oauth.  Point `at` of the record is where the code store was asked. */
    method HandleKiteOAuthCallback(requestToken: string, data: SignedData, kite: Kite, registry: Option<Registry>)
      returns (r: Callback, ghost at: nat)
      requires Valid() && (data.Carries? ==> data.st in World().signed)
      modifies Footprint()
      ensures Valid() && Grew(setup, old(trace), trace)
      ensures CallbackRan(setup, old(trace), trace, requestToken, data, kite, registry, r, at)
    {
      hide After, Step, LegalTrace;
      at := 0;
      if requestToken == "" || !data.Carries? {
        r := Callback(InvalidRequest, None, None);
        return;
      }
      var st := data.st;
      var isKite := clients.IsKiteClient(st.clientID);
      if isKite {
        var immediate := None;
        var apiSecret := kite.secretOf(st.clientID);
        if apiSecret.Some? {
          immediate := kite.exchangeWith(requestToken, st.clientID, apiSecret.value);
        }
        if immediate.Some? {
          r, at := IssueNamed(st, immediate.value);
        } else {
          r, at := IssueForLater(st, requestToken);
        }
      } else if st.registryKey != "" {
        var apiSecret := "";
        if registry.Some? {
          var secret := registry.value.secretOf(st.registryKey);
          if secret.Some? {
            apiSecret := secret.value;
          }
        }
        if apiSecret == "" {
          r := Callback(RegistryCredentialsMissing, None, None);
          return;
        }
        var email := kite.exchangeWith(requestToken, st.registryKey, apiSecret);
        if email.None? {
          r := Callback(ExchangeFailed, None, None);
          return;
        }
        r, at := IssueNamed(st, email.value);
        RegistryKeysAreLong(setup, old(trace), st);
        var logged := st.registryKey[..REGISTRY_KEY_PREFIX];  // never out of range
      } else {
        var email := kite.exchange(requestToken);
        if email.None? {
          r := Callback(ExchangeFailed, None, None);
          return;
        }
        r, at := IssueNamed(st, email.value);
      }
    }

    /** Stores a code for someone Kite has just named, and unless the name is empty sets the dashboard cookie and
      * records the consent. */
    method IssueNamed(st: OAuthState, email: string) returns (r: Callback, ghost at: nat)
      requires Valid() && st in World().signed
      modifies Footprint()
      ensures Valid() && Grew(setup, old(trace), trace)
      ensures |old(trace)| <= at && Answers(setup, trace, st, email, r, at)
    {
      hide After, Step, LegalTrace, Grew, Answers;
      var exchangedAt := ReadClock(0);
      ghost var t0 := trace;
      Others(None);
      ghost var t1 := trace;
      EvidenceStays(setup, t0, t1);
      at := |trace|;
      r := AnswerNamed(st, Login(email, exchangedAt));
      GrewOnce(setup, t0, t1, trace);
    }

    method AnswerNamed(st: OAuthState, login: Login) returns (r: Callback)
      requires Valid() && st in World().signed
      modifies this`trace, codes
      ensures Valid() && Grew(setup, old(trace), trace)
      ensures Answers(setup, trace, st, login.email, r, |old(trace)|)
    {
      hide After, Step, LegalTrace, Grew;
      ghost var t := trace;
      assert trace[..|t|] == t;
      var now := ReadClock(login.at);
      var w := After(setup, trace);
      var req := RequestOf(st);
      var drawn := RandomHex(w.births.Keys);
      var code := codes.Generate(drawn, EntryFor(req, login.email, "", 0), now);
      if code.None? {
        NothingGrew(setup, trace);
        return Callback(StoreFull, None, None);
      }
      var cookieAt := ReadClock(now);
      StampIsSet(w.codes, drawn, req, login.email, "", now);
      ghost var e := IssueFromExchange(drawn, st, login, now, cookieAt);
      assert codes.entries == CodesAfter(setup, w, e);
      SignedURIsParse(setup, trace, st);
      ExchangeIsLegal(setup, w, e);
      hide Legal;
      Record(IssueFromExchange(drawn, st, login, now, cookieAt));
      assert trace[..|t|] == t;
      var cookie, consent := None, None;
      if login.email != "" {
        var token := jwt.GenerateTokenWithExpiry(login.email, DASHBOARD, DASHBOARD_TOKEN_EXPIRY, cookieAt);
        cookie := Some(token);
        if setup.recordsConsent {
          consent := Some(login.email);
        }
      }
      var u := setup.parse(st.redirectURI);
      return Callback(Redirect(LocationFor(u.value, drawn, st.state)), cookie, consent);
    }

    /** Stores a code whose owner will be learnt when it is redeemed. */
    method IssueForLater(st: OAuthState, requestToken: string) returns (r: Callback, ghost at: nat)
      requires Valid() && st in World().signed && requestToken != ""
      modifies Footprint()
      ensures Valid() && Grew(setup, old(trace), trace)
      ensures |old(trace)| <= at && Postponed(setup, trace, st, requestToken, r, at)
    {
      hide After, Step, LegalTrace, Grew;
      ghost var t0 := trace;
      Others(None);
      ghost var t1 := trace;
      EvidenceStays(setup, t0, t1);
      at := |trace|;
      assert trace[..at] == trace;
      var now := ReadClock(0);
      var w := After(setup, trace);
      var req := RequestOf(st);
      var drawn := RandomHex(w.births.Keys);
      var code := codes.Generate(drawn, EntryFor(req, "", requestToken, 0), now);
      if code.None? {
        r := Callback(StoreFull, None, None);
        return;
      }
      StampIsSet(w.codes, drawn, req, "", requestToken, now);
      ghost var e := IssueDeferred(drawn, st, requestToken, now);
      assert codes.entries == CodesAfter(setup, w, e);
      Record(IssueDeferred(drawn, st, requestToken, now));
      GrewOnce(setup, t0, t1, trace);
      SignedURIsParse(setup, t1, st);
      var u := setup.parse(st.redirectURI);
      r := Callback(Redirect(LocationFor(u.value, drawn, st.state)), None, None);
    }

    // ----- Token endpoint -----

    /** POST /oauth/token.  Point `at` of the record is where the code was taken out of the store. */
    method Token(p: TokenParams, kite: Kite) returns (r: Reply, ghost at: nat)
      requires Valid()
      modifies Footprint()
      ensures Valid() && Grew(setup, old(trace), trace)
      ensures TokenRan(setup, old(trace), trace, p, kite, r, at)
    {
      hide After, Step, LegalTrace;
      at := 0;
      if p.grantType != "authorization_code" {
        r := UnsupportedGrantType;
        return;
      }
      if p.code == "" || p.codeVerifier == "" || p.clientID == "" {
        r := InvalidRequest;
        return;
      }
      var client := clients.Get(p.clientID);
      if client.None? {
        r := InvalidClient;
        return;
      }
      if !client.value.isKiteAPIKey && client.value.clientSecret != p.clientSecret {
        r := InvalidClient;
        return;
      }
      var auth := ClientAuth(p.clientID, client.value.isKiteAPIKey, p.clientSecret);
      ghost var t0 := trace;
      Record(Authenticate(auth));
      ghost var t1 := trace;
      Others(None);
      ghost var t2 := trace;
      at := |trace|;
      GrewOnce(setup, t0, t1, t2);
      r := RedeemCode(p, auth, kite);
      GrewOnce(setup, t0, t2, trace);
      assert trace[|t0|] == t1[|t0|];
    }

    /** The part of Token after client authentication. */
    method RedeemCode(p: TokenParams, auth: ClientAuth, kite: Kite) returns (r: Reply)
      requires Valid() && auth in World().authenticated
      requires auth.clientID == p.clientID && auth.secret == p.clientSecret
      modifies this`trace, codes
      ensures Valid() && Grew(setup, old(trace), trace)
      ensures Redeemed(setup, trace, p, auth, kite, r, |old(trace)|)
    {
      hide After, Step, LegalTrace, Grew, Redeemed;
      var now := ReadClock(0);
      var taken := codes.Consume(p.code, now);
      if taken.None? {
        r := RefuseCode(p, auth, InvalidGrant, kite, now);
        return;
      }
      var entry := taken.value;
      var plan := Identify(p, entry, kite);
      if plan.Refuse? {
        r := RefuseCode(p, auth, plan.reply, kite, now);
        return;
      }
      r := GrantToken(p, auth, entry, plan.email, kite, now);
    }

    method RefuseCode(p: TokenParams, auth: ClientAuth, reply: Reply, ghost kite: Kite, now: int) returns (r: Reply)
      requires LegalTrace(setup, trace) && KeysFit() && RowsFit() && clients.clients == World().clients
      requires codes.entries == AuthCodes.Apply(World().codes, AuthCodes.Consume(p.code, now))
      requires World().now <= now && auth in World().authenticated
      requires if AuthCodes.Live(World().codes, p.code, now) then
                 TokenPlan(setup, p, World().codes[p.code], kite) == Refuse(reply)
               else reply == InvalidGrant
      modifies this`trace
      ensures Valid() && Grew(setup, old(trace), trace)
      ensures Redeemed(setup, trace, p, auth, kite, r, |old(trace)|)
    {
      hide After, Step, LegalTrace, Grew;
      ghost var t := trace;
      Record(Burn(p.code, auth, now));
      assert trace[..|t|] == t;
      return reply;
    }

    method GrantToken(p: TokenParams, auth: ClientAuth, entry: AuthCodes.AuthCodeEntry, email: string,
                      ghost kite: Kite, now: int)
      returns (r: Reply)
      requires LegalTrace(setup, trace) && KeysFit() && RowsFit() && clients.clients == World().clients
      requires codes.entries == AuthCodes.Apply(World().codes, AuthCodes.Consume(p.code, now))
      requires World().now <= now && AuthCodes.Live(World().codes, p.code, now) && entry == World().codes[p.code]
      requires auth in World().authenticated && auth.clientID == p.clientID
      requires TokenPlan(setup, p, entry, kite) == Named(email)
      requires email != "" && (entry.email != "" ==> email == entry.email)
      modifies this`trace
      ensures Valid() && Grew(setup, old(trace), trace)
      ensures Redeemed(setup, trace, p, auth, kite, r, |old(trace)|)
    {
      hide After, Step, LegalTrace;
      ghost var t := trace;
      var proof := None;
      var mintedAt := ReadClock(now);
      if entry.email == "" {
        proof := Some(Login(email, mintedAt));
        mintedAt := ReadClock(mintedAt);
      }
      var token := jwt.GenerateToken(email, p.clientID, mintedAt);
      Record(Redeem(p.code, auth, p.codeVerifier, now, proof, mintedAt));
      assert trace[..|t|] == t;
      return AccessToken(token, setup.tokenExpiry / SECOND);
    }

    /** Checks a code against the request that presents it and finds out whom it stands for. */
    method Identify(p: TokenParams, entry: AuthCodes.AuthCodeEntry, kite: Kite) returns (plan: Plan)
      ensures plan == TokenPlan(setup, p, entry, kite)
      ensures plan.Named? ==> plan.email != "" && (entry.email != "" ==> plan.email == entry.email)
    {
      if entry.clientID != p.clientID {
        return Refuse(InvalidGrant);
      }
      var computed := setup.S256(p.codeVerifier);
      if computed != entry.codeChallenge {
        return Refuse(InvalidGrant);
      }
      var email := entry.email;
      if email == "" && entry.requestToken != "" {
        var secret := p.clientSecret;
        if secret == "" {
          var stored := kite.secretOf(p.clientID);
          if stored.None? {
            return Refuse(SecretRequired);
          }
          secret := stored.value;
        }
        var named := kite.exchangeWith(entry.requestToken, p.clientID, secret);
        if named.None? {
          return Refuse(InvalidGrant);
        }
        email := named.value;
      }
      if email == "" {
        return Refuse(NoIdentity);
      }
      return Named(email);
    }

    /** A tick of the code store's sweeper. */
    method SweeperTick()
      requires Valid()
      modifies this`trace, codes
      ensures Valid() && Grew(setup, old(trace), trace)
      ensures |trace| == |old(trace)| + 1 && trace[|old(trace)|].Sweep?
    {
      hide After, Step, LegalTrace;
      var now := ReadClock(0);
      codes.Cleanup(now);
      Record(Sweep(now));
    }

    // ----- Middleware -----

    /** What RequireAuth does with a request: None is a 401, otherwise the email is handed on.
      * `now` is what the clock showed. */
    method RequireAuth(bearer: Option<Jwts.Token>, checker: FreshnessCheck) returns (r: Option<string>, now: int)
      requires Valid()
      ensures now >= World().now
      ensures r.Some? <==> bearer.Some? && Theorems.BearerAccepted(World().keys, bearer.value, now)
                           && (checker.None? || checker.value(Jwts.Subject(bearer.value)))
      ensures r.Some? <==>
                && bearer.Some? && bearer.value.Jwt? && bearer.value.alg == Jwts.HS256
                && (bearer.value.key == World().keys.secret
                    || (World().keys.previous != "" && bearer.value.key == World().keys.previous))
                && now < bearer.value.claims.expiresAt && bearer.value.claims.audience != ["dashboard"]
                && (checker.Some? ==> checker.value(bearer.value.claims.subject))
      ensures r.Some? ==> bearer.value.Jwt? && r.value == bearer.value.claims.subject
    {
      hide After, Step, LegalTrace;
      r := None;
      var t := ReadClock(0);
      now := t;
      if bearer.None? {
        return;
      }
      var v := jwt.ValidateToken(bearer.value, [], t);
      if v.Invalid? {
        return;
      }
      if |v.claims.audience| == 1 && v.claims.audience[0] == DASHBOARD {
        return;
      }
      if checker.Some? && !checker.value(v.claims.subject) {
        return;
      }
      r := Some(v.claims.subject);
    }

    /** What RequireAuthBrowser does: the bearer token is tried before the cookie; None is a redirect to the login page.
      * `now` and `later` are what the clock showed at the two checks. */
    method RequireAuthBrowser(bearer: Option<Jwts.Token>, cookie: Option<Jwts.Token>)
      returns (r: Option<string>, now: int, later: int)
      requires Valid()
      ensures World().now <= now <= later
      ensures var byBearer := bearer.Some? && Jwts.Accepts(World().keys, bearer.value, [DASHBOARD], now);
              var byCookie := cookie.Some? && Jwts.Accepts(World().keys, cookie.value, [DASHBOARD], later);
              r == if byBearer then Some(Jwts.Subject(bearer.value))
                   else if byCookie then Some(Jwts.Subject(cookie.value)) else None
      ensures bearer.Some? && IsSession(World().keys, bearer.value, now) ==> r == Some(bearer.value.claims.subject)
      ensures !(bearer.Some? && IsSession(World().keys, bearer.value, now)) ==>
                r == if cookie.Some? && IsSession(World().keys, cookie.value, later)
                     then Some(cookie.value.claims.subject) else None
    {
      hide After, Step, LegalTrace;
      r := None;
      var t := ReadClock(0);
      now := t;
      var u := ReadClock(t);
      later := u;
      if bearer.Some? {
        var v := jwt.ValidateToken(bearer.value, [DASHBOARD], t);
        if v.Valid? {
          r := Some(v.claims.subject);
          return;
        }
      }
      if cookie.Some? {
        var v := jwt.ValidateToken(cookie.value, [DASHBOARD], u);
        if v.Valid? {
          r := Some(v.claims.subject);
        }
      }
    }

    /** Sets the dashboard cookie for someone who has just logged in, at Kite, by password, or at Google. */
    method SetAuthCookie(login: Login) returns (token: Jwts.Token)
      requires Valid()
      modifies this`trace
      ensures Valid() && Grew(setup, old(trace), trace)
      ensures |trace| == |old(trace)| + 1 && old(trace) <= trace
      ensures var e := trace[|old(trace)|];
              && e.LogIn? && e.login == login && token == CookieFor(World().keys.secret, login, e.cookieAt).token
              && token.Jwt? && token.key == World().keys.secret
              && Jwts.IsClaimed(token.claims, login.email, "dashboard", e.cookieAt, 604_800 * 1_000_000_000)
    {
      hide After, Step, LegalTrace;
      var now := ReadClock(login.at);
      token := jwt.GenerateTokenWithExpiry(login.email, DASHBOARD, DASHBOARD_TOKEN_EXPIRY, now);
      Record(LogIn(login, now));
    }

    /** Kite sends the browser back with flow=browser.  `target` is the verified payload, if there is one.  The cookie
      * is for whoever Kite names, even when the target names someone else. */
    method HandleBrowserAuthCallback(requestToken: string, target: Option<Bytes>, kite: Kite)
      returns (r: Option<(Jwts.Token, Bytes)>)
      requires Valid()
      modifies this`trace
      ensures Valid() && Grew(setup, old(trace), trace)
      ensures BrowserRan(setup, old(trace), trace, requestToken, target, kite, r)
    {
      hide After, Step, LegalTrace;
      BrowserTarget.FallbackIsLocal();
      if requestToken == "" {
        return None;
      }
      var redirect, dashEmail: Bytes := BrowserTarget.FALLBACK, [];
      if target.Some? {
        var t := BrowserTarget.Parse(target.value);
        redirect, dashEmail := t.redirect, t.email;
      }
      if !BrowserTarget.IsLocalPath(redirect) {
        redirect := BrowserTarget.FALLBACK;
      }
      var email;
      if dashEmail != "" {
        var credentials := kite.credentialsOf(dashEmail);
        if credentials.None? {
          return None;
        }
        email := kite.exchangeWith(requestToken, credentials.value.0, credentials.value.1);
      } else {
        email := kite.exchange(requestToken);
      }
      if email.None? {
        return None;
      }
      var now := ReadClock(0);
      var token := SetAuthCookie(Login(email.value, now));
      return Some((token, redirect));
    }

    // ----- Admin MFA -----

    /** POST /auth/admin-mfa/enroll: `verified` is whether the code matches the secret of the form, `stored` whether the
      * user store took the secret. */
    method HandleAdminMFAEnroll(email: string, csrfOk: bool, verified: bool, stored: bool)
      returns (r: Option<Jwts.Token>)
      requires Valid()
      modifies this`trace
      ensures Valid() && Grew(setup, old(trace), trace)
      ensures r.Some? <==> email != "" && csrfOk && verified && stored
      ensures ElevationRan(setup, old(trace), trace, email, true, r)
    {
      hide After, Step, LegalTrace;
      if email == "" || !csrfOk || !verified || !stored {
        return None;
      }
      var token := ElevatePassed(email, true);
      return Some(token);
    }

    /** POST /auth/admin-mfa/verify: `verified` is None if the user store cannot tell. */
    method HandleAdminMFAVerify(email: string, hasTOTP: bool, csrfOk: bool, verified: Option<bool>)
      returns (r: Option<Jwts.Token>)
      requires Valid()
      modifies this`trace
      ensures Valid() && Grew(setup, old(trace), trace)
      ensures r.Some? <==> email != "" && hasTOTP && csrfOk && verified == Some(true)
      ensures ElevationRan(setup, old(trace), trace, email, false, r)
    {
      hide After, Step, LegalTrace;
      if email == "" || !hasTOTP || !csrfOk || verified.None? || !verified.value {
        return None;
      }
      var token := ElevatePassed(email, false);
      return Some(token);
    }

    /** What both handlers do once the check is passed. */
    method ElevatePassed(email: string, enrolled: bool) returns (token: Jwts.Token)
      requires Valid()
      modifies this`trace
      ensures Valid() && Grew(setup, old(trace), trace)
      ensures ElevationRan(setup, old(trace), trace, email, enrolled, Some(token))
    {
      hide After, Step, LegalTrace;
      var passedAt := ReadClock(0);
      var pass := Pass(email, enrolled, passedAt);
      ghost var t0 := trace;
      Record(PassCheck(pass));
      ghost var t1 := trace;
      token := MintAdminMFAToken(email, Some(pass));
      GrewOnce(setup, t0, t1, trace);
    }

    /** Marks the gate as passed, for whomever the caller names.  `basis` belongs to the record: the check that was
      * passed, or None when other code than the handlers calls this. */
    method MintAdminMFAToken(email: string, basis: Option<Pass>) returns (token: Jwts.Token)
      requires Valid() && (basis.Some? ==> basis.value in World().passes && basis.value.email == email)
      modifies this`trace
      ensures Valid() && Grew(setup, old(trace), trace)
      ensures |trace| == |old(trace)| + 1 && old(trace) <= trace
      ensures var e := trace[|old(trace)|];
              && e.Elevate? && e.email == email && e.basis == basis
              && token == ElevationFor(World().keys.secret, email, basis, e.mintedAt).token
              && token.Jwt? && token.key == World().keys.secret
              && Jwts.IsClaimed(token.claims, email, "admin-mfa", e.mintedAt, 900 * 1_000_000_000)
    {
      hide After, Step, LegalTrace;
      var now := ReadClock(if basis.Some? then basis.value.at else 0);
      token := jwt.GenerateTokenWithExpiry(email, ADMIN_MFA, ADMIN_MFA_TOKEN_EXPIRY, now);
      Record(Elevate(email, basis, now));
    }

    /** The gate in front of the admin pages.  Enrolment only decides where those who may not pass are sent.
      * `now` is what the clock showed. */
    method RequireAdminMFA(email: string, cookie: Option<Jwts.Token>, hasTOTP: bool) returns (r: Gate, now: int)
      requires Valid()
      ensures now >= World().now
      ensures r == if email == "" then Unauthorized
                   else if cookie.Some? && Theorems.ElevationAccepted(setup, World().keys, cookie.value, email, now)
                   then Open
                   else if hasTOTP then ToVerify else ToEnroll
      ensures r == Open <==>
                && email != "" && cookie.Some? && cookie.value.Jwt? && cookie.value.alg == Jwts.HS256
                && (cookie.value.key == World().keys.secret
                    || (World().keys.previous != "" && cookie.value.key == World().keys.previous))
                && now < cookie.value.claims.expiresAt && "admin-mfa" in cookie.value.claims.audience
                && setup.fold(cookie.value.claims.subject) == setup.fold(email)
    {
      hide After, Step, LegalTrace;
      var t := ReadClock(0);
      now := t;
      if email == "" {
        return Unauthorized, now;
      }
      if cookie.Some? {
        var v := jwt.ValidateToken(cookie.value, [ADMIN_MFA], t);
        if v.Valid? && setup.fold(v.claims.subject) == setup.fold(email) {
          return Open, now;
        }
      }
      var dest := ToVerify;
      if !hasTOTP {
        dest := ToEnroll;
      }
      return dest, now;
    }
  }

  /** randomHex never returns a value twice. */
  method RandomHex(used: set<string>) returns (s: Bytes)
    ensures s != "" && s !in used
  {
    var todo := used;
    var longest: nat := 0;
    while todo != {}
      invariant todo <= used
      invariant forall x | x in used && x !in todo :: |x| <= longest
      decreases todo
    {
      var x :| x in todo;
      todo := todo - {x};
      if |x| > longest {
        longest := |x|;
      }
    }
    var zeros: Bytes := seq(longest + 1, _ => '0');
    assert |zeros| == longest + 1;
    s :| s != "" && s !in used;
  }
}
