/** What holds of every run of the server, whichever way the requests of its callers interleave. */
module Theorems {
  import opened Common
  import opened Protocol
  import opened Invariants
  import AuthCodes
  import Clients
  import Persistence
  import Jwts

  // ----- The two stores inside the protocol -----

  /** The client store calls among the events, in order. */
  function ClientCalls(t: Trace): Clients.History {
    if t == [] then []
    else
      var e := t[|t| - 1];
      ClientCalls(t[..|t| - 1]) + if e.ClientCall? then [e.op] else []
  }

  predicate NeverRestarted(t: Trace) {
    forall i | 0 <= i < |t| :: !t[i].Restart?
  }

  /** The code store calls since the last start, in order. */
  function CodeCalls(s: Setup, t: Trace): AuthCodes.History {
    if t == [] || t[|t| - 1].Restart? then []
    else
      var c := CodeCall(s, After(s, t[..|t| - 1]), t[|t| - 1]);
      CodeCalls(s, t[..|t| - 1]) + if c.Some? then [c.value] else []
  }

  /** Until the server is restarted a run of it is, for the client store, a legal history: so what is proved of those
    * holds here. */
  lemma {:induction false} ClientStoreInsideTheServer(s: Setup, t: Trace)
    requires LegalTrace(s, t) && NeverRestarted(t)
    ensures After(s, t).clients == Clients.Replay(ClientCalls(t))
    ensures Clients.LegalHistory(ClientCalls(t)) && Clients.KiteClientsStartWithOneURI(ClientCalls(t))
  {
    if t != [] {
      var p, e := t[..|t| - 1], t[|t| - 1];
      ClientStoreInsideTheServer(s, p);
      ClientCallEffect(s, After(s, p), e);
      if e.ClientCall? {
        Clients.LegalCallExtends(ClientCalls(p), e.op);
      } else {
        assert ClientCalls(t) == ClientCalls(p);
      }
    }
  }

  ghost predicate CodeHistoryFits(h: AuthCodes.History, w: World) {
    && w.codes == AuthCodes.Replay(h) && AuthCodes.Orderly(h) && AuthCodes.NotBefore(h, w.now)
    && forall code | AuthCodes.Issues(h, code) :: code in w.births
  }

  lemma CodeHistoryGrows(h: AuthCodes.History, w: World, op: AuthCodes.CodeOp, w': World)
    requires CodeHistoryFits(h, w) && w.now <= op.at <= w'.now && w'.codes == AuthCodes.Apply(w.codes, op)
    requires forall c | c in w.births :: c in w'.births
    requires op.Generate? ==> op.code !in w.births && op.code in w'.births
    ensures CodeHistoryFits(h + [op], w')
  {
    AuthCodes.CallExtends(h, op);
    forall code | AuthCodes.Issues(h + [op], code)
      ensures code in w'.births
    {
      var i :| 0 <= i < |h + [op]| && (h + [op])[i].Generate? && (h + [op])[i].code == code;
      assert i < |h| ==> h[i].code == code && AuthCodes.Issues(h, code);
    }
  }

  /** Likewise for the code store, between any two starts. */
  lemma {:induction false} CodeStoreInsideTheServer(s: Setup, t: Trace)
    requires LegalTrace(s, t)
    ensures CodeHistoryFits(CodeCalls(s, t), After(s, t))
  {
    hide Step, Legal, CodeHistoryFits, Inv, CodeCall;
    if t == [] {
      NoCodesYet(After(s, t));
    } else {
      var p, e := t[..|t| - 1], t[|t| - 1];
      if e.Restart? {
        RestartEffect(s, After(s, p), e);
        NoCodesYet(After(s, t));
      } else {
        CodeStoreInsideTheServer(s, p);
        InvAlways(s, p);
        CodeHistorySteps(s, CodeCalls(s, p), After(s, p), e);
      }
    }
  }

  lemma NoCodesYet(w: World)
    requires w.codes == map[]
    ensures CodeHistoryFits([], w)
  {
  }

  lemma CodeHistorySteps(s: Setup, h: AuthCodes.History, w: World, e: Event)
    requires Inv(s, w) && Legal(s, w, e) && !e.Restart? && CodeHistoryFits(h, w)
    ensures var c := CodeCall(s, w, e);
            CodeHistoryFits(h + if c.Some? then [c.value] else [], Step(s, w, e))
  {
    hide Step, Legal, KeepsEvidence, CodeCall;
    StepRemembers(s, w, e);
    CodeCallEffect(s, w, e);
    var c := CodeCall(s, w, e);
    if c.Some? {
      CodeHistoryGrows(h, w, c.value, Step(s, w, e));
    } else {
      assert h + [] == h;
    }
  }

  // ----- Where a state, a code and a token come from -----

  lemma AcceptIsJustified(s: Setup, w: World, req: AuthRequest)
    requires Legal(s, w, Accept(req))
    ensures s.IsWebURL(req.redirectURI) && Clients.IsRegisteredURI(w.clients, req.clientID, req.redirectURI)
  {
  }

  lemma SigningEffect(s: Setup, w: World, e: Event, st: OAuthState)
    requires Legal(s, w, e) && st in Step(s, w, e).signed && st !in w.signed
    ensures if e.SignRequest? then e.req in w.accepted && st == StateOf(e.req)
            else e.SignAgain? && e.st in w.signed && RequestOf(st) == RequestOf(e.st)
  {
  }

  /** What is recorded in a set was put there by some event. */
  lemma {:induction false} AcceptedAt(s: Setup, t: Trace, req: AuthRequest) returns (k: nat)
    requires LegalTrace(s, t) && req in After(s, t).accepted
    ensures k < |t| && t[k] == Accept(req) && LegalTrace(s, t[..k])
    ensures s.IsWebURL(req.redirectURI)
    ensures Clients.IsRegisteredURI(After(s, t[..k]).clients, req.clientID, req.redirectURI)
  {
    var n := |t| - 1;
    var p := t[..n];
    RecordsEffect(s, After(s, p), t[n]);
    if t[n] == Accept(req) {
      k := n;
      AcceptIsJustified(s, After(s, p), req);
    } else {
      k := AcceptedAt(s, p, req);
      assert p[..k] == t[..k];
    }
  }

  lemma SignedStateIsSound(s: Setup, t: Trace, st: OAuthState)
    requires LegalTrace(s, t) && st in After(s, t).signed
    ensures st.registryKey == "" || |st.registryKey| >= REGISTRY_KEY_PREFIX
  {
    InvAlways(s, t);
  }

  /** Every signed state in circulation, after any number of email lookups, descends from one authorization request:
    * an earlier event signed that request, an event before that found its redirect URI registered for its client, and
    * of the state's fields only the registry key may differ from the request's. */
  lemma {:induction false} SignedStateDescendsFromARequest(s: Setup, t: Trace, st: OAuthState) returns (a: nat, k: nat)
    requires LegalTrace(s, t) && st in After(s, t).signed
    ensures a < k < |t| && t[k] == SignRequest(RequestOf(st)) && t[a] == Accept(RequestOf(st))
    ensures Clients.IsRegisteredURI(After(s, t[..a]).clients, st.clientID, st.redirectURI)
    ensures st == StateOf(RequestOf(st)).(registryKey := st.registryKey)
    ensures st.registryKey == "" || |st.registryKey| >= REGISTRY_KEY_PREFIX
    decreases |t|
  {
    hide Step, Legal;
    SignedStateIsSound(s, t, st);
    var n := |t| - 1;
    var p, e := t[..n], t[n];
    if st in After(s, p).signed {
      a, k := SignedStateDescendsFromARequest(s, p, st);
      assert p[..a] == t[..a];
    } else {
      SigningEffect(s, After(s, p), e, st);
      if e.SignRequest? {
        a := AcceptedAt(s, p, e.req);
        k := n;
      } else {
        a, k := SignedStateDescendsFromARequest(s, p, e.st);
      }
      assert p[..a] == t[..a];
    }
  }

  predicate Issues(e: Event, code: string) {
    match e
    case IssueFromSession(c, _, _, _, _) => c == code
    case IssueFromExchange(c, _, _, _, _) => c == code
    case IssueDeferred(c, _, _, _) => c == code
    case _ => false
  }

  lemma {:induction false} IssuedAt(s: Setup, t: Trace, code: string) returns (k: nat)
    requires LegalTrace(s, t) && code in After(s, t).births
    ensures k < |t| && Issues(t[k], code)
  {
    var n := |t| - 1;
    if code in After(s, t[..n]).births {
      k := IssuedAt(s, t[..n], code);
    } else {
      IssueAddsOneBirth(s, After(s, t[..n]), t[n], code);
      k := n;
    }
  }

  /** The request a code was issued for. */
  function RequestBehind(b: Birth): AuthRequest {
    match b.source
    case Session(req, _, _) => req
    case Exchanged(st, _) => RequestOf(st)
    case Deferred(st) => RequestOf(st)
  }

  /** Every code is bound to the client, the challenge and the redirect URI of an accepted request. */
  lemma CodeGoesToAValidatedURI(s: Setup, t: Trace, code: string) returns (a: nat)
    requires LegalTrace(s, t) && code in After(s, t).births
    ensures var b := After(s, t).births[code];
            var req := RequestBehind(b);
            && a < |t| && t[a] == Accept(req)
            && Clients.IsRegisteredURI(After(s, t[..a]).clients, req.clientID, req.redirectURI)
            && b.entry.clientID == req.clientID && b.entry.redirectURI == req.redirectURI
            && b.entry.codeChallenge == req.codeChallenge && s.IsWebURL(req.redirectURI)
  {
    InvAlways(s, t);
    assert BirthOk(s, After(s, t), After(s, t).births[code]);
    a := AcceptedAt(s, t, RequestBehind(After(s, t).births[code]));
  }

  lemma {:induction false} AuthenticatedAt(s: Setup, t: Trace, auth: ClientAuth) returns (k: nat)
    requires LegalTrace(s, t) && auth in After(s, t).authenticated
    ensures k < |t| && t[k] == Authenticate(auth) && LegalTrace(s, t[..k])
    ensures Legal(s, After(s, t[..k]), Authenticate(auth))
  {
    var n := |t| - 1;
    var p := t[..n];
    RecordsEffect(s, After(s, p), t[n]);
    if t[n] == Authenticate(auth) {
      k := n;
    } else {
      k := AuthenticatedAt(s, p, auth);
      assert p[..k] == t[..k];
    }
  }

  lemma {:induction false} LegalPrefix(s: Setup, t: Trace, k: nat)
    requires LegalTrace(s, t) && k < |t|
    ensures LegalTrace(s, t[..k]) && Legal(s, After(s, t[..k]), t[k])
    ensures LegalTrace(s, t[..k + 1]) && After(s, t[..k + 1]) == Step(s, After(s, t[..k]), t[k])
    decreases |t|
  {
    hide After, LegalTrace, Legal, Step;
    LastIsLegal(s, t);
    if k == |t| - 1 {
      assert t[..k + 1] == t;
    } else {
      var p := t[..|t| - 1];
      LegalPrefix(s, p, k);
      assert p[..k] == t[..k] && p[..k + 1] == t[..k + 1];
    }
  }

  lemma LastIsLegal(s: Setup, t: Trace)
    requires LegalTrace(s, t) && t != []
    ensures var p, e := t[..|t| - 1], t[|t| - 1];
            LegalTrace(s, p) && Legal(s, After(s, p), e) && After(s, t) == Step(s, After(s, p), e)
  {
  }

  lemma RedeemIsJustified(s: Setup, w: World, e: Event)
    requires Inv(s, w) && e.Redeem? && Legal(s, w, e)
    ensures e.code in w.codes && e.code in w.births && e.auth in w.authenticated
    ensures w.births[e.code].entry.clientID == e.auth.clientID
    ensures s.S256(e.verifier) == w.births[e.code].entry.codeChallenge
    ensures var r := ResponseTo(s, w, e);
            && r.minted.token == Jwts.Mint(w.keys.secret, r.email, e.auth.clientID, s.tokenExpiry, e.mintedAt)
            && r.email != ""
  {
  }

  /** The issue of a code and, before it, the acceptance of the request it answers. */
  lemma IssueFollowsItsRequest(s: Setup, t: Trace, code: string) returns (a: nat, j: nat)
    requires LegalTrace(s, t) && code in After(s, t).births
    ensures a < j < |t| && Issues(t[j], code)
    ensures var b := After(s, t).births[code];
            var req := RequestBehind(b);
            && t[a] == Accept(req) && b.entry.clientID == req.clientID && b.entry.codeChallenge == req.codeChallenge
            && Clients.IsRegisteredURI(After(s, t[..a]).clients, req.clientID, req.redirectURI)
  {
    hide Step, Legal, LegalTrace, Inv;
    j := IssuedAt(s, t, code);
    LegalPrefix(s, t, j);
    IssueStoresCode(s, After(s, t[..j]), t[j], code);
    RunRemembers(s, t, j + 1);
    a := CodeGoesToAValidatedURI(s, t[..j + 1], code);
    assert t[..j + 1][..a] == t[..a];
  }

  /** A successful token response redeems a pending code that event j issued in answer to a request that event a, before
    * that, had found to name a registered URI of its client.  The response goes to that client, which was live and a
    * Kite client or in possession of its secret when event i looked it up; the verifier presented hashes to the
    * challenge of that request; and the token names that client and a known person. */
  lemma TokenResponseIsEarned(s: Setup, t: Trace, k: nat) returns (a: nat, j: nat, i: nat)
    requires LegalTrace(s, t) && k < |t| && t[k].Redeem?
    ensures t[k].code in After(s, t[..k]).codes && t[k].code in After(s, t[..k]).births
    ensures var req := RequestBehind(After(s, t[..k]).births[t[k].code]);
            && a < j < k && t[a] == Accept(req) && Issues(t[j], t[k].code)
            && Clients.IsRegisteredURI(After(s, t[..a]).clients, req.clientID, req.redirectURI)
            && req.clientID == t[k].auth.clientID && req.codeChallenge == s.S256(t[k].verifier)
    ensures i < k && t[i] == Authenticate(t[k].auth) && Legal(s, After(s, t[..i]), t[i])
    ensures var w := After(s, t[..k]);
            var r := ResponseTo(s, w, t[k]);
            && r.minted.token == Jwts.Mint(w.keys.secret, r.email, t[k].auth.clientID, s.tokenExpiry, t[k].mintedAt)
            && r.email != ""
  {
    hide After, Step, Legal, LegalTrace, Inv;
    LegalPrefix(s, t, k);
    var p, w := t[..k], After(s, t[..k]);
    InvAlways(s, p);
    RedeemIsJustified(s, w, t[k]);
    i := AuthenticatedAt(s, p, t[k].auth);
    assert p[..i] == t[..i];
    a, j := IssueFollowsItsRequest(s, p, t[k].code);
    assert p[..a] == t[..a];
  }

  lemma RedeemLeavesAResponse(s: Setup, w: World, e: Event)
    requires Legal(s, w, e) && e.Redeem?
    ensures e.code in Step(s, w, e).responses
  {
    hide Step;
    RedeemStep(s, w, e);
  }

  lemma RespondedCodesAreSpent(s: Setup, t: Trace, code: string)
    requires LegalTrace(s, t) && code in After(s, t).responses
    ensures code !in After(s, t).codes
  {
    hide After, LegalTrace;
    InvAlways(s, t);
    assert ResponseOk(s, After(s, t), code, After(s, t).responses[code]);
  }

  /** No code yields two token responses. */
  lemma NoCodeIsRedeemedTwice(s: Setup, t: Trace, j: nat, k: nat)
    requires LegalTrace(s, t) && j < k < |t| && t[j].Redeem? && t[k].Redeem?
    ensures t[j].code != t[k].code
  {
    hide LegalTrace, After, Step, Legal, Inv;
    LegalPrefix(s, t, j);
    LegalPrefix(s, t, k);
    assert t[..k][..j + 1] == t[..j + 1];
    RunRemembers(s, t[..k], j + 1);
    RedeemLeavesAResponse(s, After(s, t[..j]), t[j]);
    RespondedCodesAreSpent(s, t[..k], t[j].code);
    InvAlways(s, t[..k]);
    RedeemIsJustified(s, After(s, t[..k]), t[k]);
  }

  // ----- How long a login lasts -----

  /** No request takes longer than `delay` from one reading of the clock to a later one. */
  ghost predicate Prompt(w: World, delay: int) {
    && (forall c | c in w.births ::
          match w.births[c].source
          case Session(_, _, seenAt) => w.births[c].at <= seenAt + delay
          case Exchanged(_, login) => w.births[c].at <= login.at + delay
          case Deferred(_) => true)
    && (forall c | c in w.responses :: w.responses[c].minted.at <= w.responses[c].redeemedAt + delay)
    && (forall m | m in w.minted && m.cause.Cookie? :: m.at <= m.cause.login.at + delay)
    && (forall m | m in w.minted && m.cause.Elevation? && m.cause.basis.Some? :: m.at <= m.cause.basis.value.at + delay)
  }

  /** What RequireAuth lets through, apart from the Kite token check, when the server has these keys. */
  predicate BearerAccepted(keys: Jwts.Keys, token: Jwts.Token, t: int) {
    Jwts.Accepts(keys, token, [], t) && token.claims.audience != [DASHBOARD]
  }

  /** A token's audience tells which of the server's three kinds of token it is. */
  lemma AudienceTellsTheCause(s: Setup, w: World, m: Minted)
    requires Inv(s, w) && m in w.minted
    ensures m.token.Jwt?
    ensures match m.cause
            case Cookie(_) => m.token.claims.audience == [DASHBOARD]
            case Elevation(_, _) => m.token.claims.audience == [ADMIN_MFA]
            case Grant(code) =>
              && code in w.responses && m.token.claims.audience == [w.responses[code].auth.clientID]
              && w.responses[code].auth.clientID in w.ids
  {
    assert MintedOk(s, w, m);
    if m.cause.Grant? {
      assert ResponseOk(s, w, m.cause.code, w.responses[m.cause.code]);
    }
  }

  /** A token minted by the token endpoint that is still good opens a dashboard session exactly if its client is called
    * "dashboard". */
  lemma GrantOpensDashboardOnlyUnderItsName(s: Setup, t: Trace, m: Minted, keys: Jwts.Keys, now: int)
    requires LegalTrace(s, t) && m in After(s, t).minted && m.cause.Grant?
    requires Jwts.Accepts(keys, m.token, [], now)
    ensures m.cause.code in After(s, t).responses
    ensures Jwts.Accepts(keys, m.token, [DASHBOARD], now)
       <==> After(s, t).responses[m.cause.code].auth.clientID == DASHBOARD
  {
    hide After, LegalTrace, Inv;
    InvAlways(s, t);
    AudienceTellsTheCause(s, After(s, t), m);
  }

  /** And it opens the admin gate, without any second factor, exactly if its client is called "admin-mfa". */
  lemma GrantElevatesOnlyUnderItsName(s: Setup, t: Trace, m: Minted, keys: Jwts.Keys, now: int)
    requires LegalTrace(s, t) && m in After(s, t).minted && m.cause.Grant?
    requires Jwts.Accepts(keys, m.token, [], now)
    ensures m.cause.code in After(s, t).responses
    ensures Jwts.Accepts(keys, m.token, [ADMIN_MFA], now)
       <==> After(s, t).responses[m.cause.code].auth.clientID == ADMIN_MFA
  {
    hide After, LegalTrace, Inv;
    InvAlways(s, t);
    AudienceTellsTheCause(s, After(s, t), m);
  }

  /** The token was granted to the client of this name. */
  predicate GrantedTo(w: World, m: Minted, clientID: string) {
    m.cause.Grant? && m.cause.code in w.responses && w.responses[m.cause.code].auth.clientID == clientID
  }

  /** Whatever passes for a dashboard session was set as a cookie at a login, or granted to a client of that name. */
  lemma SessionsAreCookies(s: Setup, w: World, m: Minted, keys: Jwts.Keys, t: int)
    requires Inv(s, w) && m in w.minted
    requires Jwts.Accepts(keys, m.token, [DASHBOARD], t)
    ensures m.cause.Cookie? <==> !GrantedTo(w, m, DASHBOARD)
    ensures DASHBOARD !in w.ids ==> m.cause.Cookie?
    ensures m.cause.Cookie? ==>
              && m.cause.login in w.logins && m.cause.login.email == Jwts.Subject(m.token)
              && m.cause.login.at <= m.at && t < m.at + DASHBOARD_TOKEN_EXPIRY
  {
    AudienceTellsTheCause(s, w, m);
    assert MintedOk(s, w, m);
  }

  /** When the person behind a code last proved who they are. */
  lemma CodeRestsOnALogin(s: Setup, w: World, code: string, delay: nat) returns (login: Login)
    requires Inv(s, w) && DASHBOARD !in w.ids && Prompt(w, delay)
    requires code in w.births && !w.births[code].source.Deferred?
    ensures var b := w.births[code];
            && login in w.logins && login.email == b.entry.email && login.at <= b.at
            && b.at <= login.at + DASHBOARD_TOKEN_EXPIRY + 2 * delay
  {
    hide Jwts.Accepts, MintedOk, ResponsesOk, ClientsOk, DatabaseOk, CodesOk;
    var b := w.births[code];
    assert BirthOk(s, w, b);
    match b.source
    case Session(_, cookie, seenAt) =>
      SessionsAreCookies(s, w, cookie, Jwts.Keys(cookie.token.key, ""), seenAt);
      login := cookie.cause.login;
    case Exchanged(_, l) =>
      login := l;
  }

  lemma GrantFacts(s: Setup, w: World, m: Minted)
    requires Inv(s, w) && m in w.minted && m.cause.Grant?
    ensures m.cause.code in w.responses && m.cause.code in w.births
    ensures var r, b := w.responses[m.cause.code], w.births[m.cause.code];
            && r.minted == m && m.at >= r.redeemedAt >= b.at && r.redeemedAt <= b.at + AuthCodes.CODE_LIFETIME
            && m.token.Jwt? && m.token.claims.subject == r.email && m.token.claims.expiresAt <= m.at + s.tokenExpiry
            && (r.login.None? ==> !b.source.Deferred? && r.email == b.entry.email)
            && (r.login.Some? ==> r.login.value in w.logins && r.email == r.login.value.email
                                  && r.redeemedAt <= r.login.value.at <= m.at)
  {
    var code := m.cause.code;
    assert MintedOk(s, w, m);
    assert ResponseOk(s, w, code, w.responses[code]);
    assert BirthOk(s, w, w.births[code]);
  }

  lemma PromptGrant(w: World, code: string, delay: nat)
    requires Prompt(w, delay) && code in w.responses
    ensures w.responses[code].minted.at <= w.responses[code].redeemedAt + delay
  {
  }

  lemma GrantRestsOnALogin(s: Setup, w: World, m: Minted, delay: nat) returns (login: Login)
    requires Inv(s, w) && DASHBOARD !in w.ids && Prompt(w, delay)
    requires m in w.minted && m.cause.Grant?
    ensures m.token.Jwt? && login in w.logins && login.email == m.token.claims.subject && login.at <= m.at
    ensures m.at <= login.at + DASHBOARD_TOKEN_EXPIRY + AuthCodes.CODE_LIFETIME + 3 * delay
  {
    hide Inv, Prompt;
    GrantFacts(s, w, m);
    PromptGrant(w, m.cause.code, delay);
    if w.responses[m.cause.code].login.Some? {
      login := w.responses[m.cause.code].login.value;
    } else {
      login := CodeRestsOnALogin(s, w, m.cause.code, delay);
    }
  }

  /** Seven days and ten minutes and the lifetime of a token, and what the three requests on the way may have taken. */
  function FreshnessBound(s: Setup, delay: int): int {
    DASHBOARD_TOKEN_EXPIRY + AuthCodes.CODE_LIFETIME + s.tokenExpiry + 3 * delay
  }

  /** Session freshness.  If RequireAuth accepts at time `now` a token that the token endpoint minted for an email, then
    * that person logged in at a time L with now < L + 7 days + 10 minutes + TokenExpiry, plus what the three requests
    * on the way may have taken, whatever restarts and rotations came in between.  Renewing through the dashboard
    * session never extends that session. */
  lemma AcceptedBearerImpliesRecentLogin(s: Setup, t: Trace, m: Minted, keys: Jwts.Keys, now: int, delay: nat)
    returns (login: Login)
    requires LegalTrace(s, t) && DASHBOARD !in After(s, t).ids && Prompt(After(s, t), delay)
    requires m in After(s, t).minted && m.cause.Grant? && BearerAccepted(keys, m.token, now)
    ensures login in After(s, t).logins && login.email == Jwts.Subject(m.token) && login.at <= m.at
    ensures now < login.at + FreshnessBound(s, delay)
  {
    InvAlways(s, t);
    GrantFacts(s, After(s, t), m);
    login := GrantRestsOnALogin(s, After(s, t), m, delay);
  }

  /** Exactly the unexpired tokens that are neither session cookies nor granted to a client called "dashboard" pass
    * RequireAuth's own checks.  Elevation tokens do: their audience keeps them away from no protected resource. */
  lemma BearersAreGrantsAndElevations(s: Setup, t: Trace, m: Minted, keys: Jwts.Keys, now: int)
    requires LegalTrace(s, t) && m in After(s, t).minted && Jwts.SignedUnder(keys, m.token)
    ensures BearerAccepted(keys, m.token, now)
       <==> now < m.token.claims.expiresAt && !m.cause.Cookie? && !GrantedTo(After(s, t), m, DASHBOARD)
    ensures m.cause.Elevation? ==> (BearerAccepted(keys, m.token, now) <==> now < m.token.claims.expiresAt)
    ensures m.cause.Elevation? ==> m.token.claims.expiresAt == Jwts.NumericDate(m.at + ADMIN_MFA_TOKEN_EXPIRY)
  {
    InvAlways(s, t);
    AudienceTellsTheCause(s, After(s, t), m);
    assert MintedOk(s, After(s, t), m);
    assert m.token.claims.audience == [m.token.claims.audience[0]];
    assert [ADMIN_MFA][0] != [DASHBOARD][0];
  }

  // ----- What cannot be improved: a run of six events -----

  /** A person logs in at time 0, and at the last moment the session serves uses it to have a code issued to a Kite
    * client, which redeems the code at the last moment that one is good. */
  datatype Story = Story(s: Setup, email: string, req: AuthRequest, verifier: string, code: Bytes) {
    ghost predicate Possible() {
      && email != "" && req.clientID != "" && req.redirectURI != "" && s.IsWebURL(req.redirectURI)
      && req.codeChallenge == s.S256(verifier) && req.codeChallenge != ""
    }

    function Cookie(): Minted { CookieFor(s.secret, Login(email, 0), 0) }
    function Auth(): ClientAuth { ClientAuth(req.clientID, true, "") }
    function Seen(): int { DASHBOARD_TOKEN_EXPIRY - 1 }
    function Taken(): int { Seen() + AuthCodes.CODE_LIFETIME }
    function Grant(): Minted { GrantFor(s, s.secret, code, req.clientID, email, Taken()) }
    function Entry(): AuthCodes.AuthCodeEntry { EntryFor(req, email, "", Seen()) }
    function JoiningRow(): Clients.ClientLoadEntry { Clients.RowOf(req.clientID, Clients.NewEntry(Joining())) }
    function Joining(): Clients.ClientOp { Clients.RegisterKite(req.clientID, [req.redirectURI], 0, None) }

    function Opening(): Trace { [LogIn(Login(email, 0), 0), ClientCall(Joining())] }
    function Middle(): Trace { [Accept(req), IssueFromSession(code, req, Cookie(), Seen(), Seen())] }
    function Ending(): Trace { [Authenticate(Auth()), Redeem(code, Auth(), verifier, Taken(), None, Taken())] }
    function Whole(): Trace { Opening() + Middle() + Ending() }

    function Joined(): World {
      Start(s).(clients := map[req.clientID := Clients.NewEntry(Joining())],
                db := Persistence.Issue(Persistence.EMPTY, Some(JoiningRow())),
                ids := {req.clientID}, kite := {req.clientID},
                logins := {Login(email, 0)}, minted := {Cookie()})
    }

    function HasCode(): World {
      Joined().(now := Seen(), accepted := {req}, codes := map[code := Entry()],
                births := map[code := Birth(Entry(), Seen(), Session(req, Cookie(), Seen()))])
    }

    function HasToken(): World {
      HasCode().(now := Taken(), authenticated := {Auth()}, codes := map[], minted := {Cookie(), Grant()},
                 responses := map[code := Response(Auth(), verifier, Taken(), None, email, Grant())])
    }
  }

  lemma TwoSteps(s: Setup, t: Trace, e: Event, f: Event)
    requires LegalTrace(s, t) && Legal(s, After(s, t), e) && Legal(s, Step(s, After(s, t), e), f)
    ensures LegalTrace(s, t + [e, f]) && After(s, t + [e, f]) == Step(s, Step(s, After(s, t), e), f)
  {
    hide After, LegalTrace, Legal, Step;
    TraceGrows(s, t, e);
    TraceGrows(s, t + [e], f);
    assert t + [e, f] == t + [e] + [f];
  }

  lemma StoryOpens(y: Story)
    requires y.Possible()
    ensures LegalTrace(y.s, y.Opening()) && After(y.s, y.Opening()) == y.Joined()
  {
    var t: Trace := [];
    var e, f := y.Opening()[0], y.Opening()[1];
    TwoSteps(y.s, t, e, f);
    assert t + [e, f] == y.Opening();
  }

  lemma StoryGoesOn(y: Story)
    requires y.Possible()
    ensures var e, f := y.Middle()[0], y.Middle()[1];
            && Legal(y.s, y.Joined(), e) && Legal(y.s, Step(y.s, y.Joined(), e), f)
            && Step(y.s, Step(y.s, y.Joined(), e), f) == y.HasCode()
  {
    hide Legal, Step;
    RequestIsAccepted(y);
    SessionServesAtTheLastMoment(y);
  }

  lemma RequestIsAccepted(y: Story)
    requires y.Possible()
    ensures Legal(y.s, y.Joined(), Accept(y.req))
    ensures Step(y.s, y.Joined(), Accept(y.req)) == y.Joined().(accepted := {y.req})
  {
    var w := y.Joined();
    assert Clients.IsRegisteredURI(w.clients, y.req.clientID, y.req.redirectURI);
    assert w.accepted + {y.req} == {y.req};
  }

  lemma SessionServesAtTheLastMoment(y: Story)
    requires y.Possible()
    ensures var v := y.Joined().(accepted := {y.req});
            var f := IssueFromSession(y.code, y.req, y.Cookie(), y.Seen(), y.Seen());
            Legal(y.s, v, f) && Step(y.s, v, f) == y.HasCode()
  {
    hide Legal, Step, Jwts.Accepts, Jwts.NumericDate, Jwts.Subject;
    CookieServesAtTheLastMoment(y);
    var v := y.Joined().(accepted := {y.req});
    var f := IssueFromSession(y.code, y.req, y.Cookie(), y.Seen(), y.Seen());
    SessionIsLegal(y.s, v, f);
    SessionStep(y.s, v, f);
  }

  lemma CookieServesAtTheLastMoment(y: Story)
    requires y.Possible()
    ensures Jwts.Accepts(y.Joined().keys, y.Cookie().token, [DASHBOARD], y.Seen())
    ensures Jwts.Subject(y.Cookie().token) == y.email
  {
    assert DASHBOARD_TOKEN_EXPIRY % SECOND == 0;
  }

  lemma StoryEnds(y: Story)
    requires y.Possible()
    ensures var e, f := y.Ending()[0], y.Ending()[1];
            && Legal(y.s, y.HasCode(), e) && Legal(y.s, Step(y.s, y.HasCode(), e), f)
            && Step(y.s, Step(y.s, y.HasCode(), e), f) == y.HasToken()
  {
    hide Legal, Step;
    ClientAuthenticates(y);
    CodeIsTaken(y);
  }

  lemma ClientAuthenticates(y: Story)
    ensures Legal(y.s, y.HasCode(), Authenticate(y.Auth()))
    ensures Step(y.s, y.HasCode(), Authenticate(y.Auth())) == y.HasCode().(authenticated := {y.Auth()})
  {
    assert y.HasCode().authenticated + {y.Auth()} == {y.Auth()};
  }

  lemma CodeIsTaken(y: Story)
    requires y.Possible()
    ensures var v, f := y.HasCode().(authenticated := {y.Auth()}), y.Ending()[1];
            Legal(y.s, v, f) && Step(y.s, v, f) == y.HasToken()
  {
    var v, f := y.HasCode().(authenticated := {y.Auth()}), y.Ending()[1];
    assert ResponseTo(y.s, v, f) == Response(y.Auth(), y.verifier, y.Taken(), None, y.email, y.Grant());
    assert AuthCodes.Apply(v.codes, AuthCodes.Consume(y.code, y.Taken())) == map[];
  }

  lemma StoryHappens(y: Story)
    requires y.Possible()
    ensures LegalTrace(y.s, y.Whole()) && After(y.s, y.Whole()) == y.HasToken()
  {
    hide After, LegalTrace, Step, Legal;
    StoryOpens(y);
    StoryGoesOn(y);
    TwoSteps(y.s, y.Opening(), y.Middle()[0], y.Middle()[1]);
    StoryEnds(y);
    TwoSteps(y.s, y.Opening() + y.Middle(), y.Ending()[0], y.Ending()[1]);
  }

  /** The bound on session freshness cannot be lowered: a run that comes within a second of it. */
  lemma TheBoundIsAttained(y: Story) returns (t: Trace, now: int)
    requires y.Possible() && y.req.clientID != DASHBOARD
    ensures LegalTrace(y.s, t) && After(y.s, t) == y.HasToken()
    ensures DASHBOARD !in After(y.s, t).ids && Prompt(After(y.s, t), 0) && After(y.s, t).logins == {Login(y.email, 0)}
    ensures y.Grant() in After(y.s, t).minted && BearerAccepted(After(y.s, t).keys, y.Grant().token, now)
    ensures now >= FreshnessBound(y.s, 0) - SECOND - 1
  {
    hide After, LegalTrace;
    StoryHappens(y);
    t := y.Whole();
    now := y.Taken() + y.s.tokenExpiry - SECOND;
    assert y.Grant().token.claims.audience[0] != DASHBOARD;
  }

  /** If the client is called "admin-mfa", the token it is granted opens the admin gate though nobody ever enrolled or
    * verified a code. */
  lemma GateOpensWithoutSecondFactor(y: Story)
    requires y.Possible() && y.req.clientID == ADMIN_MFA && y.s.tokenExpiry >= SECOND
    ensures LegalTrace(y.s, y.Whole())
    ensures var w := After(y.s, y.Whole());
            && w.passes == {} && (forall m | m in w.minted :: !m.cause.Elevation?)
            && y.Grant() in w.minted && ElevationAccepted(y.s, w.keys, y.Grant().token, y.email, y.Taken())
  {
    hide After, LegalTrace;
    StoryHappens(y);
  }

  // ----- A session without end -----

  /** The session token m, granted just now to a client called "dashboard", can be used for the next one.  Codes so far
    * are at most n bytes long. */
  ghost predicate Renewable(y: Story, w: World, m: Minted, n: nat) {
    && m.cause.Grant? && m in w.minted && m == GrantFor(y.s, w.keys.secret, m.cause.code, DASHBOARD, y.email, w.now)
    && y.req in w.accepted && y.Auth() in w.authenticated
    && w.codes == map[] && (forall c | c in w.births :: |c| <= n)
    && w.logins == {Login(y.email, 0)}
  }

  function Later(y: Story, w: World): int {
    w.now + y.s.tokenExpiry - SECOND
  }

  function Renewed(y: Story, w: World, m: Minted, code: Bytes): (r: World)
    ensures r.now == Later(y, w)
  {
    var at := Later(y, w);
    var grant := GrantFor(y.s, w.keys.secret, code, DASHBOARD, y.email, at);
    w.(now := at, births := w.births[code := Birth(EntryFor(y.req, y.email, "", at), at, Session(y.req, m, at))],
       responses := w.responses[code := Response(y.Auth(), y.verifier, at, None, y.email, grant)],
       minted := w.minted + {grant})
  }

  lemma RenewedIsRenewable(y: Story, w: World, m: Minted, n: nat, code: Bytes)
    requires Renewable(y, w, m, n) && |code| == n + 1
    ensures var w' := Renewed(y, w, m, code);
            Renewable(y, w', GrantFor(y.s, w.keys.secret, code, DASHBOARD, y.email, w'.now), n + 1)
  {
  }

  /** The latest token buys a code, and the code a token, at the last moment. */
  lemma Renewal(y: Story, t: Trace, m: Minted, n: nat) returns (t': Trace, m': Minted)
    requires y.Possible() && y.req.clientID == DASHBOARD && y.s.tokenExpiry > SECOND
    requires LegalTrace(y.s, t) && Renewable(y, After(y.s, t), m, n)
    ensures LegalTrace(y.s, t') && Renewable(y, After(y.s, t'), m', n + 1)
    ensures After(y.s, t').now == Later(y, After(y.s, t))
  {
    hide After, LegalTrace, Legal, Step, Renewed;
    var w := After(y.s, t);
    var at := Later(y, w);
    var code: Bytes := seq(n + 1, _ => 'a');
    assert |code| == n + 1;
    var e := IssueFromSession(code, y.req, m, at, at);
    var f := Redeem(code, y.Auth(), y.verifier, at, None, at);
    LatestTokenBuysACode(y, w, m, code);
    CodeBuysAToken(y, w, m, code);
    RenewedIsRenewable(y, w, m, n, code);
    TwoSteps(y.s, t, e, f);
    t', m' := t + [e, f], GrantFor(y.s, w.keys.secret, code, DASHBOARD, y.email, at);
  }

  function WithCode(y: Story, w: World, m: Minted, code: Bytes): World {
    var at := Later(y, w);
    Issue(w, code, EntryFor(y.req, y.email, "", at), Session(y.req, m, at), at)
  }

  lemma LatestTokenBuysACode(y: Story, w: World, m: Minted, code: Bytes)
    requires y.Possible() && y.req.clientID == DASHBOARD && y.s.tokenExpiry > SECOND
    requires m.cause.Grant? && m in w.minted
    requires m == GrantFor(y.s, w.keys.secret, m.cause.code, DASHBOARD, y.email, w.now)
    requires y.req in w.accepted && w.codes == map[] && code !in w.births
    ensures var at := Later(y, w);
            var e := IssueFromSession(code, y.req, m, at, at);
            Legal(y.s, w, e) && Step(y.s, w, e) == WithCode(y, w, m, code)
  {
  }

  lemma CodeBuysAToken(y: Story, w: World, m: Minted, code: Bytes)
    requires y.Possible() && y.req.clientID == DASHBOARD && y.Auth() in w.authenticated && w.codes == map[]
    ensures var at, v := Later(y, w), WithCode(y, w, m, code);
            var f := Redeem(code, y.Auth(), y.verifier, at, None, at);
            Legal(y.s, v, f) && Step(y.s, v, f) == Renewed(y, w, m, code)
  {
    var at, v := Later(y, w), WithCode(y, w, m, code);
    assert v.codes == map[code := EntryFor(y.req, y.email, "", at)];
    assert AuthCodes.Apply(v.codes, AuthCodes.Consume(code, at)) == map[];
  }

  lemma StoryIsRenewable(y: Story)
    requires y.Possible() && y.req.clientID == DASHBOARD
    ensures Renewable(y, y.HasToken(), y.Grant(), |y.code|) && y.HasToken().now >= 0
  {
  }

  lemma RenewableServes(y: Story, w: World, m: Minted, n: nat)
    requires Renewable(y, w, m, n) && y.s.tokenExpiry > SECOND
    ensures Jwts.Accepts(w.keys, m.token, [DASHBOARD], w.now) && Jwts.Subject(m.token) == y.email
    ensures w.logins == {Login(y.email, 0)}
  {
  }

  /** So a session under the name "dashboard" can be kept up for ever after a single login: there is no bound. */
  lemma {:induction false} SessionsUnderThatNameNeverEnd(y: Story, rounds: nat) returns (t: Trace, m: Minted)
    requires y.Possible() && y.req.clientID == DASHBOARD && y.s.tokenExpiry > SECOND
    ensures LegalTrace(y.s, t) && Renewable(y, After(y.s, t), m, |y.code| + rounds)
    ensures var w := After(y.s, t);
            && w.now >= rounds && w.logins == {Login(y.email, 0)}
            && Jwts.Accepts(w.keys, m.token, [DASHBOARD], w.now) && Jwts.Subject(m.token) == y.email
  {
    hide After, LegalTrace, Renewable, Jwts.Accepts;
    if rounds == 0 {
      StoryHappens(y);
      StoryIsRenewable(y);
      t, m := y.Whole(), y.Grant();
    } else {
      var t0, m0 := SessionsUnderThatNameNeverEnd(y, rounds - 1);
      t, m := Renewal(y, t0, m0, |y.code| + rounds - 1);
    }
    RenewableServes(y, After(y.s, t), m, |y.code| + rounds);
  }

  // ----- A code stays good -----

  predicate Presents(e: Event, code: string) {
    (e.Burn? || e.Redeem?) && e.code == code
  }

  /** Codes live in memory: a restart loses them all. */
  predicate Loses(e: Event, code: string) {
    Presents(e, code) || e.Restart?
  }

  lemma CodeSurvivesStep(s: Setup, w: World, e: Event, code: string, until: int)
    requires Legal(s, w, e) && code in w.codes && code in w.births && until <= w.codes[code].expiresAt
    requires Step(s, w, e).now <= until && !Loses(e, code)
    ensures code in Step(s, w, e).codes && Step(s, w, e).codes[code] == w.codes[code] && w.now <= Step(s, w, e).now
  {
    hide Step, Legal;
    CodeCallEffect(s, w, e);
    var c := CodeCall(s, w, e);
    if c.Some? {
      assert AuthCodes.Live(w.codes, code, c.value.at);
    }
  }

  /** Whatever else happens short of a restart, a pending code that nobody presents past client authentication stays
    * pending. */
  lemma {:induction false} PendingCodeSurvives(s: Setup, t: Trace, k: nat, code: string, until: int)
    requires LegalTrace(s, t) && k <= |t|
    requires code in After(s, t[..k]).codes && until <= After(s, t[..k]).codes[code].expiresAt
    requires After(s, t).now <= until
    requires forall i | k <= i < |t| :: !Loses(t[i], code)
    ensures code in After(s, t).codes && After(s, t).codes[code] == After(s, t[..k]).codes[code]
    decreases |t|
  {
    hide After, LegalTrace, Legal, Step, Loses, Inv;
    if k == |t| {
      assert t[..k] == t;
    } else {
      var n := |t| - 1;
      var p, e := t[..n], t[n];
      assert p[..k] == t[..k];
      LastIsLegal(s, t);
      RunRemembers(s, t, n);
      PendingCodeSurvives(s, p, k, code, until);
      StoredEntryIsBorn(s, p, code);
      CodeSurvivesStep(s, After(s, p), e, code, until);
    }
  }

  /** Everything a client has to bring along to redeem a code born like this. */
  predicate Deserves(s: Setup, w: World, b: Birth, e: Event) {
    && e.Redeem? && e.auth.clientID == b.entry.clientID
    && s.S256(e.verifier) == b.entry.codeChallenge
    && w.now <= e.at <= b.at + AuthCodes.CODE_LIFETIME && e.at <= e.mintedAt
    && (if b.source.Deferred? then
          e.proof.Some? && e.at <= e.proof.value.at <= e.mintedAt && e.proof.value.email != ""
        else e.proof.None? && b.entry.email != "")
  }

  lemma DeservedRedemptionIsLegal(s: Setup, w: World, b: Birth, e: Event)
    requires BirthOk(s, w, b) && Deserves(s, w, b, e) && e.auth in w.authenticated
    requires e.code in w.codes && w.codes[e.code] == b.entry
    ensures Legal(s, w, e) && e.code in Step(s, w, e).responses
  {
  }

  /** Completeness under interference.  A code issued by event k can be redeemed by its client after any further events
    * that do not present it, within ten minutes: it takes having been authenticated, the right verifier, and for a
    * deferred code a successful exchange. */
  lemma CodeIsRedeemable(s: Setup, t: Trace, k: nat, e: Event)
    requires LegalTrace(s, t) && k < |t| && e.Redeem? && Issues(t[k], e.code)
    requires forall i | k < i < |t| :: !Loses(t[i], e.code)
    requires e.code in After(s, t).births && Deserves(s, After(s, t), After(s, t).births[e.code], e)
    requires e.auth in After(s, t).authenticated
    ensures LegalTrace(s, t + [e]) && e.code in After(s, t + [e]).responses
  {
    LegalPrefix(s, t, k);
    var u, w := t[..k + 1], After(s, t);
    RunRemembers(s, t, k + 1);
    InvAlways(s, t);
    InvAlways(s, u);
    IssueStoresCode(s, After(s, t[..k]), t[k], e.code);
    var b := w.births[e.code];
    assert BirthOk(s, w, b);
    PendingCodeSurvives(s, t, k + 1, e.code, e.at);
    DeservedRedemptionIsLegal(s, w, b, e);
    TraceGrows(s, t, e);
  }

  /** All the way: the client a code was issued to can, for as long as it is live, authenticate and redeem the code. 
    * A Kite client needs no secret; any other needs the one it was given when it was registered. */
  lemma LiveClientRedeemsItsCode(s: Setup, t: Trace, k: nat, e: Event, j: nat)
    requires LegalTrace(s, t) && k < |t| && e.Redeem? && Issues(t[k], e.code)
    requires forall i | k < i < |t| :: !Loses(t[i], e.code)
    requires e.code in After(s, t).births && Deserves(s, After(s, t), After(s, t).births[e.code], e)
    requires e.auth.clientID in After(s, t).clients
    requires e.auth.isKite == After(s, t).clients[e.auth.clientID].isKiteAPIKey
    requires e.auth.isKite || (j <= |t| && IsDynamicWith(After(s, t[..j]).clients, e.auth.clientID, e.auth.secret))
    ensures LegalTrace(s, t + [Authenticate(e.auth), e])
    ensures e.code in After(s, t + [Authenticate(e.auth), e]).responses
  {
    hide After, LegalTrace, Deserves;
    var w, a := After(s, t), Authenticate(e.auth);
    if !e.auth.isKite {
      DynamicClientsNeverChange(s, t, j, e.auth.clientID);
    }
    TraceGrows(s, t, a);
    var u := t + [a];
    AuthenticatingOnlyRecords(s, w, e.auth);
    DeservesEitherWay(s, w, After(s, u), w.births[e.code], e);
    CodeIsRedeemable(s, u, k, e);
    assert t + [a, e] == u + [e];
  }

  predicate IsDynamicWith(c: Clients.ClientMap, id: string, secret: string) {
    id in c && !c[id].isKiteAPIKey && c[id].clientSecret == secret
  }

  lemma AuthenticatingOnlyRecords(s: Setup, w: World, auth: ClientAuth)
    ensures Step(s, w, Authenticate(auth)) == w.(authenticated := w.authenticated + {auth})
  {
  }

  lemma DeservesEitherWay(s: Setup, w: World, w': World, b: Birth, e: Event)
    requires Deserves(s, w, b, e) && w'.now == w.now
    ensures Deserves(s, w', b, e)
  {
  }

  lemma IssueStoresCode(s: Setup, w: World, e: Event, code: string)
    requires Legal(s, w, e) && Issues(e, code)
    ensures var w' := Step(s, w, e);
            && code in w'.codes && code in w'.births && w'.codes[code] == w'.births[code].entry
  {
    hide Step, Legal;
    CodeCallEffect(s, w, e);
  }

  /** A dynamically registered client is the same whenever it is known as one, before and after any eviction and
    * restart: same secret, same redirect URIs. */
  lemma DynamicClientsNeverChange(s: Setup, t: Trace, k: nat, id: string)
    requires LegalTrace(s, t) && k <= |t|
    requires id in After(s, t[..k]).clients && !After(s, t[..k]).clients[id].isKiteAPIKey
    requires id in After(s, t).clients && !After(s, t).clients[id].isKiteAPIKey
    ensures After(s, t).clients[id] == After(s, t[..k]).clients[id]
  {
    hide After, LegalTrace;
    RunRemembers(s, t, k);
    InvAlways(s, t);
    InvAlways(s, t[..k]);
    assert EntryOk(After(s, t), id, After(s, t).clients[id]);
    assert EntryOk(After(s, t[..k]), id, After(s, t[..k]).clients[id]);
  }

  /** But once its id has left memory a request that names it registers it as a Kite client.  A client that was ever
    * registered dynamically is what it was registered as if and only if that has not happened; if it has, it has no
    * secret. */
  lemma DynamicUnlessRegisteredOnSight(s: Setup, t: Trace, id: string)
    requires LegalTrace(s, t) && id in After(s, t).registered && id in After(s, t).clients
    ensures After(s, t).clients[id] == After(s, t).registered[id] <==> !After(s, t).clients[id].isKiteAPIKey
    ensures After(s, t).clients[id].isKiteAPIKey ==> After(s, t).clients[id].clientSecret == ""
  {
    hide After, LegalTrace;
    InvAlways(s, t);
    assert EntryOk(After(s, t), id, After(s, t).clients[id]);
  }

  lemma StartIsLegal(s: Setup)
    ensures LegalTrace(s, []) && After(s, []) == Start(s)
  {
  }

  /** The redirect URIs of a Kite client, however many requests have named it. */
  lemma KiteListsStaySmall(s: Setup, t: Trace, id: string)
    requires LegalTrace(s, t) && Clients.IsKite(After(s, t).clients, id)
    ensures var uris := After(s, t).clients[id].redirectURIs;
            1 <= |uris| <= Clients.MAX_REDIRECT_URIS && Clients.NoDuplicates(uris)
  {
    InvAlways(s, t);
    assert EntryOk(After(s, t), id, After(s, t).clients[id]);
  }

  // ----- Who a code speaks for -----

  /** No stored code carries both an email and a request token. */
  lemma NoCodeHasTwoIdentities(s: Setup, t: Trace, code: string)
    requires LegalTrace(s, t) && code in After(s, t).codes
    ensures var e := After(s, t).codes[code]; e.email == "" || e.requestToken == ""
  {
    InvAlways(s, t);
    assert BirthOk(s, After(s, t), After(s, t).births[code]);
  }

  /** If a callback set a dashboard cookie for someone, the code it issued yields a token for nobody else. */
  lemma CookieAndTokenAgree(s: Setup, t: Trace, k: nat, j: nat)
    requires LegalTrace(s, t) && k < j < |t|
    requires t[k].IssueFromExchange? && t[k].login.email != ""
    requires t[j].Redeem? && t[j].code == t[k].code
    ensures t[j].code in After(s, t[..j]).codes
    ensures ResponseTo(s, After(s, t[..j]), t[j]).email == t[k].login.email
  {
    hide Step, Legal, Inv;
    LegalPrefix(s, t, k);
    LegalPrefix(s, t, j);
    assert t[..j][..k + 1] == t[..k + 1];
    RunRemembers(s, t[..j], k + 1);
    InvAlways(s, t[..j]);
    ExchangeBirth(s, After(s, t[..k]), t[k]);
    RedeemIsJustified(s, After(s, t[..j]), t[j]);
    StoredEntryIsBorn(s, t[..j], t[j].code);
  }

  lemma ExchangeBirth(s: Setup, w: World, e: Event)
    requires Legal(s, w, e) && e.IssueFromExchange?
    ensures e.code in Step(s, w, e).births && Step(s, w, e).births[e.code].entry.email == e.login.email
  {
  }

  lemma StoredEntryIsBorn(s: Setup, t: Trace, code: string)
    requires LegalTrace(s, t) && code in After(s, t).codes
    ensures code in After(s, t).births && After(s, t).codes[code] == After(s, t).births[code].entry
  {
    InvAlways(s, t);
  }

  /** The codes callbacks issued to someone they could name. */
  function NamedByCallback(w: World): set<string> {
    set c | c in w.births && w.births[c].source.Exchanged? && w.births[c].entry.email != ""
  }

  lemma ConsentEffect(s: Setup, w: World, e: Event)
    requires Legal(s, w, e) && s.recordsConsent
    ensures var w' := Step(s, w, e);
            if e.IssueFromExchange? && e.login.email != "" then
              && w'.consents == w.consents + 1 && e.code !in NamedByCallback(w)
              && NamedByCallback(w') == NamedByCallback(w) + {e.code}
            else w'.consents == w.consents && NamedByCallback(w') == NamedByCallback(w)
  {
    hide Step, Legal;
    if e.IssueFromExchange? {
      ExchangedCodesAreNew(s, w, e);
      ExchangeStep(s, w, e);
    } else {
      NoConsentElsewhere(s, w, e);
    }
  }

  lemma ExchangedCodesAreNew(s: Setup, w: World, e: Event)
    requires Legal(s, w, e) && e.IssueFromExchange?
    ensures e.code !in w.births
  {
  }

  lemma NoConsentElsewhere(s: Setup, w: World, e: Event)
    requires Legal(s, w, e) && !e.IssueFromExchange?
    ensures Step(s, w, e).consents == w.consents
    ensures NamedByCallback(Step(s, w, e)) == NamedByCallback(w)
  {
    if e.IssueFromSession? || e.IssueDeferred? {
      var w' := Step(s, w, e);
      assert w'.births == w.births[e.code := w'.births[e.code]] && !w'.births[e.code].source.Exchanged?;
    } else if e.Redeem? {
      hide Step, Legal;
      RedeemStep(s, w, e);
    } else {
      hide Legal;
      OthersBearNothing(s, w, e);
    }
  }

  lemma OthersBearNothing(s: Setup, w: World, e: Event)
    requires !e.IssueFromSession? && !e.IssueFromExchange? && !e.IssueDeferred? && !e.Redeem?
    ensures Step(s, w, e).births == w.births && Step(s, w, e).consents == w.consents
  {
  }

  /** With a consent recorder in place, there is one consent event for each such code. */
  lemma {:induction false} ConsentsMatchCodes(s: Setup, t: Trace)
    requires LegalTrace(s, t) && s.recordsConsent
    ensures After(s, t).consents == |NamedByCallback(After(s, t))|
  {
    if t != [] {
      ConsentsMatchCodes(s, t[..|t| - 1]);
      ConsentEffect(s, After(s, t[..|t| - 1]), t[|t| - 1]);
    }
  }

  // ----- The elevation window -----

  /** What RequireAdminMFA lets through for the person the request is made by. */
  predicate ElevationAccepted(s: Setup, keys: Jwts.Keys, token: Jwts.Token, email: string, t: int) {
    Jwts.Accepts(keys, token, [ADMIN_MFA], t) && s.fold(token.claims.subject) == s.fold(email)
  }

  /** No code but the handlers asks for elevation tokens. */
  ghost predicate OnlyHandlersElevate(w: World) {
    forall m | m in w.minted && m.cause.Elevation? :: m.cause.basis.Some?
  }

  /** The gate opens only within fifteen minutes of an enrolment or a verification that the same person, up to case, has
    * passed, unless the token was granted to a client called "admin-mfa" or asked for by other code than the
    * handlers. */
  lemma ElevationIsRecent(s: Setup, t: Trace, m: Minted, keys: Jwts.Keys, email: string, now: int, delay: nat)
    requires LegalTrace(s, t) && Prompt(After(s, t), delay)
    requires m in After(s, t).minted && ElevationAccepted(s, keys, m.token, email, now)
    ensures m.cause.Elevation? <==> !GrantedTo(After(s, t), m, ADMIN_MFA)
    ensures ADMIN_MFA !in After(s, t).ids && OnlyHandlersElevate(After(s, t)) ==>
              m.cause.Elevation? && m.cause.basis.Some?
    ensures m.cause.Elevation? && m.cause.basis.Some? ==>
              var pass := m.cause.basis.value;
              && s.fold(pass.email) == s.fold(email)
              && pass.at <= m.at && now < pass.at + ADMIN_MFA_TOKEN_EXPIRY + delay
              && exists j, k ::
                   0 <= j < k < |t| && t[j] == PassCheck(pass) && t[k] == Elevate(pass.email, Some(pass), m.at)
  {
    var w := After(s, t);
    InvAlways(s, t);
    AudienceTellsTheCause(s, w, m);
    assert MintedOk(s, w, m);
    if m.cause.Elevation? && m.cause.basis.Some? {
      var k := ElevatedAt(s, t, m);
      LegalPrefix(s, t, k);
      ElevationNeedsAPass(s, After(s, t[..k]), t[k]);
      var j := PassedAt(s, t[..k], m.cause.basis.value);
      assert t[j] == t[..k][j];
    }
  }

  lemma ElevationNeedsAPass(s: Setup, w: World, e: Event)
    requires Legal(s, w, e) && e.Elevate? && e.basis.Some?
    ensures e.basis.value in w.passes
  {
  }

  lemma OnlyElevatingElevates(s: Setup, w: World, e: Event, m: Minted)
    requires m in Step(s, w, e).minted && m !in w.minted && m.cause.Elevation?
    ensures e == Elevate(m.cause.email, m.cause.basis, m.at)
  {
    if e.IssueFromExchange? {
      hide Step;
      ExchangeStep(s, w, e);
    } else if e.Redeem? {
      hide Step;
      RedeemStep(s, w, e);
    } else if !e.LogIn? && !e.Elevate? {
      hide Step;
      OnlySomeMint(s, w, e);
    }
  }

  lemma {:induction false} ElevatedAt(s: Setup, t: Trace, m: Minted) returns (k: nat)
    requires LegalTrace(s, t) && m in After(s, t).minted && m.cause.Elevation?
    ensures k < |t| && t[k] == Elevate(m.cause.email, m.cause.basis, m.at)
  {
    hide Step, Legal;
    var n := |t| - 1;
    if m in After(s, t[..n]).minted {
      k := ElevatedAt(s, t[..n], m);
    } else {
      OnlyElevatingElevates(s, After(s, t[..n]), t[n], m);
      k := n;
    }
  }

  lemma OnlyPassingPasses(s: Setup, w: World, e: Event)
    requires !e.PassCheck?
    ensures Step(s, w, e).passes == w.passes
  {
    if e.IssueFromExchange? {
      hide Step;
      ExchangeStep(s, w, e);
    } else if e.Redeem? {
      hide Step;
      RedeemStep(s, w, e);
    }
  }

  lemma {:induction false} PassedAt(s: Setup, t: Trace, pass: Pass) returns (k: nat)
    requires LegalTrace(s, t) && pass in After(s, t).passes
    ensures k < |t| && t[k] == PassCheck(pass)
  {
    hide Legal;
    var n := |t| - 1;
    if t[n] == PassCheck(pass) {
      k := n;
    } else {
      if !t[n].PassCheck? {
        OnlyPassingPasses(s, After(s, t[..n]), t[n]);
      }
      k := PassedAt(s, t[..n], pass);
    }
  }
}
