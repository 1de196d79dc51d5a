/** What the handlers on the way to a code answer to those who call them, case by case, in the terms of the request
  * and of the stores.
  */
module LoginOutcomes {
  import opened Common
  import opened Protocol
  import opened Handlers
  import Invariants
  import Theorems
  import AuthCodes
  import BrowserTarget
  import Clients
  import Jwts
  import RedirectUrl

  // ----- What a redirect carries -----

  /** The browser is sent to the place the URI names, with this code, and with the request's state if it had one. */
  ghost predicate SendsBack(s: Setup, to: Location, uri: string, code: Bytes, state: Bytes) {
    var u := s.parse(uri);
    && u.Some? && to.scheme == u.value.scheme && to.host == u.value.host && to.path == u.value.path
    && "code" in to.params && to.params["code"] == [code]
    && (state != "" ==> "state" in to.params && to.params["state"] == [state])
  }

  lemma LocationsSendBack(s: Setup, uri: string, code: Bytes, state: Bytes)
    requires s.parse(uri).Some?
    ensures SendsBack(s, LocationFor(s.parse(uri).value, code, state), uri, code, state)
  {
  }

  /** The store holds, under this code, what the request asked for: the client, the challenge and the URI, with an
    * email or a request token, good for ten minutes. */
  ghost predicate Holds(w: World, code: string, req: AuthRequest, email: string, requestToken: string, at: int) {
    && code in w.codes
    && w.codes[code] == AuthCodes.AuthCodeEntry(req.clientID, req.codeChallenge, req.redirectURI, email, requestToken,
                                                at + 10 * MINUTE)
  }

  lemma IssuedCodesAreHeld(s: Setup, w: World, e: Event)
    requires Legal(s, w, e) && (e.IssueFromSession? || e.IssueFromExchange? || e.IssueDeferred?)
    ensures e.IssueFromSession? ==> Holds(Step(s, w, e), e.code, e.req, Jwts.Subject(e.cookie.token), "", e.at)
    ensures e.IssueFromExchange? ==>
              Holds(Step(s, w, e), e.code, AuthRequest(e.st.clientID, e.st.redirectURI, e.st.codeChallenge, e.st.state),
                    e.login.email, "", e.at)
    ensures e.IssueDeferred? ==>
              Holds(Step(s, w, e), e.code, AuthRequest(e.st.clientID, e.st.redirectURI, e.st.codeChallenge, e.st.state),
                    "", e.requestToken, e.at)
  {
    hide Step, Legal;
    Invariants.CodeCallEffect(s, w, e);
    IssuesHaveRoom(s, w, e);
  }

  lemma IssuesHaveRoom(s: Setup, w: World, e: Event)
    requires Legal(s, w, e) && (e.IssueFromSession? || e.IssueFromExchange? || e.IssueDeferred?)
    ensures AuthCodes.HasRoom(w.codes)
  {
  }

  lemma LastCodeIsHeld(s: Setup, t: Trace, at: nat)
    requires LegalTrace(s, t) && |t| == at + 1
    ensures LegalTrace(s, t[..at]) && Legal(s, After(s, t[..at]), t[at])
    ensures After(s, t) == Step(s, After(s, t[..at]), t[at])
  {
  }

  // ----- The authorization endpoint -----

  /** A request the authorization endpoint looks into: for a code, with an S256 challenge, to a web URL. */
  predicate IsProper(s: Setup, p: AuthorizeParams) {
    && p.responseType == "code" && p.clientID != "" && p.redirectURI != ""
    && p.codeChallengeMethod == "S256" && p.codeChallenge != ""
    && var u := s.parse(p.redirectURI);
    && u.Some? && (u.value.scheme == "http" || u.value.scheme == "https")
  }

  /** Exactly the improper requests are turned away before any store is touched, so nothing is signed and no code issued
    * but with an S256 challenge. */
  lemma OnlyProperRequestsAreLookedInto(s: Setup, before: Trace, after: Trace, p: AuthorizeParams,
                                        cookie: Option<Jwts.Token>, checker: FreshnessCheck, registry: Option<Registry>,
                                        backend: Backend, r: Reply, at: Points)
    requires AuthorizeRan(s, before, after, p, cookie, checker, registry, backend, r, at)
    ensures p.responseType != "code" ==> r == UnsupportedResponseType
    ensures p.responseType == "code" && !IsProper(s, p) ==> r == InvalidRequest
    ensures !IsProper(s, p) ==> after == before
    ensures IsProper(s, p) ==> !r.UnsupportedResponseType? && !r.InvalidRequest?
  {
    hide After, Step, LegalTrace, Legal, Admitted;
  }

  /** Of the others exactly those whose URI is not registered for the client, when it is checked, are a mismatch. */
  lemma RegisteredURIsAreAccepted(s: Setup, before: Trace, after: Trace, p: AuthorizeParams,
                                  cookie: Option<Jwts.Token>, checker: FreshnessCheck, registry: Option<Registry>,
                                  backend: Backend, r: Reply, at: Points)
    requires AuthorizeRan(s, before, after, p, cookie, checker, registry, backend, r, at) && IsProper(s, p)
    ensures at.checked <= |after|
    ensures var c := After(s, after[..at.checked]).clients;
            var registered := p.clientID in c && p.redirectURI in c[p.clientID].redirectURIs;
            && (r == RedirectMismatch <==> !registered)
            && (!registered ==> |after| == at.checked)
            && (registered ==>
                  && at.checked < at.session <= |after|
                  && after[at.checked] == Accept(AuthRequest(p.clientID, p.redirectURI, p.codeChallenge, p.state)))
  {
    hide After, Step, LegalTrace, Legal, Admitted;
  }

  /** An unexpired dashboard session of someone the server holds a fresh Kite token for, and room for a code. */
  ghost predicate MaySkipLogin(keys: Jwts.Keys, cookie: Option<Jwts.Token>, checker: FreshnessCheck, at: int,
                               codes: AuthCodes.Entries)
  {
    && cookie.Some? && IsSession(keys, cookie.value, at) && cookie.value.claims.subject != ""
    && checker.Some? && checker.value(cookie.value.claims.subject)
    && |codes| < 10_000
  }

  /** Exactly then a proper request to a registered URI gets a code at once: for the session's subject, held with the
    * request's client, challenge and URI, and sent to that URI. */
  lemma SessionsSkipTheLogin(s: Setup, before: Trace, after: Trace, p: AuthorizeParams, cookie: Option<Jwts.Token>,
                             checker: FreshnessCheck, registry: Option<Registry>, backend: Backend, r: Reply,
                             at: Points)
    requires LegalTrace(s, after)
    requires AuthorizeRan(s, before, after, p, cookie, checker, registry, backend, r, at)
    requires IsProper(s, p) && r != RedirectMismatch && at.session <= |after|
    ensures var codes := After(s, after[..at.session]).codes;
            var skips := MaySkipLogin(After(s, after).keys, cookie, checker, at.seenAt, codes);
            && (skips <==> r.Redirect?)
            && (skips ==>
                  && |after| == at.session + 1 && after[at.session].IssueFromSession?
                  && var e := after[at.session];
                  && SendsBack(s, r.to, p.redirectURI, e.code, p.state)
                  && Holds(After(s, after), e.code, AuthRequest(p.clientID, p.redirectURI, p.codeChallenge, p.state),
                           cookie.value.claims.subject, "", e.at))
  {
    hide After, Step, LegalTrace, Legal, Admitted;
    var keys := After(s, after).keys;
    ServingIsASession(keys, cookie, checker, at.seenAt);
    if r.Redirect? {
      hide SessionServes;
      LastCodeIsHeld(s, after, at.session);
      IssuedCodesAreHeld(s, After(s, after[..at.session]), after[at.session]);
      LocationsSendBack(s, p.redirectURI, after[at.session].code, p.state);
    }
  }

  lemma ServingIsASession(keys: Jwts.Keys, cookie: Option<Jwts.Token>, checker: FreshnessCheck, at: int)
    ensures SessionServes(keys, cookie, checker, at) <==>
              && cookie.Some? && IsSession(keys, cookie.value, at) && cookie.value.claims.subject != ""
              && checker.Some? && checker.value(cookie.value.claims.subject)
    ensures cookie.Some? && cookie.value.Jwt? ==> Jwts.Subject(cookie.value) == cookie.value.claims.subject
  {
  }

  /** All others have to log in: at the app of a Kite client, after naming an email if the registry has any, or at the
    * server's own app if it has one.  The state that is signed for them holds the request. */
  lemma OthersLogIn(s: Setup, before: Trace, after: Trace, p: AuthorizeParams, cookie: Option<Jwts.Token>,
                    checker: FreshnessCheck, registry: Option<Registry>, backend: Backend, r: Reply, at: Points)
    requires AuthorizeRan(s, before, after, p, cookie, checker, registry, backend, r, at)
    requires IsProper(s, p) && r != RedirectMismatch && !r.Redirect?
    ensures at.decided <= |after|
    ensures var c := After(s, after[..at.decided]).clients;
            var isKite := p.clientID in c && c[p.clientID].isKiteAPIKey;
            var st := OAuthState(p.clientID, p.redirectURI, p.codeChallenge, p.state, "");
            && (isKite ==> r == ToKite(p.clientID, st))
            && (!isKite && registry.Some? && registry.value.hasEntries ==> r == EmailPrompt(st))
            && (!isKite && !(registry.Some? && registry.value.hasEntries) ==>
                  r == if s.kiteAPIKey == "" then NoCredentialsConfigured else ToKite(s.kiteAPIKey, st))
            && (r.ToKite? || r.EmailPrompt? ==> st in After(s, after).signed)
  {
    hide Legal, Admitted, LegalTrace, SessionServes;
    var req := AuthRequest(p.clientID, p.redirectURI, p.codeChallenge, p.state);
    if r.ToKite? || r.EmailPrompt? {
      assert after == after[..at.decided] + [SignRequest(req)];
      SigningSigns(s, after, at.decided);
    }
  }

  lemma SigningSigns(s: Setup, t: Trace, n: nat)
    requires n < |t| && t == t[..n] + [t[n]] && t[n].SignRequest?
    ensures var req := t[n].req;
            OAuthState(req.clientID, req.redirectURI, req.codeChallenge, req.state, "") in After(s, t).signed
  {
  }

  // ----- The email lookup -----

  /** Without a genuine state there is nothing to go on.  A form that is not genuine, an empty email and an unknown
    * one get the prompt again, with the state as it was.  A known email is sent to the app it is registered for, with
    * that app's key in the state and nothing else changed. */
  lemma LookupsAreAnswered(email: string, data: SignedData, csrfOk: bool, registry: Option<Registry>, r: Reply)
    requires r == LookupOutcome(email, data, csrfOk, registry)
    ensures !data.Carries? ==> r == InvalidSession
    ensures data.Carries? && (!csrfOk || email == "") ==> r == EmailPrompt(data.st)
    ensures data.Carries? && csrfOk && email != "" ==>
              if registry.None? || !registry.value.hasEntries then r == RegistryNotConfigured
              else if registry.value.byEmail(email).None? then r == EmailPrompt(data.st)
              else
                var key, st := registry.value.byEmail(email).value, data.st;
                if |key| < 8 then r == Aborted
                else r == ToKite(key, OAuthState(st.clientID, st.redirectURI, st.codeChallenge, st.state, key))
  {
  }

  // ----- Kite's callback -----

  function RequestIn(st: OAuthState): AuthRequest {
    AuthRequest(st.clientID, st.redirectURI, st.codeChallenge, st.state)
  }

  /** If there is room, a code for this person was stored and sent back, a dashboard cookie set unless the email is
    * empty, and a consent recorded if there is a recorder; if there is none, nothing happened. */
  ghost predicate GivesCodeTo(s: Setup, after: Trace, st: OAuthState, email: string, r: Callback, at: nat) {
    && at <= |after|
    && if |After(s, after[..at]).codes| >= 10_000 then r == Callback(StoreFull, None, None) && |after| == at
       else
         && |after| == at + 1 && after[at].IssueFromExchange? && after[at].login.email == email
         && var e := after[at];
         && Holds(After(s, after), e.code, RequestIn(st), email, "", e.at)
         && r.reply.Redirect? && SendsBack(s, r.reply.to, st.redirectURI, e.code, st.state)
         && (r.cookie.Some? <==> email != "")
         && (r.cookie.Some? ==>
               && r.cookie.value.Jwt? && r.cookie.value.key == After(s, after).keys.secret
               && Jwts.IsClaimed(r.cookie.value.claims, email, "dashboard", e.cookieAt, 7 * DAY))
         && r.consent == if email != "" && s.recordsConsent then Some(email) else None
  }

  /** If there is room, a code was stored with the request token, for nobody yet, and sent back; no cookie, no
    * consent. */
  ghost predicate GivesDeferredCode(s: Setup, after: Trace, st: OAuthState, requestToken: string, r: Callback,
                                    at: nat) {
    && at <= |after|
    && if |After(s, after[..at]).codes| >= 10_000 then r == Callback(StoreFull, None, None) && |after| == at
       else
         && |after| == at + 1 && after[at].IssueDeferred?
         && var e := after[at];
         && Holds(After(s, after), e.code, RequestIn(st), "", requestToken, e.at)
         && r.reply.Redirect? && SendsBack(s, r.reply.to, st.redirectURI, e.code, st.state)
         && r.cookie.None? && r.consent.None?
  }

  lemma AnswersGiveACode(s: Setup, after: Trace, st: OAuthState, email: string, r: Callback, at: nat)
    requires LegalTrace(s, after) && Answers(s, after, st, email, r, at)
    ensures GivesCodeTo(s, after, st, email, r, at)
  {
    hide After, Step, LegalTrace, Legal;
    if |after| == at + 1 && AuthCodes.HasRoom(After(s, after[..at]).codes) {
      LastCodeIsHeld(s, after, at);
      IssuedCodesAreHeld(s, After(s, after[..at]), after[at]);
      LocationsSendBack(s, st.redirectURI, after[at].code, st.state);
    }
  }

  lemma PostponedGivesACode(s: Setup, after: Trace, st: OAuthState, requestToken: string, r: Callback, at: nat)
    requires LegalTrace(s, after) && Postponed(s, after, st, requestToken, r, at)
    ensures GivesDeferredCode(s, after, st, requestToken, r, at)
  {
    hide After, Step, LegalTrace, Legal;
    if |after| == at + 1 && AuthCodes.HasRoom(After(s, after[..at]).codes) {
      LastCodeIsHeld(s, after, at);
      IssuedCodesAreHeld(s, After(s, after[..at]), after[at]);
      LocationsSendBack(s, st.redirectURI, after[at].code, st.state);
    }
  }

  lemma CallbacksNeedTokenAndState(s: Setup, before: Trace, after: Trace, requestToken: string, data: SignedData,
                                   kite: Kite, registry: Option<Registry>, r: Callback, at: nat)
    requires CallbackRan(s, before, after, requestToken, data, kite, registry, r, at)
    ensures requestToken == "" || !data.Carries? ==> r == Callback(InvalidRequest, None, None) && after == before
  {
  }

  /** A client that is a Kite client when the callback comes always gets a code, room permitting: for the person Kite
    * names under the client's id and its stored secret, or a deferred one if there is no stored secret or Kite
    * refuses. */
  lemma KiteClientsGetACode(s: Setup, before: Trace, after: Trace, requestToken: string, st: OAuthState, kite: Kite,
                            registry: Option<Registry>, r: Callback, at: nat)
    requires LegalTrace(s, after)
    requires CallbackRan(s, before, after, requestToken, Carries(st), kite, registry, r, at) && requestToken != ""
    requires var c := After(s, before).clients; st.clientID in c && c[st.clientID].isKiteAPIKey
    ensures var secret := kite.secretOf(st.clientID);
            var named := if secret.Some? then kite.exchangeWith(requestToken, st.clientID, secret.value) else None;
            && |before| <= at
            && (named.Some? ==> GivesCodeTo(s, after, st, named.value, r, at))
            && (named.None? ==> GivesDeferredCode(s, after, st, requestToken, r, at))
  {
    hide After, Step, LegalTrace, Legal, Answers, Postponed, GivesCodeTo, GivesDeferredCode;
    var secret := kite.secretOf(st.clientID);
    var named := if secret.Some? then kite.exchangeWith(requestToken, st.clientID, secret.value) else None;
    if named.Some? {
      AnswersGiveACode(s, after, st, named.value, r, at);
    } else {
      PostponedGivesACode(s, after, st, requestToken, r, at);
    }
  }

  /** For any other client Kite is asked with the credentials of the registered app the state names, or else with the
    * server's own; without an answer there is no code. */
  lemma OtherClientsNeedAnExchange(s: Setup, before: Trace, after: Trace, requestToken: string, st: OAuthState,
                                   kite: Kite,
                                   registry: Option<Registry>, r: Callback, at: nat)
    requires LegalTrace(s, after)
    requires CallbackRan(s, before, after, requestToken, Carries(st), kite, registry, r, at) && requestToken != ""
    requires var c := After(s, before).clients; !(st.clientID in c && c[st.clientID].isKiteAPIKey)
    ensures st.registryKey == "" ==>
              match kite.exchange(requestToken)
              case None => r == Callback(ExchangeFailed, None, None) && after == before
              case Some(email) => |before| <= at && GivesCodeTo(s, after, st, email, r, at)
    ensures st.registryKey != "" ==>
              if registry.None? || registry.value.secretOf(st.registryKey).None?
                 || registry.value.secretOf(st.registryKey).value == "" then
                r == Callback(RegistryCredentialsMissing, None, None) && after == before
              else
                match kite.exchangeWith(requestToken, st.registryKey, registry.value.secretOf(st.registryKey).value)
                case None => r == Callback(ExchangeFailed, None, None) && after == before
                case Some(email) => |before| <= at && GivesCodeTo(s, after, st, email, r, at)
  {
    hide After, Step, LegalTrace, Legal, Answers, Postponed, GivesCodeTo;
    var plan := CallbackPlan(st, false, requestToken, kite, registry);
    if plan.Named? {
      AnswersGiveACode(s, after, st, plan.email, r, at);
    }
  }

  // ----- The browser login -----

  /** The cookie is for this person, and the browser goes on to this path. */
  ghost predicate BrowserGetsIn(s: Setup, before: Trace, after: Trace, email: string, path: Bytes,
                                r: Option<(Jwts.Token, Bytes)>)
  {
    && |after| == |before| + 1 && after[|before|].LogIn? && after[|before|].login.email == email
    && r.Some? && r.value.1 == path && r.value.0.Jwt? && r.value.0.key == After(s, after).keys.secret
    && Jwts.IsClaimed(r.value.0.claims, email, "dashboard", after[|before|].cookieAt, 7 * DAY)
  }

  /** A path on this server: one slash first, and not two. */
  predicate StaysHere(path: Bytes) {
    |path| > 0 && path[0] == '/' && (|path| > 1 ==> path[1] != '/')
  }

  /** A target printed for an email that splits cleanly: Kite is asked with that person's credentials, and the person
    * Kite names gets in, to the redirect if it stays on this server. */
  lemma PrintedTargetsLogIn(s: Setup, before: Trace, after: Trace, requestToken: string, email: Bytes, redirect: Bytes,
                            kite: Kite, r: Option<(Jwts.Token, Bytes)>)
    requires BrowserRan(s, before, after, requestToken, Some(BrowserTarget.Print(email, redirect)), kite, r)
    requires BrowserTarget.SplitsCleanly(email)
    ensures var path: Bytes := if StaysHere(redirect) then redirect else "/admin/ops";
            var named :=
              if requestToken == "" then None
              else if email == "" then kite.exchange(requestToken)
              else
                match kite.credentialsOf(email)
                case None => None
                case Some(c) => kite.exchangeWith(requestToken, c.0, c.1);
            match named
            case None => r.None? && after == before
            case Some(who) => BrowserGetsIn(s, before, after, who, path, r)
  {
    hide After, Step;
    BrowserTarget.TargetRoundTrip(email, redirect);
    LocalPathsStayHere(redirect);
  }

  lemma LocalPathsStayHere(path: Bytes)
    ensures BrowserTarget.IsLocalPath(path) <==> StaysHere(path)
  {
  }

  /** Without a target, or with the plain path of an older link, Kite is asked with the server's own credentials. */
  lemma OtherTargetsLogIn(s: Setup, before: Trace, after: Trace, requestToken: string, target: Option<Bytes>,
                          kite: Kite,
                          r: Option<(Jwts.Token, Bytes)>)
    requires BrowserRan(s, before, after, requestToken, target, kite, r)
    requires target.Some? ==> target.value != [] && target.value[0] == '/'
    ensures var path: Bytes := if target.Some? && StaysHere(target.value) then target.value else "/admin/ops";
            if requestToken == "" || kite.exchange(requestToken).None? then r.None? && after == before
            else BrowserGetsIn(s, before, after, kite.exchange(requestToken).value, path, r)
  {
    hide After, Step;
    if target.Some? {
      BrowserTarget.FormatsAreDisjoint([], [], target.value);
      LocalPathsStayHere(target.value);
    }
  }

  // ----- The admin gate -----

  /** A token the gate was opened with opens it for the same person, however the email is capitalised, for fifteen
    * minutes, cut to whole seconds, as long as the server has the key it was signed with. */
  lemma ElevationOpensTheGate(s: Setup, before: Trace, after: Trace, email: string, enrolled: bool, token: Jwts.Token,
                              keys: Jwts.Keys, other: string, now: int)
    requires ElevationRan(s, before, after, email, enrolled, Some(token))
    requires var signed := After(s, after).keys.secret;
             keys.secret == signed || (keys.previous != "" && keys.previous == signed)
    ensures |after| == |before| + 2 && after[|before| + 1].Elevate?
    ensures var until := after[|before| + 1].mintedAt + 15 * MINUTE;
            Theorems.ElevationAccepted(s, keys, token, other, now)
            <==> now < until - until % 1_000_000_000 && s.fold(email) == s.fold(other)
  {
    hide After;
  }
}
