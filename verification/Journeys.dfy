/** What several requests of one client come to, one after the other, with any other requests in between. */
module Journeys {
  import opened Common
  import opened Protocol
  import opened Handlers
  import opened Invariants
  import AuthCodes
  import Base64Url
  import Clients
  import LoginOutcomes
  import Outcomes
  import Theorems

  // ----- Registering -----

  lemma RegistrationIsNoted(s: Setup, w: World, op: Clients.ClientOp)
    requires op.Register?
    ensures op.id in Step(s, w, ClientCall(op)).registered
    ensures Step(s, w, ClientCall(op)).registered[op.id]
         == Clients.ClientEntry(op.secret, op.uris, op.name, op.at, false)
  {
  }

  lemma RegistrationIsRemembered(s: Setup, t: Trace, k: nat, op: Clients.ClientOp)
    requires LegalTrace(s, t) && k < |t| && t[k] == ClientCall(op) && op.Register?
    ensures op.id in After(s, t).registered
    ensures After(s, t).registered[op.id] == Clients.ClientEntry(op.secret, op.uris, op.name, op.at, false)
  {
    hide After, Step, LegalTrace, Legal;
    Theorems.LegalPrefix(s, t, k);
    RegistrationIsNoted(s, After(s, t[..k]), op);
    RunRemembers(s, t, k + 1);
  }

  /** A client that was registered is, whenever it is live and was not registered on sight since, known by exactly the
    * secret it was given, and has exactly the redirect URIs it gave, after any evictions and restarts. */
  lemma RegisteredClientsAreKnownByTheirSecret(s: Setup, t: Trace, k: nat, op: Clients.ClientOp, secret: string)
    requires LegalTrace(s, t) && k < |t| && t[k] == ClientCall(op) && op.Register?
    requires op.id in After(s, t).clients && !After(s, t).clients[op.id].isKiteAPIKey
    ensures After(s, t).clients[op.id] == Clients.ClientEntry(op.secret, op.uris, op.name, op.at, false)
    ensures Legal(s, After(s, t), Authenticate(ClientAuth(op.id, false, secret))) <==> secret == op.secret
  {
    hide After, Step, LegalTrace;
    RegistrationIsRemembered(s, t, k, op);
    InvAlways(s, t);
    assert EntryOk(After(s, t), op.id, After(s, t).clients[op.id]);
  }

  /** And whenever the database holds it as such, every column holds what belongs there. */
  lemma RegisteredClientsAreSavedAsTheyAre(s: Setup, t: Trace, k: nat, op: Clients.ClientOp)
    requires LegalTrace(s, t) && k < |t| && t[k] == ClientCall(op) && op.Register?
    requires op.id in After(s, t).db.rows && !After(s, t).db.rows[op.id].isKiteAPIKey
    ensures After(s, t).db.rows[op.id]
         == Clients.ClientLoadEntry(op.id, op.secret, Clients.Marshalled(op.uris), op.name, op.at, false)
  {
    hide After, Step, LegalTrace, Legal;
    RegistrationIsRemembered(s, t, k, op);
    InvAlways(s, t);
    var db := After(s, t).db;
    var n := db.landed[op.id];
    assert db.rows[op.id] == db.writes[n] && db.writes[n].redirectURIs.Marshalled?;
    assert EntryOk(After(s, t), db.writes[n].clientID, Clients.Rebuild(db.writes[n]));
  }

  /** A registration and a later token request: it gets past client authentication if and only if it brings the secret
    * that was handed out. */
  lemma RegisteredClientsGetPastAuthentication(s: Setup, k: nat, op: Clients.ClientOp, before: Trace, after: Trace,
                                               p: TokenParams, kite: Kite, r: Reply, at: nat)
    requires LegalTrace(s, before) && k < |before| && before[k] == ClientCall(op) && op.Register?
    requires op.id in After(s, before).clients && !After(s, before).clients[op.id].isKiteAPIKey
    requires TokenRan(s, before, after, p, kite, r, at) && Outcomes.IsComplete(p) && p.clientID == op.id
    ensures r == InvalidClient <==> p.clientSecret != op.secret
  {
    hide After, Step, LegalTrace, Legal, TokenRan;
    RegisteredClientsAreKnownByTheirSecret(s, before, k, op, p.clientSecret);
    Outcomes.UnauthenticatedRequestsAreRefused(s, before, after, p, kite, r, at);
  }

  // ----- Logging in -----

  /** The request that redeems the code a callback sent back for a state, presented by nobody else before, within ten
    * minutes, by the client of the state while it is a Kite client, with the verifier behind the state's challenge. */
  ghost predicate RedeemsInTime(s: Setup, issued: Trace, before: Trace, after: Trace, st: OAuthState, to: Location,
                                p: TokenParams, at: nat)
  {
    && Grew(s, issued, before) && Grew(s, before, after) && |issued| > 0
    && Outcomes.IsComplete(p) && p.clientID == st.clientID && "code" in to.params && to.params["code"] == [p.code]
    && st.codeChallenge == Base64Url.Encode(s.sha256(p.codeVerifier), false)
    && Clients.IsKite(After(s, before).clients, st.clientID)
    && (forall i | |issued| <= i < at && i < |after| :: !Theorems.Presents(after[i], p.code))
    && (at < |after| && (after[at].Burn? || after[at].Redeem?) ==>
          p.code in After(s, issued).codes && after[at].at <= After(s, issued).codes[p.code].expiresAt)
  }

  lemma HeldCodeIsAnswered(s: Setup, issued: Trace, before: Trace, after: Trace, st: OAuthState, to: Location,
                           p: TokenParams, kite: Kite, r: Reply, at: nat, email: string, requestToken: string,
                           since: int, who: string)
    requires LegalTrace(s, after) && TokenRan(s, before, after, p, kite, r, at)
    requires RedeemsInTime(s, issued, before, after, st, to, p, at)
    requires LoginOutcomes.Holds(After(s, issued), p.code, LoginOutcomes.RequestIn(st), email, requestToken, since)
    requires Outcomes.StandsFor(After(s, issued).codes[p.code], p, kite, who)
    ensures at < |after| && after[at].Redeem? && Outcomes.Grants(s, After(s, after), p, r, who, after[at].mintedAt)
  {
    hide After, Step, LegalTrace, Legal, TokenRan, Grew;
    GrewOnce(s, issued, before, after);
    assert |issued| <= |before| by {
      EvidenceStays(s, issued, before);
    }
    Outcomes.UnauthenticatedRequestsAreRefused(s, before, after, p, kite, r, at);
    TokenPointIsLater(s, before, after, p, kite, r, at);
    Outcomes.PendingCodeIsFound(s, issued, after, p.code, at, After(s, issued).codes[p.code].expiresAt);
    Outcomes.PresentedCodesAreAnswered(s, before, after, p, kite, r, at);
  }

  lemma TokenPointIsLater(s: Setup, before: Trace, after: Trace, p: TokenParams, kite: Kite, r: Reply, at: nat)
    requires TokenRan(s, before, after, p, kite, r, at) && Outcomes.IsComplete(p) && r != InvalidClient
    ensures |before| < at
  {
    hide After, Step;
  }

  /** The first login of someone who brings an app of their own: the server has no secret for it, so the callback
    * sends back a code for nobody yet, and the token request, which brings the secret, gets a token for whomever Kite
    * names under it, whatever secret the server may have stored meanwhile. */
  lemma FirstLoginSucceeds(s: Setup, start: Trace, issued: Trace, requestToken: string, st: OAuthState, kite: Kite,
                           registry: Option<Registry>, c: Callback, place: nat, before: Trace, after: Trace,
                           p: TokenParams, later: Kite, r: Reply, at: nat, who: string)
    requires LegalTrace(s, issued) && LegalTrace(s, after) && requestToken != ""
    requires Clients.IsKite(After(s, start).clients, st.clientID) && kite.secretOf(st.clientID) == None
    requires CallbackRan(s, start, issued, requestToken, Carries(st), kite, registry, c, place)
    requires place <= |issued| ==> |After(s, issued[..place]).codes| < 10_000
    requires c.reply.Redirect? ==> RedeemsInTime(s, issued, before, after, st, c.reply.to, p, at)
    requires TokenRan(s, before, after, p, later, r, at)
    requires p.clientSecret != "" && who != ""
    requires later.exchangeWith(requestToken, st.clientID, p.clientSecret) == Some(who)
    ensures c.reply.Redirect? && at < |after| && after[at].Redeem?
    ensures Outcomes.Grants(s, After(s, after), p, r, who, after[at].mintedAt)
  {
    hide After, Step, LegalTrace, Legal, TokenRan, CallbackRan, Grew;
    LoginOutcomes.KiteClientsGetACode(s, start, issued, requestToken, st, kite, registry, c, place);
    var e := issued[place];
    HeldCodeIsAnswered(s, issued, before, after, st, c.reply.to, p, later, r, at, "", requestToken, e.at, who);
  }

  /** A later login: the server has the secret, the callback learns from Kite who this is, and the token is for that
    * person, whatever the token request brings for a secret. */
  lemma LaterLoginSucceeds(s: Setup, start: Trace, issued: Trace, requestToken: string, st: OAuthState, kite: Kite,
                           registry: Option<Registry>, c: Callback, place: nat, before: Trace, after: Trace,
                           p: TokenParams, later: Kite, r: Reply, at: nat, secret: string, who: string)
    requires LegalTrace(s, issued) && LegalTrace(s, after) && requestToken != "" && who != ""
    requires Clients.IsKite(After(s, start).clients, st.clientID) && kite.secretOf(st.clientID) == Some(secret)
    requires kite.exchangeWith(requestToken, st.clientID, secret) == Some(who)
    requires CallbackRan(s, start, issued, requestToken, Carries(st), kite, registry, c, place)
    requires place <= |issued| ==> |After(s, issued[..place]).codes| < 10_000
    requires c.reply.Redirect? ==> RedeemsInTime(s, issued, before, after, st, c.reply.to, p, at)
    requires TokenRan(s, before, after, p, later, r, at)
    ensures c.reply.Redirect? && at < |after| && after[at].Redeem?
    ensures Outcomes.Grants(s, After(s, after), p, r, who, after[at].mintedAt)
  {
    hide After, Step, LegalTrace, Legal, TokenRan, CallbackRan, Grew;
    LoginOutcomes.KiteClientsGetACode(s, start, issued, requestToken, st, kite, registry, c, place);
    var e := issued[place];
    HeldCodeIsAnswered(s, issued, before, after, st, c.reply.to, p, later, r, at, who, "", e.at, who);
  }
}
