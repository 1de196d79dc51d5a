/** What the handlers' contracts amount to for those who call them. */
module Outcomes {
  import opened Common
  import opened Protocol
  import opened Handlers
  import Invariants
  import Theorems
  import AuthCodes
  import Clients
  import Base64Url
  import Jwts
  import RedirectQuery
  import RedirectUrl

  /** A token request that fails before it reaches the code store leaves every pending code alone; one that gets there
    * uses up exactly the code it presents, and succeeds exactly if the record shows it as redeemed. */
  lemma TokenRequestSpendsAtMostItsOwnCode(s: Setup, before: Trace, after: Trace, p: TokenParams, kite: Kite,
                                           r: Reply, at: nat)
    requires LegalTrace(s, after) && TokenRan(s, before, after, p, kite, r, at)
    ensures after == before || (|after| == at + 1 && After(s, after).codes == After(s, after[..at]).codes - {p.code})
    ensures r.AccessToken? <==> after != before && after[at].Redeem?
  {
    hide After, Step, LegalTrace, Legal;
    if after != before {
      Theorems.LegalPrefix(s, after, at);
      assert after[..at + 1] == after;
      Invariants.CodeCallEffect(s, After(s, after[..at]), after[at]);
    }
  }

  // ----- What the token endpoint answers -----

  predicate IsComplete(p: TokenParams) {
    p.grantType == "authorization_code" && p.code != "" && p.codeVerifier != "" && p.clientID != ""
  }

  /** The client is known, and a Kite client or in possession of its secret. */
  predicate Authenticates(c: Clients.ClientMap, id: string, secret: string) {
    id in c && (c[id].isKiteAPIKey || c[id].clientSecret == secret)
  }

  /** The code was issued to this client, and the verifier hashes to the challenge it was asked for with: raw
    * base64url of the SHA-256 digest (RFC 7636 section 4.6). */
  predicate Fits(s: Setup, p: TokenParams, entry: AuthCodes.AuthCodeEntry) {
    entry.clientID == p.clientID && entry.codeChallenge == Base64Url.Encode(s.sha256(p.codeVerifier), false)
  }

  /** The reply is an access token for this person and client, minted at this time. */
  ghost predicate Grants(s: Setup, w: World, p: TokenParams, r: Reply, email: string, at: int) {
    && r.AccessToken? && r.token.Jwt? && r.token.alg == Jwts.HS256 && r.token.key == w.keys.secret
    && Jwts.IsClaimed(r.token.claims, email, p.clientID, at, s.tokenExpiry)
    && r.expiresIn == s.tokenExpiry / 1_000_000_000
  }

  /** Whom the code stands for, with the secret the client sends, or else the stored one, where Kite has to be asked. */
  predicate StandsFor(entry: AuthCodes.AuthCodeEntry, p: TokenParams, kite: Kite, email: string) {
    || (entry.email != "" && email == entry.email)
    || (entry.email == "" && entry.requestToken != "" && email != ""
        && ((p.clientSecret != "" && kite.exchangeWith(entry.requestToken, p.clientID, p.clientSecret) == Some(email))
            || (p.clientSecret == "" && kite.secretOf(p.clientID).Some?
                && kite.exchangeWith(entry.requestToken, p.clientID, kite.secretOf(p.clientID).value) == Some(email))))
  }

  lemma UnauthenticatedRequestsAreRefused(s: Setup, before: Trace, after: Trace, p: TokenParams, kite: Kite, r: Reply,
                                          at: nat)
    requires TokenRan(s, before, after, p, kite, r, at)
    ensures p.grantType != "authorization_code" ==> r == UnsupportedGrantType
    ensures p.grantType == "authorization_code" && !IsComplete(p) ==> r == InvalidRequest
    ensures IsComplete(p) ==>
              (r == InvalidClient <==> !Authenticates(After(s, before).clients, p.clientID, p.clientSecret))
    ensures !IsComplete(p) || r == InvalidClient ==> after == before
    ensures IsComplete(p) && r != InvalidClient ==>
              at < |after| && (after[at].Burn? || after[at].Redeem?) && after[at].code == p.code
  {
    hide After, Step, LegalTrace, Legal, Setup.S256;
  }

  /** Everything the token endpoint answers to a request that presents a code.  A code that is gone, expired, somebody
    * else's or asked for with another challenge is no grant.  A code that names a person yields a token for that
    * person. For any other code Kite is asked, with the secret the client sends, or if it sends none with the stored
    * one. */
  lemma PresentedCodesAreAnswered(s: Setup, before: Trace, after: Trace, p: TokenParams, kite: Kite, r: Reply, at: nat)
    requires TokenRan(s, before, after, p, kite, r, at) && IsComplete(p) && r != InvalidClient
    requires at < |after| && (after[at].Burn? || after[at].Redeem?)
    ensures var codes, now := After(s, after[..at]).codes, after[at].at;
            if p.code !in codes || now > codes[p.code].expiresAt || !Fits(s, p, codes[p.code]) then r == InvalidGrant
            else
              var entry := codes[p.code];
              && (entry.email != "" ==>
                    after[at].Redeem? && Grants(s, After(s, after), p, r, entry.email, after[at].mintedAt))
              && (entry.email == "" && entry.requestToken == "" ==> r == NoIdentity)
              && (entry.email == "" && entry.requestToken != "" ==>
                    var asked := if p.clientSecret != "" then Some(p.clientSecret) else kite.secretOf(p.clientID);
                    if asked.None? then r == SecretRequired
                    else
                      match kite.exchangeWith(entry.requestToken, p.clientID, asked.value)
                      case None => r == InvalidGrant
                      case Some(email) =>
                        if email == "" then r == NoIdentity
                        else after[at].Redeem? && Grants(s, After(s, after), p, r, email, after[at].mintedAt))
  {
    hide After, Step, LegalTrace, Legal;
  }

  /** The request is complete, its client may present codes, and the code it presents is pending, fits, and stands for
    * this person. */
  ghost predicate IsRightful(s: Setup, w: World, p: TokenParams, kite: Kite, email: string) {
    && IsComplete(p) && Authenticates(w.clients, p.clientID, p.clientSecret)
    && p.code in w.codes && Fits(s, p, w.codes[p.code]) && StandsFor(w.codes[p.code], p, kite, email)
  }

  lemma PendingCodeIsFound(s: Setup, before: Trace, after: Trace, code: Bytes, at: nat, until: int)
    requires LegalTrace(s, after) && Grew(s, before, after) && |before| <= at < |after|
    requires after[at].Burn? || after[at].Redeem?
    requires code in After(s, before).codes && until <= After(s, before).codes[code].expiresAt
    requires after[at].at <= until
    requires forall i | |before| <= i < at :: !Theorems.Presents(after[i], code)
    ensures code in After(s, after[..at]).codes && After(s, after[..at]).codes[code] == After(s, before).codes[code]
  {
    hide After, Step, LegalTrace, Legal;
    var t := after[..at];
    assert t[..|before|] == before;
    Theorems.LegalPrefix(s, after, at);
    PresentationIsNow(s, After(s, t), after[at]);
    Theorems.PendingCodeSurvives(s, t, |before|, code, until);
  }

  lemma PresentationIsNow(s: Setup, w: World, e: Event)
    requires Legal(s, w, e) && (e.Burn? || e.Redeem?)
    ensures w.now <= e.at
  {
  }

  /** The rightful owner of a code gets a token for whom it stands, whatever other requests do meanwhile, unless one of
    * them presents that code first. */
  lemma RightfulTokenRequestSucceeds(s: Setup, before: Trace, after: Trace, p: TokenParams, kite: Kite, r: Reply,
                                     at: nat, email: string)
    requires LegalTrace(s, after) && Grew(s, before, after) && TokenRan(s, before, after, p, kite, r, at)
    requires IsRightful(s, After(s, before), p, kite, email)
    requires forall i | |before| < i < at :: !Theorems.Presents(after[i], p.code)
    requires at < |after| && (after[at].Burn? || after[at].Redeem?) ==>
               after[at].at <= After(s, before).codes[p.code].expiresAt
    ensures at < |after| && after[at].Redeem? && Grants(s, After(s, after), p, r, email, after[at].mintedAt)
  {
    hide After, Step, LegalTrace, Legal;
    UnauthenticatedRequestsAreRefused(s, before, after, p, kite, r, at);
    PendingCodeIsFound(s, before, after, p.code, at, After(s, before).codes[p.code].expiresAt);
    PresentedCodesAreAnswered(s, before, after, p, kite, r, at);
  }

  /** The challenge a verifier is compared under is its digest in raw base64url: nothing but letters, digits, "-" and
    * "_", and 43 of them for a digest of 32 bytes. */
  lemma ChallengesAreRawDigests(s: Setup, verifier: string)
    ensures Base64Url.Decode(s.S256(verifier), false) == Some(s.sha256(verifier))
    ensures '=' !in s.S256(verifier)
    ensures |s.sha256(verifier)| == 32 ==> |s.S256(verifier)| == 43
  {
    Base64Url.DecodeInvertsEncode(s.sha256(verifier), false);
    Base64Url.EncodingLength(s.sha256(verifier), false);
  }

  /** Until it expires RequireAuth's own checks let a fresh access token pass, unless the client is called
    * "dashboard". */
  lemma FreshTokenIsAccepted(s: Setup, before: Trace, after: Trace, p: TokenParams, kite: Kite, r: Reply, at: nat,
                             now: int)
    requires TokenRan(s, before, after, p, kite, r, at) && r.AccessToken?
    requires after != before && now < Jwts.NumericDate(after[at].mintedAt + s.tokenExpiry)
    ensures Theorems.BearerAccepted(After(s, after).keys, r.token, now) <==> p.clientID != DASHBOARD
  {
    hide After, Step, LegalTrace, Legal;
    assert r.token.claims.audience == [p.clientID];
    assert [p.clientID] == [DASHBOARD] <==> p.clientID == DASHBOARD;
  }

  /** What a bearer token that RequireAuth lets through stands for, if it is genuine and no client is called
    * "dashboard": its subject passed the second factor in the last fifteen minutes, or logged in within the bound, or
    * other code than the handlers asked for it in the last fifteen minutes. */
  lemma WhoeverPassesProvedItRecently(s: Setup, t: Trace, bearer: Jwts.Token, arrived: int, now: int, delay: nat)
    requires LegalTrace(s, t) && DASHBOARD !in After(s, t).ids && Theorems.Prompt(After(s, t), delay)
    requires IsGenuine(After(s, t), bearer, arrived) && Theorems.BearerAccepted(After(s, t).keys, bearer, now)
    ensures var w := After(s, t);
            || (exists p :: p in w.passes && p.email == Jwts.Subject(bearer)
                            && now < p.at + ADMIN_MFA_TOKEN_EXPIRY + delay)
            || (exists l :: l in w.logins && l.email == Jwts.Subject(bearer)
                            && now < l.at + Theorems.FreshnessBound(s, delay))
            || (exists m :: m in w.minted && m.token == bearer && m.cause.Elevation? && m.cause.basis.None?
                            && now < m.at + ADMIN_MFA_TOKEN_EXPIRY)
  {
    hide After, LegalTrace;
    var m :| m in After(s, t).minted && m.token == bearer && m.at <= arrived;
    Theorems.BearersAreGrantsAndElevations(s, t, m, After(s, t).keys, now);
    if m.cause.Grant? {
      var login := Theorems.AcceptedBearerImpliesRecentLogin(s, t, m, After(s, t).keys, now, delay);
    } else {
      ElevationFacts(s, t, m);
      assert m.cause.basis.Some? ==> m.cause.basis.value in After(s, t).passes;
    }
  }

  lemma ElevationFacts(s: Setup, t: Trace, m: Minted)
    requires LegalTrace(s, t) && m in After(s, t).minted && m.cause.Elevation?
    ensures m.cause.email == Jwts.Subject(m.token)
    ensures m.cause.basis.Some? ==>
              m.cause.basis.value in After(s, t).passes && m.cause.basis.value.email == Jwts.Subject(m.token)
  {
    Invariants.InvAlways(s, t);
    assert Invariants.MintedOk(s, After(s, t), m);
  }

  /** The location the handlers reply with is what the client reads in the URL they print for it. */
  lemma PrintedLocationReadsBack(s: Setup, uri: Bytes, code: Bytes, state: Bytes, keys: seq<Bytes>)
    requires s.parse(uri) == RedirectUrl.Read(uri) && s.parse(uri).Some?
    requires RedirectQuery.IsOrderOf(keys, LocationFor(s.parse(uri).value, code, state).params)
    ensures var u := s.parse(uri).value;
            var r := RedirectUrl.Read(RedirectUrl.Redirect(u, code, state, keys));
            && (r.Some? <==> RedirectUrl.HasReadableZone(u.host))
            && (r.Some? ==>
                  var v := r.value;
                  LocationFor(u, code, state)
                  == Location(v.scheme, v.host, v.path, RedirectQuery.ParseQuery(v.rawQuery)))
  {
    hide RedirectUrl.Read, RedirectUrl.HasReadableZone;
    RedirectUrl.RedirectReadsBack(uri, code, state, keys);
  }
}
