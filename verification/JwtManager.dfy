/** Minting and checking JSON Web Tokens under two keys (jwt.go).
  *
  * HS256 is an oracle here: a token records the key it was signed with, and its signature checks out under
  * exactly that key.  The empty string stands for a nil previous secret.
  */
module Jwts {
  import opened Common

  const ISSUER := "kite-mcp-server"

  datatype Alg = HS256 | OtherAlg

  datatype Claims = Claims(subject: string, audience: seq<string>, expiresAt: int, issuedAt: int, issuer: string)

  datatype Token = Garbage | Jwt(alg: Alg, key: string, claims: Claims)

  datatype TokenError = Malformed | BadMethod | BadSignature | Expired | BadAudience

  datatype Verdict = Valid(claims: Claims) | Invalid(error: TokenError)

  datatype Keys = Keys(secret: string, previous: string)

  /** A NumericDate holds whole seconds; the rest of the moment is cut off. */
  function NumericDate(t: int): (d: int)
    ensures d <= t < d + SECOND && d % SECOND == 0
  {
    t - t % SECOND
  }

  function Mint(key: string, email: string, clientID: string, lifetime: int, now: int): Token {
    Jwt(HS256, key, Claims(email, [clientID], NumericDate(now + lifetime), NumericDate(now), ISSUER))
  }

  /** Verification under one key: form, method, signature, expiry, then the audience if one is asked for. */
  function ParseWithKey(token: Token, key: string, audience: Option<string>, now: int): Verdict {
    match token
    case Garbage => Invalid(Malformed)
    case Jwt(alg, signedWith, claims) =>
      if alg != HS256 then Invalid(BadMethod)
      else if signedWith != key then Invalid(BadSignature)
      else if now >= claims.expiresAt then Invalid(Expired)
      else if audience.Some? && audience.value !in claims.audience then Invalid(BadAudience)
      else Valid(claims)
  }

  /** The signature checks out under the current key, or under a previous one if there is one. */
  predicate SignedUnder(keys: Keys, token: Token) {
    && token.Jwt? && token.alg == HS256
    && (token.key == keys.secret || (keys.previous != "" && token.key == keys.previous))
  }

  /** The token would pass under the key it was signed with. */
  predicate IsGood(token: Token, audiences: seq<string>, now: int) {
    token.Jwt? && Accepts(Keys(token.key, ""), token, audiences, now)
  }

  /** What a caller can rely on: the token is one of ours, not expired, and meant for the first audience asked for. */
  predicate Accepts(keys: Keys, token: Token, audiences: seq<string>, now: int) {
    && SignedUnder(keys, token)
    && now < token.claims.expiresAt
    && (audiences != [] ==> audiences[0] in token.claims.audience)
  }

  /** The token is good for one audience only, and until the given time. */
  ghost predicate Serves(keys: Keys, token: Token, audience: string, until: int) {
    && (forall a, t :: Accepts(keys, token, [a], t) <==> a == audience && t < until)
    && (forall t :: Accepts(keys, token, [], t) <==> t < until)
  }

  /** The claims say who may use the token where, and from when until when, in whole seconds. */
  predicate IsClaimed(c: Claims, email: string, clientID: string, now: int, lifetime: int) {
    && c.subject == email && c.audience == [clientID] && c.issuer == "kite-mcp-server"
    && c.issuedAt == now - now % 1_000_000_000 && c.expiresAt == now + lifetime - (now + lifetime) % 1_000_000_000
  }

  function Subject(token: Token): string {
    if token.Jwt? then token.claims.subject else ""
  }

  class JWTManager {
    const secret: string
    var previousSecret: string
    const tokenExpiry: int

    constructor (secret: string, expiry: int)
      ensures this.secret == secret && previousSecret == "" && tokenExpiry == expiry
    {
      this.secret := secret;
      tokenExpiry := expiry;
      previousSecret := "";
    }

    function CurrentKeys(): Keys
      reads this
    {
      Keys(secret, previousSecret)
    }

    method SetPreviousSecret(previous: string)
      modifies this
      ensures previousSecret == previous
      ensures forall token, audiences, t :: Accepts(CurrentKeys(), token, audiences, t) <==>
                || Accepts(Keys(secret, ""), token, audiences, t)
                || (previous != "" && Accepts(Keys(previous, ""), token, audiences, t))
    {
      previousSecret := previous;
    }

    method GenerateToken(email: string, clientID: string, now: int) returns (token: Token)
      ensures token == Mint(secret, email, clientID, tokenExpiry, now)
      ensures Subject(token) == email && Serves(CurrentKeys(), token, clientID, NumericDate(now + tokenExpiry))
      ensures token.Jwt? && token.key == secret && IsClaimed(token.claims, email, clientID, now, tokenExpiry)
    {
      token := GenerateTokenWithExpiry(email, clientID, tokenExpiry, now);
    }

    method GenerateTokenWithExpiry(email: string, clientID: string, expiry: int, now: int) returns (token: Token)
      ensures token == Mint(secret, email, clientID, expiry, now)
      ensures Subject(token) == email && Serves(CurrentKeys(), token, clientID, NumericDate(now + expiry))
      ensures token.Jwt? && token.key == secret && IsClaimed(token.claims, email, clientID, now, expiry)
    {
      token := Jwt(HS256, secret, Claims(email, [clientID], NumericDate(now + expiry), NumericDate(now), ISSUER));
    }

    /** The loop over further audiences runs only once the first one has matched, so it never changes the verdict:
      * its rejecting branch is dead.  A rejection reports what went wrong under the primary key. */
    method ValidateToken(token: Token, audiences: seq<string>, now: int) returns (r: Verdict)
      ensures r.Valid? <==> Accepts(CurrentKeys(), token, audiences, now)
      ensures r.Valid? <==>
                && token.Jwt? && token.alg == HS256
                && (token.key == secret || (previousSecret != "" && token.key == previousSecret))
                && now < token.claims.expiresAt
                && (audiences != [] ==> audiences[0] in token.claims.audience)
      ensures r.Valid? ==> r.claims == token.claims
      ensures r.Invalid? ==>
                r.error == if token.Garbage? then Malformed
                           else if token.alg != HS256 then BadMethod
                           else if token.key != secret then BadSignature
                           else if now >= token.claims.expiresAt then Expired
                           else BadAudience
    {
      var audience := None;
      if |audiences| > 0 {
        audience := Some(audiences[0]);
      }
      r := ParseWithKey(token, secret, audience, now);
      if r.Invalid? && previousSecret != "" {
        var second := ParseWithKey(token, previousSecret, audience, now);
        if second.Valid? {
          r := second;
        }
      }
      if r.Invalid? {
        return;
      }
      if |audiences| > 1 {
        var matched := false;
        var i := 0;
        while i < |audiences| && !matched
          invariant 0 <= i <= |audiences|
          invariant i > 0 ==> matched
        {
          var j := 0;
          while j < |r.claims.audience| && !matched
            invariant 0 <= j <= |r.claims.audience|
            invariant !matched ==> audiences[i] !in r.claims.audience[..j]
            decreases |r.claims.audience| - j, !matched
          {
            if r.claims.audience[j] == audiences[i] {
              matched := true;
            } else {
              j := j + 1;
            }
          }
          i := i + 1;
        }
        if !matched {
          assert false;
        }
      }
    }
  }

  // ----- Rotation -----

  /** What an operator does over time.  Rotate is a restart with a new secret and the old one as the previous one;
    * Clear empties the previous slot. */
  datatype KeyEvent =
    | Issue(email: string, clientID: string, lifetime: int, at: int)
    | Rotate(newSecret: string, at: int)
    | Clear(at: int)

  datatype KeyState = KeyState(keys: Keys, issued: set<Token>)

  function Act(s: KeyState, e: KeyEvent): KeyState {
    match e
    case Issue(email, clientID, lifetime, at) =>
      s.(issued := s.issued + {Mint(s.keys.secret, email, clientID, lifetime, at)})
    case Rotate(newSecret, _) => s.(keys := Keys(newSecret, s.keys.secret))
    case Clear(_) => s.(keys := s.keys.(previous := ""))
  }

  function RunKeys(secret: string, run: seq<KeyEvent>): KeyState {
    if run == [] then KeyState(Keys(secret, ""), {})
    else Act(RunKeys(secret, run[..|run| - 1]), run[|run| - 1])
  }

  /** No token lives longer than `longest`; after a rotation the keys are left alone for at least that long. */
  ghost predicate Graceful(secret: string, run: seq<KeyEvent>, longest: int) {
    && secret != ""
    && (forall i, j | 0 <= i < j < |run| :: run[i].at <= run[j].at)
    && (forall i | 0 <= i < |run| && run[i].Issue? :: run[i].lifetime <= longest)
    && (forall i | 0 <= i < |run| && run[i].Rotate? :: run[i].newSecret != "")
    && (forall i, j | 0 <= i < j < |run| && run[i].Rotate? && !run[j].Issue? :: run[i].at + longest <= run[j].at)
  }

  /** When the last rotation took place, if there was one. */
  function LastRotation(run: seq<KeyEvent>): Option<int> {
    if run == [] then None
    else if run[|run| - 1].Rotate? then Some(run[|run| - 1].at)
    else LastRotation(run[..|run| - 1])
  }

  ghost predicate NotBefore(run: seq<KeyEvent>, t: int) {
    run != [] ==> run[|run| - 1].at <= t
  }

  /** The tokens a key state may have to answer for at time t: signed with the current key, or with the previous one,
    * or already expired; the older ones all expire within `longest` of the last rotation. */
  ghost predicate Covered(s: KeyState, rotated: Option<int>, longest: int, t: int) {
    && s.keys.secret != ""
    && forall k | k in s.issued ::
         && k.Jwt? && k.alg == HS256 && k.claims.expiresAt <= t + longest
         && (k.key == s.keys.secret
             || (rotated.Some? && k.claims.expiresAt <= rotated.value + longest
                 && (SignedUnder(s.keys, k) || k.claims.expiresAt <= t)))
  }

  lemma ActKeepsCovered(s: KeyState, rotated: Option<int>, longest: int, t: int, e: KeyEvent)
    requires Covered(s, rotated, longest, t) && t <= e.at
    requires e.Issue? ==> e.lifetime <= longest
    requires e.Rotate? ==> e.newSecret != ""
    requires !e.Issue? && rotated.Some? ==> rotated.value + longest <= e.at
    ensures Covered(Act(s, e), if e.Rotate? then Some(e.at) else rotated, longest, e.at)
  {
  }

  lemma {:induction false} RotationIsSpaced(run: seq<KeyEvent>, longest: int, e: KeyEvent)
    requires forall i | 0 <= i < |run| && run[i].Rotate? :: run[i].at + longest <= e.at
    ensures LastRotation(run).Some? ==> LastRotation(run).value + longest <= e.at
  {
    if run != [] {
      RotationIsSpaced(run[..|run| - 1], longest, e);
    }
  }

  lemma {:induction false} RunsStayCovered(secret: string, run: seq<KeyEvent>, longest: int)
    requires Graceful(secret, run, longest)
    ensures run != [] ==> Covered(RunKeys(secret, run), LastRotation(run), longest, run[|run| - 1].at)
    decreases |run|
  {
    if run != [] {
      var n := |run| - 1;
      var p, e := run[..n], run[n];
      RunsStayCovered(secret, p, longest);
      if !e.Issue? {
        RotationIsSpaced(p, longest, e);
      }
      ActKeepsCovered(RunKeys(secret, p), LastRotation(p), longest, if n > 0 then run[n - 1].at else e.at, e);
    }
  }

  /** Graceful rotation: with key changes spaced like this, a server that was started with `secret` never rejects an
    * unexpired token it issued, whichever rotations came in between. */
  lemma GracefulRotationRejectsNothing(secret: string, run: seq<KeyEvent>, longest: int, token: Token, t: int)
    requires Graceful(secret, run, longest) && NotBefore(run, t)
    requires token in RunKeys(secret, run).issued && token.Jwt? && t < token.claims.expiresAt
    ensures Accepts(RunKeys(secret, run).keys, token, [], t)
    ensures forall aud | aud in token.claims.audience :: Accepts(RunKeys(secret, run).keys, token, [aud], t)
  {
    RunsStayCovered(secret, run, longest);
  }

  /** The spacing cannot be shortened: after two rotations less than a token's lifetime apart (to the second), a token
    * issued just before the first is turned away although it has not expired. */
  lemma HastyRotationRejects(k0: string, k1: string, k2: string, email: string, clientID: string, lifetime: int,
                             gap: int, at: int)
    requires k0 != k1 && k1 != k2 && k0 != k2
    requires 0 <= gap && gap + SECOND <= lifetime
    ensures var run := [Issue(email, clientID, lifetime, at), Rotate(k1, at), Rotate(k2, at + gap)];
            var token := Mint(k0, email, clientID, lifetime, at);
            && token in RunKeys(k0, run).issued
            && at + gap < token.claims.expiresAt
            && !Accepts(RunKeys(k0, run).keys, token, [], at + gap)
  {
    var e0, e1, e2 := Issue(email, clientID, lifetime, at), Rotate(k1, at), Rotate(k2, at + gap);
    assert [e0, e1, e2][..2] == [e0, e1] && [e0, e1][..1] == [e0] && [e0][..0] == [];
    assert RunKeys(k0, [e0]) == Act(RunKeys(k0, []), e0);
    assert RunKeys(k0, [e0, e1]) == Act(RunKeys(k0, [e0]), e1);
    assert RunKeys(k0, [e0, e1, e2]) == Act(RunKeys(k0, [e0, e1]), e2);
  }
}
