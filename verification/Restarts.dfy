/** What a restart of the server brings back, and what it invalidates. */
module Restarts {
  import opened Common
  import opened Protocol
  import opened Invariants
  import Theorems
  import Clients
  import Jwts
  import Persistence

  // ----- Clients across restarts -----

  /** Every write is accepted, and the writes for one client land in the order of the mutations they belong to. */
  ghost predicate WritesLandInOrder(s: Setup, t: Trace) {
    t == [] ||
    (var p, e := t[..|t| - 1], t[|t| - 1];
     WritesLandInOrder(s, p) && (e.Write? ==> Persistence.LandsInOrder(After(s, p).db, e.n, e.accepted)))
  }

  lemma {:induction false} OrderedWritesSettle(s: Setup, t: Trace)
    requires LegalTrace(s, t) && WritesLandInOrder(s, t)
    ensures Persistence.Settles(After(s, t).db, After(s, t).clients)
  {
    hide Step, Legal, Persistence.Settles, Inv;
    if t == [] {
      NothingToSettle(s);
    } else {
      var p, e := t[..|t| - 1], t[|t| - 1];
      var w := After(s, p);
      OrderedWritesSettle(s, p);
      DatabaseIsSound(s, p);
      if e.Restart? {
        RestartEffect(s, w, e);
        Persistence.ReloadKeepsSound(w.db, w.clients, e.loaded);
      } else {
        ClientCallEffect(s, w, e);
        if e.ClientCall? {
          Persistence.CallKeepsSettling(w.db, w.clients, e.op);
        } else if e.Write? {
          WritesUnderWayLand(s, w, e);
          Persistence.LandingKeepsSettling(w.db, w.clients, e.n, e.accepted);
        }
      }
    }
  }

  lemma NothingToSettle(s: Setup)
    ensures Persistence.Settles(Start(s).db, Start(s).clients)
  {
  }

  lemma DatabaseIsSound(s: Setup, t: Trace)
    requires LegalTrace(s, t)
    ensures Persistence.Sound(After(s, t).db, After(s, t).clients)
  {
    InvAlways(s, t);
  }

  /** In every run a restart that can read the database leaves a live client as it is if and only if the client's row is
    * that of its latest mutation. */
  lemma RestartKeepsClientsWithTheirRow(s: Setup, t: Trace, e: Event, id: string)
    requires LegalTrace(s, t) && e.Restart? && e.loaded && Legal(s, After(s, t), e) && id in After(s, t).clients
    ensures var w := After(s, t);
            && LegalTrace(s, t + [e]) && After(s, t + [e]).codes == map[]
            && (Clients.Lookup(After(s, t + [e]).clients, id) == Some(w.clients[id])
                <==> id in w.db.rows && w.db.rows[id] == Clients.RowOf(id, w.clients[id]))
  {
    hide After, LegalTrace, Step, Legal, Persistence.Sound;
    TraceGrows(s, t, e);
    RestartEffect(s, After(s, t), e);
    DatabaseIsSound(s, t);
    Persistence.RestartKeepsClientWithItsRow(After(s, t).db, After(s, t).clients, id);
  }

  /** If every write was accepted and those for one client landed in the order of its mutations, a restart changes no
    * live client for which nothing is under way, whatever the history of evictions and earlier restarts. */
  lemma RestartKeepsLiveClients(s: Setup, t: Trace, e: Event, id: string)
    requires LegalTrace(s, t) && WritesLandInOrder(s, t)
    requires e.Restart? && e.loaded && Legal(s, After(s, t), e)
    requires id in After(s, t).clients && !Persistence.IsUnderWay(After(s, t).db, id)
    ensures LegalTrace(s, t + [e])
    ensures id in After(s, t + [e]).clients && After(s, t + [e]).clients[id] == After(s, t).clients[id]
  {
    hide After, LegalTrace, Step, Legal, Persistence.Sound, Persistence.Settles;
    OrderedWritesSettle(s, t);
    DatabaseIsSound(s, t);
    Persistence.SettledClientsHaveTheirRow(After(s, t).db, After(s, t).clients, id);
    RestartKeepsClientsWithTheirRow(s, t, e, id);
  }

  /** The order is needed: two requests widen the list of a Kite client, their writes land the other way round, both
    * accepted, and a restart takes a validated redirect URI away again. */
  datatype Widening = Widening(s: Setup, id: string, first: string, second: string, third: string) {
    ghost predicate Possible() {
      id != "" && first != second && second != third && first != third
    }

    function Joining(): Clients.ClientOp { Clients.RegisterKite(id, [first], 0, None) }

    function Client(uris: seq<string>): Clients.ClientEntry { Clients.NewEntry(Joining()).(redirectURIs := uris) }

    function Row(uris: seq<string>): Clients.ClientLoadEntry { Clients.RowOf(id, Client(uris)) }

    function Rows(): seq<Clients.ClientLoadEntry> { [Row([first]), Row([first, second]), Row([first, second, third])] }

    function Calls(): Trace {
      [ClientCall(Joining()), ClientCall(Clients.AddURI(id, second)), ClientCall(Clients.AddURI(id, third))]
    }

    function Landings(): Trace { [Write(0, true), Write(2, true), Write(1, true)] }
  }

  /** After the first n of its calls. */
  function PartlyWidened(y: Widening, n: nat): World
    requires n <= 3
  {
    var uris := [y.first, y.second, y.third][..n];
    if n == 0 then Start(y.s)
    else
      var flight := if n == 1 then {0} else if n == 2 then {0, 1} else {0, 1, 2};
      Start(y.s).(clients := map[y.id := y.Client(uris)], ids := {y.id}, kite := {y.id},
                  db := Persistence.Database(map[], y.Rows()[..n], flight, map[], map[y.id := n - 1]))
  }

  lemma JoiningCall(y: Widening)
    requires y.Possible()
    ensures Legal(y.s, Start(y.s), ClientCall(y.Joining()))
    ensures Step(y.s, Start(y.s), ClientCall(y.Joining())) == PartlyWidened(y, 1)
  {
    assert y.Rows()[..1] == [] + [y.Row([y.first])] && [y.first, y.second, y.third][..1] == [y.first];
  }

  lemma RowsGrow(y: Widening, n: nat)
    requires 1 <= n < 3
    ensures var uris := [y.first, y.second, y.third];
            y.Rows()[..n + 1] == y.Rows()[..n] + [y.Row(uris[..n + 1])]
  {
    var uris := [y.first, y.second, y.third];
    assert uris[..2] == [y.first, y.second] && uris[..3] == uris;
    assert y.Rows()[n] == y.Row(uris[..n + 1]);
  }

  lemma AddingCall(y: Widening, n: nat, uri: string)
    requires y.Possible() && 1 <= n < 3 && uri == [y.first, y.second, y.third][n]
    ensures Legal(y.s, PartlyWidened(y, n), ClientCall(Clients.AddURI(y.id, uri)))
    ensures Step(y.s, PartlyWidened(y, n), ClientCall(Clients.AddURI(y.id, uri))) == PartlyWidened(y, n + 1)
  {
    var uris := [y.first, y.second, y.third];
    assert uris[..n + 1] == uris[..n] + [uri];
    RowsGrow(y, n);
    assert uri !in uris[..n];
  }

  lemma WideningCalls(y: Widening)
    requires y.Possible()
    ensures LegalTrace(y.s, y.Calls()) && After(y.s, y.Calls()) == PartlyWidened(y, 3)
  {
    hide After, LegalTrace, Legal, Step, PartlyWidened;
    Theorems.StartIsLegal(y.s);
    JoiningCall(y);
    TraceGrows(y.s, [], y.Calls()[0]);
    AddingCall(y, 1, y.second);
    AddingCall(y, 2, y.third);
    var t: Trace := [y.Calls()[0]];
    assert [] + [y.Calls()[0]] == t;
    Theorems.TwoSteps(y.s, t, y.Calls()[1], y.Calls()[2]);
    assert y.Calls() == t + [y.Calls()[1], y.Calls()[2]];
  }

  /** All calls are made, these writes are under way, and write n was the last to land. */
  function Landed(y: Widening, n: nat, flight: set<nat>): World
    requires n < 3
  {
    var w := PartlyWidened(y, 3);
    w.(db := w.db.(rows := map[y.id := y.Rows()[n]], landed := map[y.id := n], inFlight := flight))
  }

  lemma FirstLanding(y: Widening)
    ensures var w := PartlyWidened(y, 3);
            Legal(y.s, w, Write(0, true)) && Step(y.s, w, Write(0, true)) == Landed(y, 0, {1, 2})
  {
    assert y.Rows()[..3] == y.Rows();
    assert {0, 1, 2} - {0} == {1, 2};
  }

  lemma NextLanding(y: Widening, n: nat, flight: set<nat>, m: nat)
    requires n < 3 && m < 3 && m in flight
    ensures var w := Landed(y, n, flight);
            Legal(y.s, w, Write(m, true)) && Step(y.s, w, Write(m, true)) == Landed(y, m, flight - {m})
  {
    assert y.Rows()[..3] == y.Rows();
  }

  lemma WideningLandings(y: Widening)
    requires y.Possible()
    ensures LegalTrace(y.s, y.Calls() + y.Landings()) && After(y.s, y.Calls() + y.Landings()) == Landed(y, 1, {})
  {
    hide After, LegalTrace, Legal, Step, Landed, PartlyWidened;
    WideningCalls(y);
    FirstLanding(y);
    NextLanding(y, 0, {1, 2}, 2);
    NextLanding(y, 2, {1}, 1);
    assert {1, 2} - {2} == {1} && {1} - {1} == {};
    var t := y.Calls() + [y.Landings()[0]];
    TraceGrows(y.s, y.Calls(), y.Landings()[0]);
    Theorems.TwoSteps(y.s, t, y.Landings()[1], y.Landings()[2]);
    assert y.Calls() + y.Landings() == t + [y.Landings()[1], y.Landings()[2]];
  }

  lemma ReorderedWritesLoseAURI(y: Widening) returns (t: Trace, e: Event)
    requires y.Possible()
    ensures LegalTrace(y.s, t) && e.Restart? && e.loaded && LegalTrace(y.s, t + [e])
    ensures forall i | 0 <= i < |t| && t[i].Write? :: t[i].accepted
    ensures After(y.s, t).db.inFlight == {}
    ensures Clients.IsRegisteredURI(After(y.s, t).clients, y.id, y.third)
    ensures y.id in After(y.s, t + [e]).clients && After(y.s, t + [e]).clients[y.id].redirectURIs == [y.first, y.second]
  {
    hide After, LegalTrace, Step, Legal;
    WideningLandings(y);
    t := y.Calls() + y.Landings();
    e := Restart(y.s.secret, y.s.previousSecret, true, 0);
    RestartAtStart(y.s, Landed(y, 1, {}), e);
    TraceGrows(y.s, t, e);
    RestartEffect(y.s, Landed(y, 1, {}), e);
    assert [y.first, y.second, y.third][..3] == [y.first, y.second, y.third];
  }

  lemma RestartAtStart(s: Setup, w: World, e: Event)
    requires e.Restart? && w.now <= e.at && w.minted == {}
    ensures Legal(s, w, e)
  {
  }

  // ----- Clients registered on sight -----

  /** A dynamically registered client that left memory comes back as another one: a client registers, a restart cannot
    * read the database, and a request with another redirect URI names the client's id. */
  lemma LostClientIsRegisteredOnSight(s: Setup, op: Clients.ClientOp, uri: string) returns (t: Trace)
    requires op.Register? && op.id != "" && 1 <= |op.uris| <= MAX_REGISTERED_URIS && op.at == 0 && op.victim == None
    ensures LegalTrace(s, t)
    ensures var w := After(s, t);
            && op.id in w.registered && w.registered[op.id] == Clients.NewEntry(op)
            && op.id in w.clients && w.clients[op.id].clientSecret == "" && w.clients[op.id].redirectURIs == [uri]
  {
    hide After, LegalTrace, Legal, Step;
    var e, f := ClientCall(op), Restart(s.secret, s.previousSecret, false, 0);
    var g := ClientCall(Clients.RegisterKite(op.id, [uri], 0, None));
    Theorems.StartIsLegal(s);
    ClientRegisters(s, op);
    TraceGrows(s, [], e);
    var w := Step(s, Start(s), e);
    ClientIsLost(s, w, f);
    IdIsRegisteredOnSight(s, Step(s, w, f), op.id, uri);
    t := [] + [e];
    Theorems.TwoSteps(s, t, f, g);
    t := t + [f, g];
  }

  lemma ClientRegisters(s: Setup, op: Clients.ClientOp)
    requires op.Register? && op.id != "" && 1 <= |op.uris| <= MAX_REGISTERED_URIS && op.at == 0 && op.victim == None
    ensures Legal(s, Start(s), ClientCall(op))
    ensures var w := Step(s, Start(s), ClientCall(op));
            && w.registered == map[op.id := Clients.NewEntry(op)] && w.now == 0 && w.minted == {}
  {
  }

  lemma ClientIsLost(s: Setup, w: World, f: Event)
    requires f.Restart? && !f.loaded && f.at == w.now == 0 && w.minted == {}
    ensures Legal(s, w, f)
    ensures var w' := Step(s, w, f); w'.clients == map[] && w'.registered == w.registered && w'.now == 0
  {
  }

  lemma IdIsRegisteredOnSight(s: Setup, w: World, id: string, uri: string)
    requires id != "" && w.clients == map[] && w.now == 0
    ensures var g := ClientCall(Clients.RegisterKite(id, [uri], 0, None));
            var w' := Step(s, w, g);
            && Legal(s, w, g) && w'.registered == w.registered
            && id in w'.clients && w'.clients[id].clientSecret == "" && w'.clients[id].redirectURIs == [uri]
  {
  }

  // ----- Rotating the keys of the server -----

  /** The restart leaves the keys alone, empties the previous slot, or rotates. */
  predicate HandsOver(keys: Jwts.Keys, e: Event)
    requires e.Restart?
  {
    && e.secret != ""
    && (keys == Jwts.Keys(e.secret, e.previous)
        || (e.secret == keys.secret && e.previous == "")
        || e.previous == keys.secret)
  }

  /** When the server last got a new key. */
  function LastRotation(s: Setup, t: Trace): Option<int> {
    if t == [] then None
    else
      var p, e := t[..|t| - 1], t[|t| - 1];
      if e.Restart? && e.secret != After(s, p).keys.secret then Some(e.at) else LastRotation(s, p)
  }

  /** No token lives longer than `longest`, and for that long after a new key the keys are not changed again. */
  ghost predicate Graceful(s: Setup, t: Trace, longest: int) {
    if t == [] then s.secret != "" && s.tokenExpiry <= longest && DASHBOARD_TOKEN_EXPIRY <= longest
    else
      var p, e := t[..|t| - 1], t[|t| - 1];
      var keys, rotated := After(s, p).keys, LastRotation(s, p);
      && Graceful(s, p, longest)
      && (e.Restart? ==>
            && HandsOver(keys, e)
            && (keys != Jwts.Keys(e.secret, e.previous) && rotated.Some? ==> rotated.value + longest <= e.at))
  }

  /** The token is signed with the current key, or is of before the last rotation and signed with the previous one or
    * expired. */
  ghost predicate IsCovered(w: World, rotated: Option<int>, longest: int, m: Minted) {
    && m.token.Jwt? && m.token.alg == Jwts.HS256 && m.token.claims.expiresAt <= m.at + longest
    && (m.token.key == w.keys.secret
        || (rotated.Some? && m.token.claims.expiresAt <= rotated.value + longest
            && (Jwts.SignedUnder(w.keys, m.token) || m.token.claims.expiresAt <= w.now)))
  }

  lemma NewTokensAreSignedNow(s: Setup, w: World, e: Event, longest: int, m: Minted)
    requires s.tokenExpiry <= longest && DASHBOARD_TOKEN_EXPIRY <= longest
    requires Legal(s, w, e) && m in Step(s, w, e).minted && m !in w.minted
    ensures m.token.Jwt? && m.token.alg == Jwts.HS256 && m.token.key == w.keys.secret
    ensures m.token.claims.expiresAt <= m.at + longest
  {
    if e.IssueFromExchange? {
      hide Step;
      ExchangeStep(s, w, e);
    } else if e.Redeem? {
      hide Step;
      RedeemStep(s, w, e);
    } else if !e.LogIn? && !e.Elevate? {
      hide Step;
      OnlySomeMint(s, w, e);
    }
  }

  lemma RestartKeepsCovered(w: World, w': World, rotated: Option<int>, longest: int, e: Event, m: Minted)
    requires IsCovered(w, rotated, longest, m) && e.Restart? && HandsOver(w.keys, e) && w.keys.secret != ""
    requires w.keys != Jwts.Keys(e.secret, e.previous) && rotated.Some? ==> rotated.value + longest <= e.at
    requires w.now <= e.at && m.at <= e.at && w'.now == e.at && w'.keys == Jwts.Keys(e.secret, e.previous)
    ensures IsCovered(w', if e.secret != w.keys.secret then Some(e.at) else rotated, longest, m)
  {
  }

  lemma GracefulFacts(s: Setup, t: Trace, longest: int)
    requires Graceful(s, t, longest)
    ensures s.secret != "" && s.tokenExpiry <= longest && DASHBOARD_TOKEN_EXPIRY <= longest
    ensures After(s, t).keys.secret != ""
  {
    hide Legal;
    if t != [] {
      var p, e := t[..|t| - 1], t[|t| - 1];
      GracefulFacts(s, p, longest);
      if !e.Restart? {
        OnlyRestartsSetKeys(s, After(s, p), e);
      }
    }
  }

  lemma OnlyRestartsSetKeys(s: Setup, w: World, e: Event)
    requires !e.Restart?
    ensures Step(s, w, e).keys == w.keys
  {
    if e.IssueFromExchange? {
      hide Step;
      ExchangeStep(s, w, e);
    } else if e.Redeem? {
      hide Step;
      RedeemStep(s, w, e);
    }
  }

  lemma CoveredStays(w: World, w': World, rotated: Option<int>, longest: int, m: Minted)
    requires IsCovered(w, rotated, longest, m) && w'.keys == w.keys && w.now <= w'.now
    ensures IsCovered(w', rotated, longest, m)
  {
  }

  lemma {:induction false} TokensStayCovered(s: Setup, t: Trace, longest: int, m: Minted)
    requires LegalTrace(s, t) && Graceful(s, t, longest) && m in After(s, t).minted
    ensures IsCovered(After(s, t), LastRotation(s, t), longest, m)
  {
    hide Step, Legal, IsCovered, Inv;
    var p, e := t[..|t| - 1], t[|t| - 1];
    var w := After(s, p);
    GracefulFacts(s, p, longest);
    if e.Restart? {
      RestartEffect(s, w, e);
      TokensStayCovered(s, p, longest, m);
      RestartKeepsCovered(w, After(s, t), LastRotation(s, p), longest, e, m);
    } else {
      OnlyRestartsSetKeys(s, w, e);
      StepKeepsEvidence(s, w, e);
      if m in w.minted {
        TokensStayCovered(s, p, longest, m);
        CoveredStays(w, After(s, t), LastRotation(s, p), longest, m);
      } else {
        NewTokensAreSignedNow(s, w, e, longest, m);
        CurrentIsCovered(After(s, t), LastRotation(s, p), longest, m);
      }
    }
  }

  lemma CurrentIsCovered(w: World, rotated: Option<int>, longest: int, m: Minted)
    requires m.token.Jwt? && m.token.alg == Jwts.HS256 && m.token.key == w.keys.secret
    requires m.token.claims.expiresAt <= m.at + longest
    ensures IsCovered(w, rotated, longest, m)
  {
  }

  /** Graceful rotation of the server: if restarts hand the keys over like this, no unexpired token it ever issued is
    * rejected, whichever restarts came in between. */
  lemma GracefulRestartsRejectNothing(s: Setup, t: Trace, longest: int, m: Minted, now: int)
    requires LegalTrace(s, t) && Graceful(s, t, longest) && m in After(s, t).minted
    requires After(s, t).now <= now && m.token.Jwt? && now < m.token.claims.expiresAt
    ensures Jwts.Accepts(After(s, t).keys, m.token, [], now)
    ensures forall aud | aud in m.token.claims.audience :: Jwts.Accepts(After(s, t).keys, m.token, [aud], now)
  {
    hide After, LegalTrace, Graceful, LastRotation;
    TokensStayCovered(s, t, longest, m);
  }

  /** Two new keys within the lifetime of a session cookie, to the second, end the session of someone who has just
    * logged in. */
  lemma HastyRestartsEndSessions(s: Setup, email: string, k1: string, k2: string, gap: int)
    requires s.secret != k1 && k1 != k2 && s.secret != k2
    requires 0 <= gap && gap + SECOND <= DASHBOARD_TOKEN_EXPIRY
    ensures var t := [LogIn(Login(email, 0), 0), Restart(k1, s.secret, true, 0), Restart(k2, k1, true, gap)];
            var m := CookieFor(s.secret, Login(email, 0), 0);
            && LegalTrace(s, t) && m in After(s, t).minted && After(s, t).now == gap < m.token.claims.expiresAt
            && !Jwts.Accepts(After(s, t).keys, m.token, [DASHBOARD], gap)
  {
    hide After, LegalTrace, Step, Legal;
    var e, f, g := LogIn(Login(email, 0), 0), Restart(k1, s.secret, true, 0), Restart(k2, k1, true, gap);
    Theorems.StartIsLegal(s);
    LoggingIn(s, e);
    TraceGrows(s, [], e);
    var w := Step(s, Start(s), e);
    RestartingWith(s, w, f);
    RestartingWith(s, Step(s, w, f), g);
    var t: Trace := [] + [e];
    assert t == [e];
    Theorems.TwoSteps(s, t, f, g);
    assert t + [f, g] == [e, f, g];
  }

  lemma LoggingIn(s: Setup, e: Event)
    requires e.LogIn? && e.login.at == e.cookieAt == 0
    ensures Legal(s, Start(s), e)
    ensures var w := Step(s, Start(s), e); w.now == 0 && w.minted == {CookieFor(s.secret, e.login, 0)}
  {
  }

  lemma RestartingWith(s: Setup, w: World, e: Event)
    requires e.Restart? && w.now <= e.at && (forall m | m in w.minted :: m.at <= e.at)
    ensures Legal(s, w, e)
    ensures var w' := Step(s, w, e);
            w'.now == e.at && w'.minted == w.minted && w'.keys == Jwts.Keys(e.secret, e.previous)
  {
  }
}
