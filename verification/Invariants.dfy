/** What every step of the protocol keeps. */
module Invariants {
  import opened Common
  import opened Protocol
  import AuthCodes
  import Clients
  import Persistence
  import Jwts

  /** What is known of a client in memory or in the database. */
  ghost predicate EntryOk(w: World, id: string, e: Clients.ClientEntry) {
    && id != "" && id in w.ids
    && if e.isKiteAPIKey then
         && e.clientSecret == "" && 1 <= |e.redirectURIs| <= Clients.MAX_REDIRECT_URIS
         && Clients.NoDuplicates(e.redirectURIs)
       else id in w.registered && w.registered[id] == e
  }

  ghost predicate ClientsOk(w: World) {
    && w.kite <= w.ids
    && forall id | id in w.clients :: EntryOk(w, id, w.clients[id]) && (w.clients[id].isKiteAPIKey <==> id in w.kite)
  }

  ghost predicate WritesOk(w: World) {
    forall n: nat | n < |w.db.writes| :: EntryOk(w, w.db.writes[n].clientID, Clients.Rebuild(w.db.writes[n]))
  }

  /** The database is one that only the server writes to. */
  ghost predicate DatabaseOk(w: World) {
    Persistence.Sound(w.db, w.clients) && WritesOk(w)
  }

  ghost predicate RegisteredOk(w: World) {
    forall id | id in w.registered :: id in w.ids && !w.registered[id].isKiteAPIKey
  }

  ghost predicate AuthenticatedOk(w: World) {
    forall a | a in w.authenticated :: a.clientID in w.ids
  }

  ghost predicate AcceptedOk(s: Setup, w: World) {
    forall req | req in w.accepted ::
      req.clientID != "" && req.codeChallenge != "" && s.IsWebURL(req.redirectURI)
  }

  ghost predicate SignedOk(w: World) {
    forall st | st in w.signed ::
      RequestOf(st) in w.accepted && (st.registryKey == "" || |st.registryKey| >= REGISTRY_KEY_PREFIX)
  }

  ghost predicate BirthOk(s: Setup, w: World, b: Birth) {
    match b.source
    case Session(req, cookie, seenAt) =>
      && req in w.accepted && cookie in w.minted
      && Jwts.IsGood(cookie.token, [DASHBOARD], seenAt)
      && cookie.at <= seenAt <= b.at && Jwts.Subject(cookie.token) != ""
      && b.entry == EntryFor(req, Jwts.Subject(cookie.token), "", b.at)
    case Exchanged(st, login) =>
      && st in w.signed && login in w.logins && login.at <= b.at
      && b.entry == EntryFor(RequestOf(st), login.email, "", b.at)
    case Deferred(st) =>
      && st in w.signed && b.entry.requestToken != ""
      && b.entry == EntryFor(RequestOf(st), "", b.entry.requestToken, b.at)
  }

  ghost predicate BirthsOk(s: Setup, w: World) {
    forall c | c in w.births :: BirthOk(s, w, w.births[c])
  }

  ghost predicate CodesOk(w: World) {
    && |w.codes| <= AuthCodes.MAX_AUTH_CODES
    && forall c | c in w.codes :: c in w.births && w.codes[c] == w.births[c].entry && w.births[c].at <= w.now
  }

  ghost predicate ResponseOk(s: Setup, w: World, code: string, r: Response) {
    && code in w.births && code !in w.codes
    && r.auth in w.authenticated
    && var b := w.births[code];
    && b.entry.clientID == r.auth.clientID && s.S256(r.verifier) == b.entry.codeChallenge
    && b.at <= r.redeemedAt <= b.at + AuthCodes.CODE_LIFETIME
    && r.email == ResolvedEmail(b.entry, r.login) && r.email != ""
    && (r.login.Some? <==> b.source.Deferred?)
    && (r.login.Some? ==> r.login.value in w.logins && r.redeemedAt <= r.login.value.at <= r.minted.at)
    && r.minted in w.minted && r.redeemedAt <= r.minted.at
    && r.minted.token.Jwt?
    && r.minted == GrantFor(s, r.minted.token.key, code, r.auth.clientID, r.email, r.minted.at)
  }

  ghost predicate ResponsesOk(s: Setup, w: World) {
    forall c | c in w.responses :: ResponseOk(s, w, c, w.responses[c])
  }

  ghost predicate MintedOk(s: Setup, w: World, m: Minted) {
    && m.token.Jwt?
    && match m.cause
       case Cookie(login) => login in w.logins && login.at <= m.at && m == CookieFor(m.token.key, login, m.at)
       case Grant(code) => code in w.responses && w.responses[code].minted == m
       case Elevation(email, basis) =>
         && m == ElevationFor(m.token.key, email, basis, m.at)
         && (basis.Some? ==> basis.value in w.passes && basis.value.email == email && basis.value.at <= m.at)
  }

  ghost predicate AllMintedOk(s: Setup, w: World) {
    forall m | m in w.minted :: MintedOk(s, w, m)
  }

  ghost predicate Inv(s: Setup, w: World) {
    && ClientsOk(w)
    && DatabaseOk(w)
    && RegisteredOk(w)
    && AuthenticatedOk(w)
    && AcceptedOk(s, w)
    && SignedOk(w)
    && BirthsOk(s, w)
    && CodesOk(w)
    && ResponsesOk(s, w)
    && AllMintedOk(s, w)
  }

  // ----- Clients -----

  /** What an event does to the database, or to the writes under way. */
  function DatabaseAfter(w: World, e: Event): Persistence.Database {
    match e
    case ClientCall(op) => Persistence.Issue(w.db, Clients.RowToWrite(w.clients, op))
    case Write(n, accepted) => Persistence.Land(w.db, n, accepted)
    case Restart(_, _, loaded, _) => Persistence.Reload(w.db, loaded)
    case _ => w.db
  }

  lemma ClientCallEffect(s: Setup, w: World, e: Event)
    requires Legal(s, w, e) && !e.Restart?
    ensures var w' := Step(s, w, e);
            && w'.clients == (if e.ClientCall? then Clients.Apply(w.clients, e.op) else w.clients)
            && w'.db == DatabaseAfter(w, e)
    ensures e.ClientCall? ==> Clients.Legal(w.clients, e.op) && (e.op.RegisterKite? ==> |e.op.uris| == 1)
    ensures !e.ClientCall? ==> Step(s, w, e).ids == w.ids && Step(s, w, e).kite == w.kite
    ensures !e.ClientCall? ==> Step(s, w, e).registered == w.registered
  {
    hide Step, Legal, Clients.Apply, Clients.RowToWrite, Clients.Legal;
    if e.ClientCall? {
      ClientCallStep(s, w, e);
    } else {
      OthersLeaveClientsAlone(s, w, e);
    }
  }

  /** Events that issue or redeem codes, or only those that do neither. */
  predicate MovesCodes(e: Event) {
    e.IssueFromSession? || e.IssueFromExchange? || e.IssueDeferred? || e.Burn? || e.Redeem? || e.Sweep?
  }

  ghost predicate SameClients(w: World, e: Event, w': World) {
    && w'.clients == w.clients && w'.db == DatabaseAfter(w, e)
    && w'.ids == w.ids && w'.kite == w.kite && w'.registered == w.registered
  }

  lemma OthersLeaveClientsAlone(s: Setup, w: World, e: Event)
    requires Legal(s, w, e) && !e.ClientCall? && !e.Restart?
    ensures SameClients(w, e, Step(s, w, e))
  {
    hide Legal, Step;
    if MovesCodes(e) {
      CodesMoveWithoutClients(s, w, e);
    } else {
      RecordsGrowWithoutClients(s, w, e);
    }
  }

  lemma CodesMoveWithoutClients(s: Setup, w: World, e: Event)
    requires MovesCodes(e)
    ensures SameClients(w, e, Step(s, w, e))
  {
    hide Step;
    if e.IssueFromExchange? {
      ExchangeStep(s, w, e);
    } else if e.Redeem? {
      RedeemStep(s, w, e);
    } else {
      OtherCodesMoveWithoutClients(s, w, e);
    }
  }

  lemma OtherCodesMoveWithoutClients(s: Setup, w: World, e: Event)
    requires MovesCodes(e) && !e.IssueFromExchange? && !e.Redeem?
    ensures SameClients(w, e, Step(s, w, e))
  {
  }

  lemma SessionIsLegal(s: Setup, w: World, e: Event)
    requires e.IssueFromSession? && e.req in w.accepted && e.cookie in w.minted
    requires Jwts.Accepts(w.keys, e.cookie.token, [DASHBOARD], e.seenAt) && Jwts.Subject(e.cookie.token) != ""
    requires e.cookie.at <= e.seenAt <= e.at && w.now <= e.at && e.code !in w.births && AuthCodes.HasRoom(w.codes)
    ensures Legal(s, w, e)
  {
  }

  lemma SessionStep(s: Setup, w: World, e: Event)
    requires e.IssueFromSession?
    ensures var entry := EntryFor(e.req, Jwts.Subject(e.cookie.token), "", e.at);
            Step(s, w, e) == Issue(w, e.code, entry, Session(e.req, e.cookie, e.seenAt), e.at)
  {
  }

  lemma ExchangeStep(s: Setup, w: World, e: Event)
    requires e.IssueFromExchange?
    ensures var w', entry := Step(s, w, e), EntryFor(RequestOf(e.st), e.login.email, "", e.at);
            && w'.codes == AuthCodes.Apply(w.codes, AuthCodes.Generate(e.code, entry, e.at))
            && w' == w.(now := e.at, codes := w'.codes,
                        births := w.births[e.code := Birth(entry, e.at, Exchanged(e.st, e.login))],
                        logins := w.logins + {e.login}, minted := w'.minted, consents := w'.consents)
            && w'.minted == (if e.login.email == "" then w.minted
                             else w.minted + {CookieFor(w.keys.secret, e.login, e.cookieAt)})
            && w'.consents == w.consents + (if e.login.email != "" && s.recordsConsent then 1 else 0)
  {
  }

  lemma RedeemStep(s: Setup, w: World, e: Event)
    requires e.Redeem?
    ensures var w' := Step(s, w, e);
            && w' == w.(now := e.at, codes := w'.codes, responses := w'.responses,
                        minted := w'.minted, logins := w'.logins)
            && if e.code !in w.codes then w'.responses == w.responses && w'.minted == w.minted && w'.logins == w.logins
               else
                 var r := ResponseTo(s, w, e);
                 && w'.responses == w.responses[e.code := r] && w'.minted == w.minted + {r.minted}
                 && w'.logins == (if e.proof.Some? then w.logins + {e.proof.value} else w.logins)
  {
  }

  lemma RecordsGrowWithoutClients(s: Setup, w: World, e: Event)
    requires !MovesCodes(e) && !e.ClientCall? && !e.Restart?
    ensures SameClients(w, e, Step(s, w, e))
  {
  }

  lemma ClientCallStep(s: Setup, w: World, e: Event)
    requires Legal(s, w, e) && e.ClientCall?
    ensures var w', op := Step(s, w, e), e.op;
            && Clients.Legal(w.clients, op) && w'.clients == Clients.Apply(w.clients, op)
            && w'.db == DatabaseAfter(w, e)
            && (op.RegisterKite? ==> |op.uris| == 1)
            && if !Clients.Creates(w.clients, op) then
                 w'.kite == w.kite && w'.registered == w.registered && w'.ids == w.ids
               else
                 && op.id != "" && w'.ids == w.ids + {op.id}
                 && (op.Register? ==> op.id !in w.ids && w'.kite == w.kite
                                      && w'.registered == w.registered[op.id := Clients.NewEntry(op)])
                 && (op.RegisterKite? ==> w'.kite == w.kite + {op.id} && w'.registered == w.registered)
  {
  }

  /** A call creates a client, appends to its list, or leaves it alone. */
  lemma OneClientAfterCall(c: Clients.ClientMap, op: Clients.ClientOp, id: string)
    requires id in Clients.Apply(c, op) && Clients.Legal(c, op)
    ensures var e := Clients.Apply(c, op)[id];
            if Clients.Creates(c, op) && id == op.id then id !in c && e == Clients.NewEntry(op)
            else
              && id in c && e == c[id].(redirectURIs := e.redirectURIs)
              && (e == c[id]
                  || (Clients.Appends(c, op) && id == op.id && e.redirectURIs == c[id].redirectURIs + [op.uri]))
  {
  }

  lemma ClientAfterCallOk(s: Setup, w: World, e: Event, id: string)
    requires ClientsOk(w) && RegisteredOk(w) && Legal(s, w, e) && e.ClientCall?
    requires e.op.AddURI? ==> e.op.id in w.kite
    requires id in Step(s, w, e).clients
    ensures var w' := Step(s, w, e);
            EntryOk(w', id, w'.clients[id]) && (w'.clients[id].isKiteAPIKey <==> id in w'.kite)
  {
    hide Step, Legal, Clients.Apply, DatabaseAfter;
    ClientCallStep(s, w, e);
    OneClientAfterCall(w.clients, e.op, id);
    if id in w.clients {
      assert EntryOk(w, id, w.clients[id]);
    }
  }

  lemma OnlyKiteClientsGainURIs(s: Setup, w: World, e: Event)
    requires Legal(s, w, e) && e.ClientCall? && e.op.AddURI?
    ensures e.op.id in w.kite
  {
  }

  lemma EntryStaysOk(s: Setup, w: World, e: Event, id: string, c: Clients.ClientEntry)
    requires EntryOk(w, id, c) && RegisteredOk(w) && Legal(s, w, e)
    ensures EntryOk(Step(s, w, e), id, c)
  {
    hide Step, Legal;
    RegistrationsStay(s, w, e);
  }

  lemma RegistrationsStay(s: Setup, w: World, e: Event)
    requires RegisteredOk(w) && Legal(s, w, e)
    ensures var w' := Step(s, w, e);
            && w.ids <= w'.ids
            && forall id | id in w.registered :: id in w'.registered && w'.registered[id] == w.registered[id]
  {
    if !e.ClientCall? && !e.Restart? {
      OthersLeaveClientsAlone(s, w, e);
    }
  }

  lemma RegisteredKept(s: Setup, w: World, e: Event)
    requires RegisteredOk(w) && Legal(s, w, e)
    ensures RegisteredOk(Step(s, w, e))
  {
    if !e.ClientCall? && !e.Restart? {
      OthersLeaveClientsAlone(s, w, e);
    }
  }

  lemma ClientsKeptByRestart(s: Setup, w: World, e: Event)
    requires DatabaseOk(w) && RegisteredOk(w) && Legal(s, w, e) && e.Restart?
    ensures ClientsOk(Step(s, w, e))
  {
    hide Step, Legal, EntryOk, DatabaseOk;
    var w' := Step(s, w, e);
    RestartEffect(s, w, e);
    forall id | id in w'.clients
      ensures EntryOk(w', id, w'.clients[id]) && id in w'.ids
    {
      RestoredOk(w, id);
      EntryStaysOk(s, w, e, id, w'.clients[id]);
      EntriesHaveIds(w', id, w'.clients[id]);
    }
  }

  lemma ClientsKeptByCall(s: Setup, w: World, e: Event)
    requires ClientsOk(w) && RegisteredOk(w) && Legal(s, w, e) && e.ClientCall?
    ensures ClientsOk(Step(s, w, e))
  {
    hide Step, Legal, EntryOk, DatabaseAfter, Clients.Apply, Clients.Legal;
    var w' := Step(s, w, e);
    ClientCallStep(s, w, e);
    if e.op.AddURI? {
      OnlyKiteClientsGainURIs(s, w, e);
    }
    forall id | id in w'.clients
      ensures EntryOk(w', id, w'.clients[id]) && (w'.clients[id].isKiteAPIKey <==> id in w'.kite)
    {
      ClientAfterCallOk(s, w, e, id);
    }
  }

  lemma ClientsKept(s: Setup, w: World, e: Event)
    requires ClientsOk(w) && DatabaseOk(w) && RegisteredOk(w) && Legal(s, w, e)
    ensures ClientsOk(Step(s, w, e))
  {
    hide Step, Legal, EntryOk, DatabaseOk;
    if e.Restart? {
      ClientsKeptByRestart(s, w, e);
    } else if e.ClientCall? {
      ClientsKeptByCall(s, w, e);
    } else {
      var w' := Step(s, w, e);
      ClientCallEffect(s, w, e);
      forall id | id in w'.clients
        ensures EntryOk(w', id, w'.clients[id])
      {
        EntryStaysOk(s, w, e, id, w'.clients[id]);
      }
    }
  }

  lemma EntriesHaveIds(w: World, id: string, c: Clients.ClientEntry)
    requires EntryOk(w, id, c)
    ensures id != "" && id in w.ids
  {
  }

  lemma RestartEffect(s: Setup, w: World, e: Event)
    requires Legal(s, w, e) && e.Restart?
    ensures var w' := Step(s, w, e);
            && w.now <= e.at && (forall m | m in w.minted :: m.at <= e.at)
            && w'.clients == (if e.loaded then Clients.Restored(w.db.rows) else map[])
            && w'.kite == KiteIds(w'.clients) && w'.db == DatabaseAfter(w, e)
            && w' == w.(now := e.at, keys := Jwts.Keys(e.secret, e.previous), codes := map[],
                        clients := w'.clients, db := w'.db, kite := w'.kite)
  {
  }

  lemma RestoredOk(w: World, id: string)
    requires DatabaseOk(w) && id in Clients.Restored(w.db.rows)
    ensures EntryOk(w, id, Clients.Restored(w.db.rows)[id])
  {
    var n := w.db.landed[id];
    assert EntryOk(w, w.db.writes[n].clientID, Clients.Rebuild(w.db.writes[n]));
  }

  lemma SoundKept(s: Setup, w: World, e: Event)
    requires DatabaseOk(w) && Legal(s, w, e)
    ensures Persistence.Sound(Step(s, w, e).db, Step(s, w, e).clients)
  {
    hide Step, Legal, Persistence.Sound;
    if e.Restart? {
      RestartEffect(s, w, e);
      Persistence.ReloadKeepsSound(w.db, w.clients, e.loaded);
    } else {
      ClientCallEffect(s, w, e);
      if e.ClientCall? {
        Persistence.CallKeepsSound(w.db, w.clients, e.op);
      } else if e.Write? {
        WritesUnderWayLand(s, w, e);
        Persistence.LandingKeepsSound(w.db, w.clients, e.n, e.accepted);
      }
    }
  }

  lemma WritesUnderWayLand(s: Setup, w: World, e: Event)
    requires Legal(s, w, e) && e.Write?
    ensures e.n in w.db.inFlight
  {
  }

  /** Only calls of the client store give rise to writes, and a write holds what the call made of the client. */
  lemma NewWritesAreSnapshots(w: World, e: Event)
    requires w.db.writes != DatabaseAfter(w, e).writes
    ensures e.ClientCall?
    ensures e.op.id in Clients.Apply(w.clients, e.op)
    ensures var client := Clients.Apply(w.clients, e.op)[e.op.id];
            DatabaseAfter(w, e).writes == w.db.writes + [Clients.RowOf(e.op.id, client)]
  {
    if e.ClientCall? && Clients.RowToWrite(w.clients, e.op).Some? {
      Persistence.RowIsOfClient(w.clients, e.op);
    }
  }

  lemma WritesKept(s: Setup, w: World, e: Event)
    requires ClientsOk(w) && DatabaseOk(w) && RegisteredOk(w) && Legal(s, w, e)
    ensures WritesOk(Step(s, w, e))
  {
    hide Step, Legal, EntryOk, Persistence.Sound, DatabaseAfter, Clients.Apply;
    var w' := Step(s, w, e);
    ClientsKept(s, w, e);
    if e.Restart? {
      RestartEffect(s, w, e);
    } else {
      ClientCallEffect(s, w, e);
    }
    if w.db.writes != w'.db.writes {
      NewWritesAreSnapshots(w, e);
    }
    forall n: nat | n < |w'.db.writes|
      ensures EntryOk(w', w'.db.writes[n].clientID, Clients.Rebuild(w'.db.writes[n]))
    {
      if n < |w.db.writes| {
        EntryStaysOk(s, w, e, w.db.writes[n].clientID, Clients.Rebuild(w.db.writes[n]));
      }
    }
  }

  lemma DatabaseKept(s: Setup, w: World, e: Event)
    requires ClientsOk(w) && DatabaseOk(w) && RegisteredOk(w) && Legal(s, w, e)
    ensures DatabaseOk(Step(s, w, e))
  {
    hide Step, Legal, Persistence.Sound;
    SoundKept(s, w, e);
    WritesKept(s, w, e);
  }

  // ----- Records -----

  lemma RecordsEffect(s: Setup, w: World, e: Event)
    requires Legal(s, w, e)
    ensures var w' := Step(s, w, e);
            && w'.accepted == (if e.Accept? then w.accepted + {e.req} else w.accepted)
            && w'.authenticated == (if e.Authenticate? then w.authenticated + {e.auth} else w.authenticated)
  {
    if !e.Accept? && !e.Authenticate? {
      OthersRecordNeither(s, w, e);
    }
  }

  lemma OthersRecordNeither(s: Setup, w: World, e: Event)
    requires Legal(s, w, e) && !e.Accept? && !e.Authenticate?
    ensures Step(s, w, e).accepted == w.accepted && Step(s, w, e).authenticated == w.authenticated
  {
    if e.IssueFromExchange? {
      hide Step, Legal;
      ExchangeStep(s, w, e);
    } else if e.Redeem? {
      hide Step, Legal;
      RedeemStep(s, w, e);
    }
  }

  lemma AuthenticatedKept(s: Setup, w: World, e: Event)
    requires ClientsOk(w) && AuthenticatedOk(w) && Legal(s, w, e)
    ensures AuthenticatedOk(Step(s, w, e))
  {
  }

  lemma AcceptedKept(s: Setup, w: World, e: Event)
    requires AcceptedOk(s, w) && Legal(s, w, e)
    ensures AcceptedOk(s, Step(s, w, e))
  {
  }

  lemma SignedKept(s: Setup, w: World, e: Event)
    requires SignedOk(w) && Legal(s, w, e)
    ensures SignedOk(Step(s, w, e))
  {
  }

  /** The evidence a handler gathers stays valid. */
  ghost predicate KeepsEvidence(w: World, w': World) {
    && w.ids <= w'.ids
    && w.accepted <= w'.accepted && w.signed <= w'.signed && w.authenticated <= w'.authenticated
    && w.logins <= w'.logins && w.passes <= w'.passes && w.minted <= w'.minted
    && w.now <= w'.now
  }

  /** Records of the past are never withdrawn. */
  ghost predicate Remembers(w: World, w': World) {
    && KeepsEvidence(w, w')
    && (forall c | c in w.births :: c in w'.births && w'.births[c] == w.births[c])
    && (forall c | c in w.responses :: c in w'.responses && w'.responses[c] == w.responses[c])
    && (forall id | id in w.registered :: id in w'.registered && w'.registered[id] == w.registered[id])
    && w.consents <= w'.consents
  }

  lemma StepKeepsBirths(s: Setup, w: World, e: Event)
    requires Legal(s, w, e)
    ensures forall c | c in w.births :: c in Step(s, w, e).births && Step(s, w, e).births[c] == w.births[c]
  {
  }

  lemma StepKeepsResponses(s: Setup, w: World, e: Event)
    requires CodesOk(w) && ResponsesOk(s, w) && Legal(s, w, e)
    ensures forall c | c in w.responses :: c in Step(s, w, e).responses && Step(s, w, e).responses[c] == w.responses[c]
  {
    if e.Redeem? {
      assert e.code in w.responses ==> ResponseOk(s, w, e.code, w.responses[e.code]);
    } else {
      OnlyRedeemingResponds(s, w, e);
    }
  }

  lemma OnlyRedeemingResponds(s: Setup, w: World, e: Event)
    requires Legal(s, w, e) && !e.Redeem?
    ensures Step(s, w, e).responses == w.responses
  {
    if e.IssueFromExchange? {
      hide Step, Legal;
      ExchangeStep(s, w, e);
    }
  }

  lemma StepKeepsEvidence(s: Setup, w: World, e: Event)
    requires Legal(s, w, e)
    ensures KeepsEvidence(w, Step(s, w, e)) && w.consents <= Step(s, w, e).consents
  {
    if e.IssueFromExchange? {
      hide Step;
      ExchangeStep(s, w, e);
    } else if e.Redeem? {
      hide Step;
      RedeemStep(s, w, e);
    } else if !MovesCodes(e) {
      hide Step, Legal;
      RecordsKeepEvidence(s, w, e);
    } else {
      hide Step, Legal;
      OtherCodesKeepEvidence(s, w, e);
    }
  }

  lemma OtherCodesKeepEvidence(s: Setup, w: World, e: Event)
    requires Legal(s, w, e) && MovesCodes(e) && !e.IssueFromExchange? && !e.Redeem?
    ensures KeepsEvidence(w, Step(s, w, e)) && w.consents <= Step(s, w, e).consents
  {
  }

  lemma RecordsKeepEvidence(s: Setup, w: World, e: Event)
    requires Legal(s, w, e) && !MovesCodes(e)
    ensures KeepsEvidence(w, Step(s, w, e)) && w.consents <= Step(s, w, e).consents
  {
  }

  lemma StepRemembers(s: Setup, w: World, e: Event)
    requires CodesOk(w) && ResponsesOk(s, w) && RegisteredOk(w) && Legal(s, w, e)
    ensures Remembers(w, Step(s, w, e))
  {
    hide Step, Legal, KeepsEvidence;
    RegistrationsStay(s, w, e);
    StepKeepsEvidence(s, w, e);
    StepKeepsBirths(s, w, e);
    StepKeepsResponses(s, w, e);
  }

  lemma BirthStaysOk(s: Setup, w: World, w': World, b: Birth)
    requires Remembers(w, w') && BirthOk(s, w, b)
    ensures BirthOk(s, w', b)
  {
  }

  lemma IssueAddsOneBirth(s: Setup, w: World, e: Event, c: string)
    requires Legal(s, w, e) && c in Step(s, w, e).births && c !in w.births
    ensures (e.IssueFromSession? || e.IssueFromExchange? || e.IssueDeferred?) && c == e.code
  {
  }

  lemma SessionBirthOk(s: Setup, w: World, e: Event)
    requires Legal(s, w, e) && e.IssueFromSession?
    ensures BirthOk(s, Step(s, w, e), Step(s, w, e).births[e.code])
  {
    var w' := Step(s, w, e);
    assert w'.births[e.code].source == Session(e.req, e.cookie, e.seenAt);
    assert w'.accepted == w.accepted && w'.minted == w.minted;
  }

  lemma ExchangeBirthOk(s: Setup, w: World, e: Event)
    requires Legal(s, w, e) && e.IssueFromExchange?
    ensures BirthOk(s, Step(s, w, e), Step(s, w, e).births[e.code])
  {
    hide Step;
    ExchangeStep(s, w, e);
  }

  lemma DeferredBirthOk(s: Setup, w: World, e: Event)
    requires Legal(s, w, e) && e.IssueDeferred?
    ensures BirthOk(s, Step(s, w, e), Step(s, w, e).births[e.code])
  {
    var w' := Step(s, w, e);
    assert w'.births[e.code].source == Deferred(e.st);
    assert w'.signed == w.signed;
  }

  lemma BirthsKept(s: Setup, w: World, e: Event)
    requires Inv(s, w) && Legal(s, w, e)
    ensures BirthsOk(s, Step(s, w, e))
  {
    hide Step, Legal, BirthOk, Inv;
    InvIncludes(s, w);
    var w' := Step(s, w, e);
    StepRemembers(s, w, e);
    forall c | c in w'.births
      ensures BirthOk(s, w', w'.births[c])
    {
      if c in w.births {
        BirthStaysOk(s, w, w', w.births[c]);
      } else {
        IssueAddsOneBirth(s, w, e, c);
        match e
        case IssueFromSession(_, _, _, _, _) => SessionBirthOk(s, w, e);
        case IssueFromExchange(_, _, _, _, _) => ExchangeBirthOk(s, w, e);
        case IssueDeferred(_, _, _, _) => DeferredBirthOk(s, w, e);
      }
    }
  }

  /** What a step does to the code store, as a call of the store. */
  ghost predicate CodesStep(w: World, w': World, op: AuthCodes.CodeOp) {
    && w'.codes == AuthCodes.Apply(w.codes, op) && w.now <= w'.now == op.at
    && if op.Generate? then
         && op.code !in w.births && AuthCodes.HasRoom(w.codes)
         && op.code in w'.births && w'.births == w.births[op.code := w'.births[op.code]]
         && w'.births[op.code].entry == op.entry.(expiresAt := op.at + AuthCodes.CODE_LIFETIME)
         && w'.births[op.code].at == op.at
       else w'.births == w.births
  }

  lemma CodesStepKept(w: World, w': World, op: AuthCodes.CodeOp)
    requires CodesOk(w) && CodesStep(w, w', op)
    ensures CodesOk(w')
  {
    AuthCodes.ApplyKeepsTheCap(w.codes, op);
  }

  /** The code store call an event makes. */
  function CodeCall(s: Setup, w: World, e: Event): Option<AuthCodes.CodeOp> {
    match e
    case IssueFromSession(code, req, cookie, _, at) =>
      Some(AuthCodes.Generate(code, EntryFor(req, Jwts.Subject(cookie.token), "", at), at))
    case IssueFromExchange(code, st, login, at, _) =>
      Some(AuthCodes.Generate(code, EntryFor(RequestOf(st), login.email, "", at), at))
    case IssueDeferred(code, st, requestToken, at) =>
      Some(AuthCodes.Generate(code, EntryFor(RequestOf(st), "", requestToken, at), at))
    case Burn(code, _, at) => Some(AuthCodes.Consume(code, at))
    case Redeem(code, _, _, at, _, _) => Some(AuthCodes.Consume(code, at))
    case Sweep(at) => Some(AuthCodes.Sweep(at))
    case _ => None
  }

  lemma IssueIsACall(w: World, code: string, entry: AuthCodes.AuthCodeEntry, source: Source, at: int)
    requires code !in w.births && AuthCodes.HasRoom(w.codes) && w.now <= at
    requires entry.expiresAt == at + AuthCodes.CODE_LIFETIME
    ensures CodesStep(w, Issue(w, code, entry, source, at), AuthCodes.Generate(code, entry, at))
  {
  }

  /** The event does to the code store what CodeCall says, and nothing if that is None. */
  ghost predicate MakesItsCall(s: Setup, w: World, e: Event) {
    var c, w' := CodeCall(s, w, e), Step(s, w, e);
    if c.Some? then CodesStep(w, w', c.value)
    else w'.codes == w.codes && w'.births == w.births && w.now <= w'.now
  }

  lemma CodeCallEffect(s: Setup, w: World, e: Event)
    requires Legal(s, w, e) && !e.Restart?
    ensures MakesItsCall(s, w, e)
  {
    hide Step, Legal, MakesItsCall;
    match e
    case IssueFromSession(_, _, _, _, _) => SessionCallEffect(s, w, e);
    case IssueFromExchange(_, _, _, _, _) => ExchangeCallEffect(s, w, e);
    case IssueDeferred(_, _, _, _) => DeferredCallEffect(s, w, e);
    case _ => OtherCodeCallEffect(s, w, e);
  }

  lemma SessionCallEffect(s: Setup, w: World, e: Event)
    requires Legal(s, w, e) && e.IssueFromSession?
    ensures MakesItsCall(s, w, e)
  {
    var entry := EntryFor(e.req, Jwts.Subject(e.cookie.token), "", e.at);
    IssueIsACall(w, e.code, entry, Session(e.req, e.cookie, e.seenAt), e.at);
  }

  lemma ExchangeCallEffect(s: Setup, w: World, e: Event)
    requires Legal(s, w, e) && e.IssueFromExchange?
    ensures MakesItsCall(s, w, e)
  {
    hide Step, AuthCodes.Apply;
    ExchangeStep(s, w, e);
  }

  lemma DeferredCallEffect(s: Setup, w: World, e: Event)
    requires Legal(s, w, e) && e.IssueDeferred?
    ensures MakesItsCall(s, w, e)
  {
    IssueIsACall(w, e.code, EntryFor(RequestOf(e.st), "", e.requestToken, e.at), Deferred(e.st), e.at);
  }

  lemma OtherCodeCallEffect(s: Setup, w: World, e: Event)
    requires Legal(s, w, e) && !e.Restart? && !e.IssueFromSession? && !e.IssueFromExchange? && !e.IssueDeferred?
    ensures MakesItsCall(s, w, e)
  {
  }

  lemma CodesKept(s: Setup, w: World, e: Event)
    requires CodesOk(w) && Legal(s, w, e)
    ensures CodesOk(Step(s, w, e))
  {
    hide Step, Legal, CodesStep;
    if e.Restart? {
      RestartEffect(s, w, e);
    } else {
      CodeCallEffect(s, w, e);
      if CodeCall(s, w, e).Some? {
        CodesStepKept(w, Step(s, w, e), CodeCall(s, w, e).value);
      }
    }
  }

  /** A code that has left the store does not come back. */
  lemma SpentCodesStaySpent(s: Setup, w: World, e: Event, c: string)
    requires Legal(s, w, e) && c in w.births && c !in w.codes
    ensures c !in Step(s, w, e).codes
  {
    hide Step, Legal;
    if e.Restart? {
      RestartEffect(s, w, e);
    } else {
      CodeCallEffect(s, w, e);
    }
  }

  lemma ResponseStaysOk(s: Setup, w: World, e: Event, c: string)
    requires Inv(s, w) && Legal(s, w, e) && c in w.responses
    ensures var w' := Step(s, w, e); c in w'.responses && ResponseOk(s, w', c, w'.responses[c])
  {
    hide Step, Legal;
    StepRemembers(s, w, e);
    assert ResponseOk(s, w, c, w.responses[c]);
    SpentCodesStaySpent(s, w, e, c);
  }

  lemma NewResponseOk(s: Setup, w: World, e: Event)
    requires Inv(s, w) && Legal(s, w, e) && e.Redeem?
    ensures var w' := Step(s, w, e); e.code in w'.responses && ResponseOk(s, w', e.code, w'.responses[e.code])
  {
    assert BirthOk(s, w, w.births[e.code]);
    StepRemembers(s, w, e);
  }

  lemma OnlyRedeemingAddsResponses(s: Setup, w: World, e: Event, c: string)
    requires Legal(s, w, e) && c in Step(s, w, e).responses && c !in w.responses
    ensures e.Redeem? && e.code == c
  {
    if e.Redeem? {
      hide Step;
      RedeemStep(s, w, e);
    } else {
      hide Step, Legal;
      OnlyRedeemingResponds(s, w, e);
    }
  }

  lemma ResponsesKept(s: Setup, w: World, e: Event)
    requires Inv(s, w) && Legal(s, w, e)
    ensures ResponsesOk(s, Step(s, w, e))
  {
    hide Step, Legal, ResponseOk, Inv;
    var w' := Step(s, w, e);
    forall c | c in w'.responses
      ensures ResponseOk(s, w', c, w'.responses[c])
    {
      if c in w.responses {
        ResponseStaysOk(s, w, e, c);
      } else {
        OnlyRedeemingAddsResponses(s, w, e, c);
        NewResponseOk(s, w, e);
      }
    }
  }

  lemma MintedStaysOk(s: Setup, w: World, w': World, m: Minted)
    requires Remembers(w, w') && MintedOk(s, w, m)
    ensures MintedOk(s, w', m)
  {
  }

  lemma InvIncludes(s: Setup, w: World)
    requires Inv(s, w)
    ensures BirthsOk(s, w) && AllMintedOk(s, w) && CodesOk(w) && ResponsesOk(s, w) && RegisteredOk(w)
  {
  }

  lemma NewMintedOk(s: Setup, w: World, e: Event, m: Minted)
    requires Legal(s, w, e) && m in Step(s, w, e).minted && m !in w.minted
    ensures MintedOk(s, Step(s, w, e), m)
  {
    if e.IssueFromExchange? {
      hide Step;
      ExchangeStep(s, w, e);
    } else if e.Redeem? {
      hide Step;
      RedeemStep(s, w, e);
    } else if !e.LogIn? && !e.Elevate? {
      hide Step;
      OnlySomeMint(s, w, e);
    }
  }

  lemma OnlySomeMint(s: Setup, w: World, e: Event)
    requires !e.IssueFromExchange? && !e.Redeem? && !e.LogIn? && !e.Elevate?
    ensures Step(s, w, e).minted == w.minted
  {
  }

  lemma MintedKept(s: Setup, w: World, e: Event)
    requires Inv(s, w) && Legal(s, w, e)
    ensures AllMintedOk(s, Step(s, w, e))
  {
    hide Step, Legal, MintedOk, Inv;
    var w' := Step(s, w, e);
    assert AllMintedOk(s, w) && CodesOk(w) && ResponsesOk(s, w) && RegisteredOk(w) by {
      InvIncludes(s, w);
    }
    StepRemembers(s, w, e);
    forall m | m in w'.minted
      ensures MintedOk(s, w', m)
    {
      if m in w.minted {
        MintedStaysOk(s, w, w', m);
      } else {
        NewMintedOk(s, w, e, m);
      }
    }
  }

  lemma InvKept(s: Setup, w: World, e: Event)
    requires Inv(s, w) && Legal(s, w, e)
    ensures Inv(s, Step(s, w, e))
  {
    ClientsKept(s, w, e);
    DatabaseKept(s, w, e);
    RegisteredKept(s, w, e);
    AuthenticatedKept(s, w, e);
    AcceptedKept(s, w, e);
    SignedKept(s, w, e);
    BirthsKept(s, w, e);
    CodesKept(s, w, e);
    ResponsesKept(s, w, e);
    MintedKept(s, w, e);
  }

  lemma {:induction false} InvAlways(s: Setup, t: Trace)
    requires LegalTrace(s, t)
    ensures Inv(s, After(s, t))
  {
    if t != [] {
      InvAlways(s, t[..|t| - 1]);
      InvKept(s, After(s, t[..|t| - 1]), t[|t| - 1]);
    }
  }

  /** Nothing that was recorded at some point of a run is gone at its end. */
  lemma {:induction false} RunRemembers(s: Setup, t: Trace, k: nat)
    requires LegalTrace(s, t) && k <= |t|
    ensures LegalTrace(s, t[..k]) && Remembers(After(s, t[..k]), After(s, t))
    decreases |t|
  {
    if k < |t| {
      var p := t[..|t| - 1];
      RunRemembers(s, p, k);
      assert p[..k] == t[..k];
      InvAlways(s, p);
      StepRemembers(s, After(s, p), t[|t| - 1]);
    } else {
      assert t[..k] == t;
    }
  }
}
