/** The store of OAuth clients (stores.go): bounded, evicting the oldest client, written through to a persister.
  *
  * The class works on its map in place.  Its methods are specified by Apply, a function on the map's value,
  * and by Save, what the persister holds afterwards; the history lemmas below are about runs of both.
  */
module Clients {
  import opened Common

  const MAX_CLIENTS := 10000
  const MAX_REDIRECT_URIS := 10

  datatype ClientEntry = ClientEntry(
    clientSecret: string, redirectURIs: seq<string>, clientName: string, createdAt: int, isKiteAPIKey: bool)

  type ClientMap = map<string, ClientEntry>

  /** One critical section that can change the store.  `victim` is the client that made room, if one had to. */
  datatype ClientOp =
    | Register(id: string, secret: string, uris: seq<string>, name: string, at: int, victim: Option<string>)
    | RegisterKite(id: string, uris: seq<string>, at: int, victim: Option<string>)
    | AddURI(id: string, uri: string)

  predicate IsOldest(c: ClientMap, id: string) {
    id in c && forall x | x in c :: c[id].createdAt <= c[x].createdAt
  }

  /** The victim evictOldest may choose when a client has to be inserted into c. */
  predicate MakesRoom(c: ClientMap, victim: Option<string>) {
    if |c| < MAX_CLIENTS then victim.None? else victim.Some? && IsOldest(c, victim.value)
  }

  /** A client with the empty id was created before all others. */
  predicate NamelessIsOldest(c: ClientMap) {
    "" in c && forall x | x in c && x != "" :: c[""].createdAt < c[x].createdAt
  }

  function Without(c: ClientMap, victim: Option<string>): ClientMap {
    match victim case None => c case Some(id) => c - {id}
  }

  function KiteName(id: string): string {
    if |id| >= 8 then "kite-user-" + id[..8] else "kite-user"
  }

  /** The client a call creates. */
  function NewEntry(op: ClientOp): ClientEntry
    requires !op.AddURI?
  {
    match op
    case Register(_, secret, uris, name, at, _) => ClientEntry(secret, uris, name, at, false)
    case RegisterKite(id, uris, at, _) => ClientEntry("", uris, KiteName(id), at, true)
  }

  predicate Creates(c: ClientMap, op: ClientOp) {
    op.Register? || (op.RegisterKite? && op.id !in c)
  }

  predicate Appends(c: ClientMap, op: ClientOp) {
    && op.AddURI? && op.id in c
    && |c[op.id].redirectURIs| < MAX_REDIRECT_URIS && op.uri !in c[op.id].redirectURIs
  }

  function Apply(c: ClientMap, op: ClientOp): ClientMap {
    if Creates(c, op) then Without(c, op.victim)[op.id := NewEntry(op)]
    else if Appends(c, op) then c[op.id := c[op.id].(redirectURIs := c[op.id].redirectURIs + [op.uri])]
    else c
  }

  /** What randomHex and evictOldest promise of a call: a fresh id, and the oldest client as victim. */
  predicate Legal(c: ClientMap, op: ClientOp) {
    && (Creates(c, op) ==> MakesRoom(c, op.victim))
    && (op.Register? ==> op.id !in c)
  }

  // ----- Persistence -----

  /** The stored form of a redirect URI list; a row may also hold text that is not such a list. */
  datatype URIsJSON = Marshalled(uris: seq<string>) | NotAList

  datatype ClientLoadEntry = ClientLoadEntry(
    clientID: string, clientSecret: string, redirectURIs: URIsJSON, clientName: string, createdAt: int,
    isKiteAPIKey: bool)

  type Rows = map<string, ClientLoadEntry>

  function RowOf(id: string, e: ClientEntry): ClientLoadEntry {
    ClientLoadEntry(id, e.clientSecret, Marshalled(e.redirectURIs), e.clientName, e.createdAt, e.isKiteAPIKey)
  }

  function Rebuild(row: ClientLoadEntry): ClientEntry {
    var uris := match row.redirectURIs case Marshalled(uris) => uris case NotAList => [];
    ClientEntry(row.clientSecret, uris, row.clientName, row.createdAt, row.isKiteAPIKey)
  }

  /** Every field comes from the column of its name; text that is no list of URIs counts as none. */
  predicate IsLoadedFrom(e: ClientEntry, row: ClientLoadEntry) {
    && e.clientSecret == row.clientSecret && e.clientName == row.clientName
    && e.createdAt == row.createdAt && e.isKiteAPIKey == row.isKiteAPIKey
    && e.redirectURIs == if row.redirectURIs.Marshalled? then row.redirectURIs.uris else []
  }

  /** The row a call on c has to write: what it made of the client it changed. */
  function RowToWrite(c: ClientMap, op: ClientOp): Option<ClientLoadEntry> {
    if Creates(c, op) || Appends(c, op) then Some(RowOf(op.id, Apply(c, op)[op.id])) else None
  }

  /** The rows after a call on c whose write, if it makes one, succeeds. */
  function Save(rows: Rows, c: ClientMap, op: ClientOp): Rows {
    match RowToWrite(c, op) case Some(row) => rows[op.id := row] case None => rows
  }

  /** Rows put into a map one after the other; a later row for the same id wins. */
  function Load(c: ClientMap, rows: seq<ClientLoadEntry>): ClientMap {
    if rows == [] then c
    else Load(c, rows[..|rows| - 1])[rows[|rows| - 1].clientID := Rebuild(rows[|rows| - 1])]
  }

  /** `listing` shows every row exactly once, in some order. */
  ghost predicate Lists(rows: Rows, listing: seq<ClientLoadEntry>) {
    && (forall i | 0 <= i < |listing| :: listing[i].clientID in rows && rows[listing[i].clientID] == listing[i])
    && (forall id | id in rows :: exists i :: 0 <= i < |listing| && listing[i].clientID == id)
  }

  /** The database behind the store.  A parameter `ok` says whether the backend accepted the call. */
  class ClientPersister {
    var rows: Rows

    constructor ()
      ensures rows == map[]
    {
      rows := map[];
    }

    method SaveClient(row: ClientLoadEntry, ok: bool)
      modifies this
      ensures rows == if ok then old(rows)[row.clientID := row] else old(rows)
    {
      if ok {
        rows := rows[row.clientID := row];
      }
    }

    /** All rows, in whatever order the backend returns them; None stands for an error. */
    method LoadClients(ok: bool) returns (r: Option<seq<ClientLoadEntry>>)
      requires forall id | id in rows :: rows[id].clientID == id
      ensures r.Some? <==> ok
      ensures r.Some? ==> Lists(rows, r.value)
    {
      if !ok {
        return None;
      }
      var todo := rows.Keys;
      var listing: seq<ClientLoadEntry> := [];
      while todo != {}
        invariant todo <= rows.Keys
        invariant forall i | 0 <= i < |listing| ::
                    listing[i].clientID in rows && rows[listing[i].clientID] == listing[i]
        invariant forall id | id in rows && id !in todo :: exists i :: 0 <= i < |listing| && listing[i].clientID == id
        decreases todo
      {
        var id :| id in todo;
        todo := todo - {id};
        ghost var before := listing;
        listing := listing + [rows[id]];
        forall x | x in rows && x !in todo
          ensures exists i :: 0 <= i < |listing| && listing[i].clientID == x
        {
          if x == id {
            assert listing[|before|].clientID == x;
          } else {
            var i :| 0 <= i < |before| && before[i].clientID == x;
            assert listing[i].clientID == x;
          }
        }
      }
      return Some(listing);
    }
  }

  class ClientStore {
    var clients: ClientMap
    const persister: ClientPersister?

    constructor (persister: ClientPersister?)
      ensures clients == map[] && this.persister == persister
    {
      this.persister := persister;
      clients := map[];
    }

    ghost function Footprint(): set<object> {
      if persister == null then {this} else {this, persister}
    }

    /** Visits the clients in an arbitrary order, as Go ranges over a map.  The empty string marks "none found yet": a
      * client with that id is never chosen, and exactly if it is older than all others the choice is wrong. */
    method EvictOldest() returns (victim: Option<string>)
      modifies this
      ensures clients == Without(old(clients), victim)
      ensures victim.Some? ==> victim.value in old(clients) && victim.value != ""
      ensures old(clients) != map[] ==>
                ((victim.Some? && IsOldest(old(clients), victim.value)) <==> !NamelessIsOldest(old(clients)))
    {
      var oldestID, oldestTime := "", 0;
      var todo := clients.Keys;
      ghost var good := clients != map[] && !NamelessIsOldest(clients);
      ghost var first := "";
      if good {
        first :| first in clients
                 && ("" in clients ==> first != "" && clients[first].createdAt <= clients[""].createdAt);
      }
      while todo != {}
        invariant todo <= clients.Keys
        invariant oldestID == "" || (oldestID in clients && oldestTime == clients[oldestID].createdAt)
        invariant good && first !in todo ==> oldestID != ""
        invariant good ==> forall x | x in clients && x !in todo ::
                    || (oldestID != "" && oldestTime <= clients[x].createdAt)
                    || (first in todo && clients[first].createdAt <= clients[x].createdAt)
        decreases todo
      {
        var id :| id in todo;
        todo := todo - {id};
        if oldestID == "" || clients[id].createdAt < oldestTime {
          oldestID := id;
          oldestTime := clients[id].createdAt;
        }
      }
      victim := None;
      if oldestID != "" {
        victim := Some(oldestID);
        clients := clients - {oldestID};
      }
    }

    // Each mutation is two steps: what is done under the lock, which says what is to be written, and the write after
    // the lock is released.

    /** `clientID` and `clientSecret` are the values randomHex drew. */
    method RegisterLocked(clientID: string, clientSecret: string, redirectURIs: seq<string>, clientName: string,
                          now: int)
      returns (op: ClientOp, row: ClientLoadEntry)
      modifies this
      ensures op.Register? && op == ClientOp.Register(clientID, clientSecret, redirectURIs, clientName, now, op.victim)
      ensures MakesRoom(old(clients), op.victim) <==> |old(clients)| < MAX_CLIENTS || !NamelessIsOldest(old(clients))
      ensures clients == Apply(old(clients), op) && RowToWrite(old(clients), op) == Some(row)
      ensures clientID in clients
      ensures clients[clientID] == ClientEntry(clientSecret, redirectURIs, clientName, now, false)
      ensures row == ClientLoadEntry(clientID, clientSecret, Marshalled(redirectURIs), clientName, now, false)
    {
      var victim := None;
      if |clients| >= MAX_CLIENTS {
        victim := EvictOldest();
      }
      clients := clients[clientID := ClientEntry(clientSecret, redirectURIs, clientName, now, false)];
      op := ClientOp.Register(clientID, clientSecret, redirectURIs, clientName, now, victim);
      row := ClientLoadEntry(clientID, clientSecret, Marshalled(redirectURIs), clientName, now, false);
    }

    method RegisterKiteClientLocked(clientID: string, redirectURIs: seq<string>, now: int)
      returns (op: ClientOp, row: Option<ClientLoadEntry>)
      modifies this
      ensures op.RegisterKite? && op == RegisterKite(clientID, redirectURIs, now, op.victim)
      ensures Creates(old(clients), op) ==>
                (MakesRoom(old(clients), op.victim)
                 <==> |old(clients)| < MAX_CLIENTS || !NamelessIsOldest(old(clients)))
      ensures clients == Apply(old(clients), op) && RowToWrite(old(clients), op) == row
      ensures clientID in old(clients) ==> clients == old(clients) && row.None?
      ensures clientID !in old(clients) ==>
                var name := "kite-user" + if |clientID| >= 8 then "-" + clientID[..8] else "";
                && clientID in clients && clients[clientID] == ClientEntry("", redirectURIs, name, now, true)
                && row == Some(ClientLoadEntry(clientID, "", Marshalled(redirectURIs), name, now, true))
    {
      if clientID in clients {
        return RegisterKite(clientID, redirectURIs, now, None), None;
      }
      var victim := None;
      if |clients| >= MAX_CLIENTS {
        victim := EvictOldest();
      }
      var name := "kite-user";
      if |clientID| >= 8 {
        name := "kite-user-" + clientID[..8];
      }
      clients := clients[clientID := ClientEntry("", redirectURIs, name, now, true)];
      op := RegisterKite(clientID, redirectURIs, now, victim);
      row := Some(ClientLoadEntry(clientID, "", Marshalled(redirectURIs), name, now, true));
    }

    method AddRedirectURILocked(clientID: string, uri: string) returns (row: Option<ClientLoadEntry>)
      modifies this
      ensures clients == Apply(old(clients), AddURI(clientID, uri))
      ensures RowToWrite(old(clients), AddURI(clientID, uri)) == row
      ensures row.Some? <==> clientID in old(clients) && |old(clients)[clientID].redirectURIs| < 10
                             && uri !in old(clients)[clientID].redirectURIs
      ensures row.None? ==> clients == old(clients)
      ensures row.Some? ==>
                var was := old(clients)[clientID];
                && clients == old(clients)[clientID := was.(redirectURIs := was.redirectURIs + [uri])]
                && row.value == ClientLoadEntry(clientID, was.clientSecret, Marshalled(was.redirectURIs + [uri]),
                                                was.clientName, was.createdAt, was.isKiteAPIKey)
    {
      if clientID !in clients {
        return None;
      }
      var c := clients[clientID];
      if |c.redirectURIs| >= MAX_REDIRECT_URIS {
        return None;
      }
      for i := 0 to |c.redirectURIs|
        invariant uri !in c.redirectURIs[..i]
      {
        if c.redirectURIs[i] == uri {
          return None;
        }
      }
      c := c.(redirectURIs := c.redirectURIs + [uri]);
      clients := clients[clientID := c];
      row := Some(ClientLoadEntry(
                    clientID, c.clientSecret, Marshalled(c.redirectURIs), c.clientName, c.createdAt, c.isKiteAPIKey));
    }

    /** The write, once the lock is released; `ok` says whether the backend accepts it. */
    method Persist(row: ClientLoadEntry, ok: bool)
      modifies if persister == null then {} else {persister}
      ensures persister != null ==>
                persister.rows == if ok then old(persister.rows)[row.clientID := row] else old(persister.rows)
    {
      if persister != null {
        persister.SaveClient(row, ok);
      }
    }

    method Register(clientID: string, clientSecret: string, redirectURIs: seq<string>, clientName: string, now: int,
                    ok: bool)
      returns (op: ClientOp)
      modifies Footprint()
      ensures op.Register? && op == ClientOp.Register(clientID, clientSecret, redirectURIs, clientName, now, op.victim)
      ensures MakesRoom(old(clients), op.victim) <==> |old(clients)| < MAX_CLIENTS || !NamelessIsOldest(old(clients))
      ensures clients == Apply(old(clients), op)
      ensures clientID in clients
      ensures clients[clientID] == ClientEntry(clientSecret, redirectURIs, clientName, now, false)
      ensures persister != null ==>
                persister.rows == if ok then Save(old(persister.rows), old(clients), op) else old(persister.rows)
      ensures persister != null && ok ==>
                && clientID in persister.rows
                && persister.rows[clientID]
                   == ClientLoadEntry(clientID, clientSecret, Marshalled(redirectURIs), clientName, now, false)
    {
      var row;
      op, row := RegisterLocked(clientID, clientSecret, redirectURIs, clientName, now);
      Persist(row, ok);
    }

    method RegisterKiteClient(clientID: string, redirectURIs: seq<string>, now: int, ok: bool)
      returns (op: ClientOp)
      modifies Footprint()
      ensures op.RegisterKite? && op == RegisterKite(clientID, redirectURIs, now, op.victim)
      ensures Creates(old(clients), op) ==>
                (MakesRoom(old(clients), op.victim)
                 <==> |old(clients)| < MAX_CLIENTS || !NamelessIsOldest(old(clients)))
      ensures clients == Apply(old(clients), op)
      ensures persister != null ==>
                persister.rows == if ok then Save(old(persister.rows), old(clients), op) else old(persister.rows)
    {
      var row;
      op, row := RegisterKiteClientLocked(clientID, redirectURIs, now);
      if row.Some? {
        Persist(row.value, ok);
      }
    }

    method AddRedirectURI(clientID: string, uri: string, ok: bool)
      modifies Footprint()
      ensures clients == Apply(old(clients), AddURI(clientID, uri))
      ensures persister != null ==>
                persister.rows ==
                if ok then Save(old(persister.rows), old(clients), AddURI(clientID, uri)) else old(persister.rows)
    {
      var row := AddRedirectURILocked(clientID, uri);
      if row.Some? {
        Persist(row.value, ok);
      }
    }

    method Get(clientID: string) returns (r: Option<ClientEntry>)
      ensures r == Lookup(clients, clientID)
      ensures r.Some? <==> clientID in clients
      ensures r.Some? ==> r.value == clients[clientID]
    {
      r := if clientID in clients then Some(clients[clientID]) else None;
    }

    method ValidateRedirectURI(clientID: string, uri: string) returns (ok: bool)
      ensures ok <==> IsRegisteredURI(clients, clientID, uri)
      ensures ok <==> clientID in clients && uri in clients[clientID].redirectURIs
    {
      if clientID !in clients {
        return false;
      }
      var uris := clients[clientID].redirectURIs;
      for i := 0 to |uris|
        invariant uri !in uris[..i]
      {
        if uris[i] == uri {
          return true;
        }
      }
      return false;
    }

    method IsKiteClient(clientID: string) returns (ok: bool)
      ensures ok <==> IsKite(clients, clientID)
      ensures ok <==> clientID in clients && clients[clientID].isKiteAPIKey
    {
      ok := clientID in clients && clients[clientID].isKiteAPIKey;
    }

    /** Returns false when the persister fails.  The cap is not applied here. */
    method LoadFromDB(ok: bool) returns (loaded: bool)
      requires persister != null ==> forall id | id in persister.rows :: persister.rows[id].clientID == id
      modifies this
      ensures loaded <==> persister == null || ok
      ensures persister == null || !ok ==> clients == old(clients)
      ensures persister != null && ok ==> clients == old(clients) + Restored(persister.rows)
      ensures persister != null && ok ==>
                forall id | id in persister.rows :: id in clients && IsLoadedFrom(clients[id], persister.rows[id])
    {
      hide Lists, Rebuild, Restored;
      if persister == null {
        return true;
      }
      var r := persister.LoadClients(ok);
      if r.None? {
        return false;
      }
      var rows := r.value;
      for i := 0 to |rows|
        invariant clients == Load(old(clients), rows[..i])
      {
        assert rows[..i + 1][..i] == rows[..i];
        clients := clients[rows[i].clientID := Rebuild(rows[i])];
      }
      assert rows[..|rows|] == rows;
      LoadingRestores(old(clients), persister.rows, rows);
      RestoredIsLoaded(persister.rows);
      return true;
    }
  }

  function Lookup(c: ClientMap, id: string): Option<ClientEntry> {
    if id in c then Some(c[id]) else None
  }

  predicate IsRegisteredURI(c: ClientMap, id: string, uri: string) {
    id in c && uri in c[id].redirectURIs
  }

  predicate IsKite(c: ClientMap, id: string) {
    id in c && c[id].isKiteAPIKey
  }

  /** What loading these rows into an empty store gives. */
  function Restored(rows: Rows): ClientMap {
    map id | id in rows :: Rebuild(rows[id])
  }

  lemma {:induction false} LoadLooksAt(c: ClientMap, listing: seq<ClientLoadEntry>, rows: Rows, id: string)
    requires forall i | 0 <= i < |listing| :: listing[i].clientID in rows && rows[listing[i].clientID] == listing[i]
    ensures id in Load(c, listing) <==> id in c || exists i :: 0 <= i < |listing| && listing[i].clientID == id
    ensures (exists i :: 0 <= i < |listing| && listing[i].clientID == id) ==> Load(c, listing)[id] == Rebuild(rows[id])
    ensures id in c && !(exists i :: 0 <= i < |listing| && listing[i].clientID == id) ==> Load(c, listing)[id] == c[id]
    decreases |listing|
  {
    if listing != [] {
      var n := |listing| - 1;
      LoadLooksAt(c, listing[..n], rows, id);
      if i :| 0 <= i < |listing| && listing[i].clientID == id && i < n {
        assert listing[..n][i].clientID == id;
      }
    }
  }

  /** The order in which the backend lists its rows does not matter. */
  lemma LoadingRestores(c: ClientMap, rows: Rows, listing: seq<ClientLoadEntry>)
    requires Lists(rows, listing)
    ensures Load(c, listing) == c + Restored(rows)
  {
    forall id
      ensures id in Load(c, listing) <==> id in c + Restored(rows)
      ensures id in Load(c, listing) ==> Load(c, listing)[id] == (c + Restored(rows))[id]
    {
      LoadLooksAt(c, listing, rows, id);
    }
  }

  lemma RestoredIsLoaded(rows: Rows)
    ensures forall id | id in rows :: id in Restored(rows) && IsLoadedFrom(Restored(rows)[id], rows[id])
  {
  }

  // ----- Whole histories -----

  type History = seq<ClientOp>

  function Replay(h: History): ClientMap {
    if h == [] then map[] else Apply(Replay(h[..|h| - 1]), h[|h| - 1])
  }

  ghost predicate LegalHistory(h: History) {
    forall i | 0 <= i < |h| :: Legal(Replay(h[..i]), h[i])
  }

  lemma PrefixIsLegal(h: History)
    requires h != [] && LegalHistory(h)
    ensures LegalHistory(h[..|h| - 1]) && Legal(Replay(h[..|h| - 1]), h[|h| - 1])
  {
    var p := h[..|h| - 1];
    forall i | 0 <= i < |p|
      ensures Legal(Replay(p[..i]), p[i])
    {
      assert p[..i] == h[..i];
    }
  }

  lemma ReplaySteps(h: History)
    requires h != []
    ensures Replay(h) == Apply(Replay(h[..|h| - 1]), h[|h| - 1])
  {
  }

  lemma LegalCallExtends(h: History, op: ClientOp)
    requires LegalHistory(h) && Legal(Replay(h), op)
    ensures LegalHistory(h + [op]) && Replay(h + [op]) == Apply(Replay(h), op)
  {
    var g := h + [op];
    assert g[..|h|] == h;
    forall i | 0 <= i < |g|
      ensures Legal(Replay(g[..i]), g[i])
    {
      assert i < |h| ==> g[..i] == h[..i];
    }
  }

  // ----- Eviction makes the store a bounded queue -----

  /** A queue that never holds more than MAX_CLIENTS ids: pushing onto a full one drops its front. */
  function Push(q: seq<string>, id: string): seq<string> {
    (if |q| >= MAX_CLIENTS then q[1..] else q) + [id]
  }

  /** The ids that were created, in the order of creation; an id evicted and created anew appears again. */
  function Created(h: History): seq<string> {
    if h == [] then []
    else
      var p, op := h[..|h| - 1], h[|h| - 1];
      if Creates(Replay(p), op) then Created(p) + [op.id] else Created(p)
  }

  function Newest(s: seq<string>): seq<string> {
    if |s| <= MAX_CLIENTS then s else s[|s| - MAX_CLIENTS..]
  }

  /** Creation times strictly increase; calls that create nothing may read the clock whenever they like. */
  ghost predicate ClockAdvances(h: History) {
    forall i, j | 0 <= i < j < |h| && Creates(Replay(h[..i]), h[i]) && Creates(Replay(h[..j]), h[j]) ::
      h[i].at < h[j].at
  }

  ghost predicate AllOlder(c: ClientMap, t: int) {
    forall id | id in c :: c[id].createdAt < t
  }

  /** q lists exactly the live clients, oldest first, with strictly later creation times. */
  ghost predicate Queues(c: ClientMap, q: seq<string>) {
    && (forall i | 0 <= i < |q| :: q[i] in c)
    && (forall id | id in c :: id in q)
    && (forall i, j | 0 <= i < j < |q| :: c[q[i]].createdAt < c[q[j]].createdAt)
    && |q| == |c| <= MAX_CLIENTS
  }

  lemma OldestIsInFront(c: ClientMap, q: seq<string>, v: string)
    requires Queues(c, q) && IsOldest(c, v)
    ensures q != [] && v == q[0]
  {
    var k :| 0 <= k < |q| && q[k] == v;
    assert c[q[k]].createdAt <= c[q[0]].createdAt;
  }

  lemma DroppingTheFront(c: ClientMap, q: seq<string>)
    requires Queues(c, q) && q != []
    ensures Queues(c - {q[0]}, q[1..])
  {
    FrontIsNotInTail(c, q);
    TailStaysInOrder(c, q);
    TailHoldsTheRest(c, q);
    assert (c - {q[0]}).Keys == c.Keys - {q[0]};
  }

  lemma FrontIsNotInTail(c: ClientMap, q: seq<string>)
    requires Queues(c, q) && q != []
    ensures forall i | 0 <= i < |q[1..]| :: q[1..][i] in c - {q[0]}
  {
    forall i | 0 <= i < |q[1..]|
      ensures q[1..][i] in c - {q[0]}
    {
      assert q[1..][i] == q[i + 1];
      assert c[q[0]].createdAt < c[q[i + 1]].createdAt;
    }
  }

  lemma TailStaysInOrder(c: ClientMap, q: seq<string>)
    requires Queues(c, q) && q != []
    ensures var d, r := c - {q[0]}, q[1..];
            forall i, j | 0 <= i < j < |r| :: r[i] in d && r[j] in d && d[r[i]].createdAt < d[r[j]].createdAt
  {
    var d, r := c - {q[0]}, q[1..];
    FrontIsNotInTail(c, q);
    forall i, j | 0 <= i < j < |r|
      ensures r[i] in d && r[j] in d && d[r[i]].createdAt < d[r[j]].createdAt
    {
      assert r[i] == q[i + 1] && r[j] == q[j + 1];
    }
  }

  lemma TailHoldsTheRest(c: ClientMap, q: seq<string>)
    requires Queues(c, q) && q != []
    ensures forall id | id in c - {q[0]} :: id in q[1..]
  {
    forall id | id in c - {q[0]}
      ensures id in q[1..]
    {
      var i :| 0 <= i < |q| && q[i] == id;
      assert q[1..][i - 1] == id;
    }
  }

  lemma InsertionAppends(c: ClientMap, q: seq<string>, id: string, e: ClientEntry)
    requires Queues(c, q) && |c| < MAX_CLIENTS && id !in c
    requires AllOlder(c, e.createdAt)
    ensures Queues(c[id := e], q + [id])
  {
    var r := q + [id];
    assert r[|q|] == id;
    forall x | x in c[id := e]
      ensures x in r
    {
      if x != id {
        var i :| 0 <= i < |q| && q[i] == x;
        assert r[i] == x;
      }
    }
  }

  lemma CreationPushes(c: ClientMap, q: seq<string>, op: ClientOp)
    requires Queues(c, q) && Legal(c, op) && Creates(c, op)
    requires AllOlder(c, op.at)
    ensures Queues(Apply(c, op), Push(q, op.id))
  {
    if |c| >= MAX_CLIENTS {
      OldestIsInFront(c, q, op.victim.value);
      DroppingTheFront(c, q);
      InsertionAppends(c - {op.victim.value}, q[1..], op.id, NewEntry(op));
    } else {
      InsertionAppends(c, q, op.id, NewEntry(op));
    }
  }

  lemma PushesKeepNewest(s: seq<string>, id: string)
    ensures Newest(s + [id]) == Push(Newest(s), id)
  {
  }

  lemma {:induction false} CreatedBefore(h: History, id: string) returns (i: nat)
    requires id in Replay(h)
    ensures i < |h| && Creates(Replay(h[..i]), h[i]) && Replay(h)[id].createdAt == h[i].at
    decreases |h|
  {
    var n := |h| - 1;
    if Creates(Replay(h[..n]), h[n]) && h[n].id == id {
      i := n;
    } else {
      i := CreatedBefore(h[..n], id);
      assert h[..n][..i] == h[..i];
    }
  }

  lemma PrefixAdvances(h: History)
    requires h != [] && ClockAdvances(h)
    ensures ClockAdvances(h[..|h| - 1])
  {
    var p := h[..|h| - 1];
    forall i, j | 0 <= i < j < |p| && Creates(Replay(p[..i]), p[i]) && Creates(Replay(p[..j]), p[j])
      ensures p[i].at < p[j].at
    {
      assert p[..i] == h[..i] && p[..j] == h[..j];
    }
  }

  lemma NextIsNewest(h: History)
    requires h != [] && ClockAdvances(h) && Creates(Replay(h[..|h| - 1]), h[|h| - 1])
    ensures AllOlder(Replay(h[..|h| - 1]), h[|h| - 1].at)
  {
    var p := h[..|h| - 1];
    forall id | id in Replay(p)
      ensures Replay(p)[id].createdAt < h[|h| - 1].at
    {
      var i := CreatedBefore(p, id);
      assert p[..i] == h[..i];
    }
  }

  lemma AppendingKeepsTheQueue(c: ClientMap, q: seq<string>, op: ClientOp)
    requires Queues(c, q) && !Creates(c, op)
    ensures Queues(Apply(c, op), q)
  {
    assert Apply(c, op).Keys == c.Keys;
  }

  lemma {:induction false} QueueInvariant(h: History)
    requires LegalHistory(h) && ClockAdvances(h)
    ensures Queues(Replay(h), Newest(Created(h)))
    decreases |h|
  {
    if h != [] {
      var n := |h| - 1;
      var p, op := h[..n], h[n];
      PrefixIsLegal(h);
      PrefixAdvances(h);
      QueueInvariant(p);
      if Creates(Replay(p), op) {
        NextIsNewest(h);
        CreationPushes(Replay(p), Newest(Created(p)), op);
        PushesKeepNewest(Created(p), op.id);
      } else {
        AppendingKeepsTheQueue(Replay(p), Newest(Created(p)), op);
      }
    }
  }

  /** From an empty store and for every order in which the map may be visited, the live clients are exactly
    * the MAX_CLIENTS most recently created ones. */
  lemma LiveClientsAreTheNewest(h: History, id: string)
    requires LegalHistory(h) && ClockAdvances(h)
    ensures id in Replay(h) <==> id in Newest(Created(h))
    ensures |Replay(h)| == |Newest(Created(h))| <= 10_000
    ensures Created(h) == Created(h)[..|Created(h)| - |Newest(Created(h))|] + Newest(Created(h))
    ensures |Created(h)| >= 10_000 ==> |Newest(Created(h))| == 10_000
  {
    hide Created, Replay, Newest, LegalHistory, ClockAdvances, Queues;
    QueueInvariant(h);
    QueueListsClients(Replay(h), Newest(Created(h)), id);
    NewestIsTheEnd(Created(h));
  }

  lemma QueueListsClients(c: ClientMap, q: seq<string>, id: string)
    requires Queues(c, q)
    ensures (id in c <==> id in q) && |c| == |q|
  {
  }

  lemma NewestIsTheEnd(s: seq<string>)
    ensures |Newest(s)| <= 10_000 && |Newest(s)| <= |s| && (|s| >= 10_000 ==> |Newest(s)| == 10_000)
    ensures s == s[..|s| - |Newest(s)|] + Newest(s)
  {
  }

  lemma NewestHoldsTheLast(s: seq<string>, k: nat)
    requires k < |s| <= k + MAX_CLIENTS
    ensures s[k] in Newest(s)
  {
    var q := Newest(s);
    assert q[k - (|s| - |q|)] == s[k];
  }

  /** A client outlives the next MAX_CLIENTS - 1 creations. */
  lemma ClientSurvivesLaterCreations(h: History, k: nat)
    requires LegalHistory(h) && ClockAdvances(h)
    requires k < |Created(h)| <= k + 10_000
    ensures Created(h)[k] in Replay(h)
  {
    var s := Created(h);
    NewestHoldsTheLast(s, k);
    LiveClientsAreTheNewest(h, s[k]);
  }

  // ----- Redirect URI lists -----

  ghost predicate NoDuplicates(s: seq<string>) {
    forall i, j | 0 <= i < j < |s| :: s[i] != s[j]
  }

  /** Authorize registers a Kite client with the one URI of the request that met it. */
  ghost predicate KiteClientsStartWithOneURI(h: History) {
    forall i | 0 <= i < |h| && h[i].RegisterKite? :: |h[i].uris| == 1
  }

  lemma {:induction false} KiteURIListsAreSmallAndDistinct(h: History, id: string)
    requires KiteClientsStartWithOneURI(h) && IsKite(Replay(h), id)
    ensures 1 <= |Replay(h)[id].redirectURIs| <= 10
    ensures NoDuplicates(Replay(h)[id].redirectURIs)
    decreases |h|
  {
    var n := |h| - 1;
    if !(Creates(Replay(h[..n]), h[n]) && h[n].id == id) {
      KiteURIListsAreSmallAndDistinct(h[..n], id);
    }
  }

  /** The list got longer at the end, and nothing else about the client changed. */
  ghost predicate OnlyGained(was: ClientEntry, now: ClientEntry) {
    was.redirectURIs <= now.redirectURIs && now == was.(redirectURIs := now.redirectURIs)
  }

  lemma LiveClientGainsInOneCall(c: ClientMap, op: ClientOp, id: string)
    requires Legal(c, op) && id in c && id in Apply(c, op)
    ensures OnlyGained(c[id], Apply(c, op)[id])
  {
  }

  lemma GainsAddUp(a: ClientEntry, b: ClientEntry, c: ClientEntry)
    requires OnlyGained(a, b) && OnlyGained(b, c)
    ensures OnlyGained(a, c)
  {
  }

  /** While a client stays live its list only grows at the end, and nothing else about it changes. */
  lemma {:induction false} LiveClientsOnlyGainURIs(h: History, k: nat, id: string)
    requires LegalHistory(h) && k <= |h|
    requires forall i: nat | k <= i <= |h| :: id in Replay(h[..i])
    ensures id in Replay(h) && OnlyGained(Replay(h[..k])[id], Replay(h)[id])
    decreases |h|
  {
    hide Replay, Legal, Apply, OnlyGained;
    assert h[..|h|] == h;
    if k == |h| {
      SameGainsNothing(Replay(h)[id]);
    } else {
      var p := h[..|h| - 1];
      PrefixIsLegal(h);
      forall i: nat | k <= i <= |p|
        ensures id in Replay(p[..i])
      {
        assert p[..i] == h[..i];
      }
      LiveClientsOnlyGainURIs(p, k, id);
      assert p[..k] == h[..k];
      ReplaySteps(h);
      LiveClientGainsInOneCall(Replay(p), h[|h| - 1], id);
      GainsAddUp(Replay(h[..k])[id], Replay(p)[id], Replay(h)[id]);
    }
  }

  lemma SameGainsNothing(e: ClientEntry)
    ensures OnlyGained(e, e)
  {
  }

  // ----- What a reload would bring back -----

  /** The rows after a history all of whose writes succeeded, one after the other. */
  function Saved(h: History): Rows {
    if h == [] then map[] else Save(Saved(h[..|h| - 1]), Replay(h[..|h| - 1]), h[|h| - 1])
  }

  /** The record a client had when it was last live. */
  function LastLive(h: History, id: string): Option<ClientEntry> {
    if id in Replay(h) then Some(Replay(h)[id])
    else if h == [] then None
    else LastLive(h[..|h| - 1], id)
  }

  /** Loading the rows into an empty store gives every client that was ever live, evicted ones included,
    * as it was when it was last live. */
  lemma {:induction false} ReloadRestoresEveryClient(h: History, id: string)
    ensures Lookup(Restored(Saved(h)), id) == LastLive(h, id)
    ensures id in Saved(h) ==> Saved(h)[id].clientID == id
    decreases |h|
  {
    if h != [] {
      ReloadRestoresEveryClient(h[..|h| - 1], id);
    }
  }

  /** In particular a reload agrees with memory on every live client. */
  lemma {:induction false} ReloadAgreesWithMemory(h: History, id: string)
    requires id in Replay(h)
    ensures id in Restored(Saved(h)) && Restored(Saved(h))[id] == Replay(h)[id]
  {
    ReloadRestoresEveryClient(h, id);
  }

  lemma {:induction false} SavedRowsNeverVanish(h: History, k: nat)
    requires k <= |h|
    ensures Saved(h[..k]).Keys <= Saved(h).Keys
    decreases |h|
  {
    if k < |h| {
      SavedRowsNeverVanish(h[..|h| - 1], k);
      assert h[..|h| - 1][..k] == h[..k];
    } else {
      assert h[..k] == h;
    }
  }
}
