/** Writes to the clients' database under concurrency (stores.go).
  *
  * A mutation of the client store takes a snapshot of the client under the lock and writes it after the lock is
  * released. So writes are under way for a while, and may arrive in another order than the mutations they belong to.
  */
module Persistence {
  import opened Common
  import Clients

  /** All snapshots ever taken, in order; those under way; and, by client, which of them the database holds (`landed`)
    * and which of them the client in memory is (`current`). */
  datatype Database = Database(
    rows: Clients.Rows, writes: seq<Clients.ClientLoadEntry>, inFlight: set<nat>,
    landed: map<string, nat>, current: map<string, nat>)

  const EMPTY := Database(map[], [], {}, map[], map[])

  /** A mutation of the store took a snapshot, or there was nothing to write. */
  function Issue(db: Database, row: Option<Clients.ClientLoadEntry>): Database {
    match row
    case None => db
    case Some(r) =>
      var n := |db.writes|;
      db.(writes := db.writes + [r], inFlight := db.inFlight + {n}, current := db.current[r.clientID := n])
  }

  /** Write n is over. */
  function Land(db: Database, n: nat, accepted: bool): Database {
    var done := db.(inFlight := db.inFlight - {n});
    if !accepted || n >= |db.writes| then done
    else
      var row := db.writes[n];
      done.(rows := db.rows[row.clientID := row], landed := db.landed[row.clientID := n])
  }

  /** The process was restarted: what was under way is lost, and memory is what the database holds, if it could be
    * read. */
  function Reload(db: Database, loaded: bool): Database {
    db.(inFlight := {}, current := if loaded then db.landed else map[])
  }

  predicate IsUnderWay(db: Database, id: string) {
    exists n | n in db.inFlight :: n < |db.writes| && db.writes[n].clientID == id
  }

  ghost predicate RowsSound(db: Database) {
    && (forall n | n in db.inFlight :: n < |db.writes|)
    && (forall n: nat | n < |db.writes| :: db.writes[n].redirectURIs.Marshalled?)
    && db.rows.Keys == db.landed.Keys
    && forall id | id in db.rows ::
         && db.landed[id] < |db.writes| && db.rows[id] == db.writes[db.landed[id]] && db.rows[id].clientID == id
  }

  /** The client in memory is the latest snapshot of it, if none was lost at a restart. */
  ghost predicate MemorySound(db: Database, c: Clients.ClientMap) {
    && (forall id | id in c ::
          && id in db.current && db.current[id] < |db.writes|
          && db.writes[db.current[id]] == Clients.RowOf(id, c[id]))
    && (forall n | n in db.inFlight && n < |db.writes| && db.writes[n].clientID in c ::
          db.writes[n].clientID in db.current && n <= db.current[db.writes[n].clientID])
  }

  ghost predicate Sound(db: Database, c: Clients.ClientMap) {
    RowsSound(db) && MemorySound(db, c)
  }

  /** For every client in memory the latest snapshot is either under way, or landed last. */
  ghost predicate Settles(db: Database, c: Clients.ClientMap) {
    forall id | id in c && id in db.current ::
      || db.current[id] in db.inFlight
      || (!IsUnderWay(db, id) && id in db.landed && db.landed[id] == db.current[id])
  }

  /** Write n is accepted, and no earlier write for the same client is still under way. */
  predicate LandsInOrder(db: Database, n: nat, accepted: bool) {
    && accepted && n < |db.writes|
    && forall m | m in db.inFlight && m < n :: db.writes[m].clientID != db.writes[n].clientID
  }

  // ----- What the steps keep -----

  lemma CallKeepsRows(db: Database, row: Option<Clients.ClientLoadEntry>)
    requires RowsSound(db) && (row.Some? ==> row.value.redirectURIs.Marshalled?)
    ensures RowsSound(Issue(db, row))
  {
  }

  /** What a call leaves of the clients it does not change. */
  lemma OtherClientsStay(c: Clients.ClientMap, op: Clients.ClientOp, id: string)
    requires id in Clients.Apply(c, op)
    requires Clients.RowToWrite(c, op).Some? ==> id != op.id
    ensures id in c && Clients.Apply(c, op)[id] == c[id]
  {
  }

  lemma RowIsOfClient(c: Clients.ClientMap, op: Clients.ClientOp)
    requires Clients.RowToWrite(c, op).Some?
    ensures op.id in Clients.Apply(c, op)
    ensures var row := Clients.RowToWrite(c, op).value;
            && row == Clients.RowOf(op.id, Clients.Apply(c, op)[op.id])
            && row.clientID == op.id && row.redirectURIs.Marshalled?
  {
  }

  lemma CallKeepsSound(db: Database, c: Clients.ClientMap, op: Clients.ClientOp)
    requires Sound(db, c)
    ensures Sound(Issue(db, Clients.RowToWrite(c, op)), Clients.Apply(c, op))
  {
    hide Clients.Apply, Clients.RowToWrite;
    var row := Clients.RowToWrite(c, op);
    var db', c' := Issue(db, row), Clients.Apply(c, op);
    if row.Some? {
      RowIsOfClient(c, op);
    }
    CallKeepsRows(db, row);
    forall id | id in c'
      ensures id in db'.current && db'.current[id] < |db'.writes|
      ensures db'.writes[db'.current[id]] == Clients.RowOf(id, c'[id])
    {
      if !(row.Some? && id == op.id) {
        OtherClientsStay(c, op, id);
      }
    }
    forall n | n in db'.inFlight && n < |db'.writes| && db'.writes[n].clientID in c'
      ensures db'.writes[n].clientID in db'.current && n <= db'.current[db'.writes[n].clientID]
    {
      if !(row.Some? && db'.writes[n].clientID == op.id) {
        OtherClientsStay(c, op, db'.writes[n].clientID);
      }
    }
  }

  lemma CallKeepsSettling(db: Database, c: Clients.ClientMap, op: Clients.ClientOp)
    requires Sound(db, c) && Settles(db, c)
    ensures Settles(Issue(db, Clients.RowToWrite(c, op)), Clients.Apply(c, op))
  {
    hide Clients.Apply, Clients.RowToWrite;
    var row := Clients.RowToWrite(c, op);
    var db', c' := Issue(db, row), Clients.Apply(c, op);
    if row.Some? {
      RowIsOfClient(c, op);
    }
    forall id | id in c' && id in db'.current
      ensures db'.current[id] in db'.inFlight
              || (!IsUnderWay(db', id) && id in db'.landed && db'.landed[id] == db'.current[id])
    {
      if !(row.Some? && id == op.id) {
        OtherClientsStay(c, op, id);
      }
    }
  }

  lemma LandingKeepsSound(db: Database, c: Clients.ClientMap, n: nat, accepted: bool)
    requires Sound(db, c) && n in db.inFlight
    ensures Sound(Land(db, n, accepted), c)
  {
  }

  lemma LandingKeepsSettling(db: Database, c: Clients.ClientMap, n: nat, accepted: bool)
    requires Sound(db, c) && Settles(db, c) && n in db.inFlight && LandsInOrder(db, n, accepted)
    ensures Settles(Land(db, n, accepted), c)
  {
    var db' := Land(db, n, accepted);
    forall id | id in c && id in db'.current
      ensures db'.current[id] in db'.inFlight
              || (!IsUnderWay(db', id) && id in db'.landed && db'.landed[id] == db'.current[id])
    {
      if db.current[id] !in db.inFlight {
        assert !IsUnderWay(db, id);
        assert db.writes[n].clientID != id;
      }
    }
  }

  lemma ReloadKeepsSound(db: Database, c: Clients.ClientMap, loaded: bool)
    requires Sound(db, c)
    ensures Sound(Reload(db, loaded), if loaded then Clients.Restored(db.rows) else map[])
    ensures Settles(Reload(db, loaded), if loaded then Clients.Restored(db.rows) else map[])
  {
  }

  // ----- What a restart brings back -----

  /** A restart leaves a client as it is if and only if the row in the database is the one this client would be
    * written as. */
  lemma RestartKeepsClientWithItsRow(db: Database, c: Clients.ClientMap, id: string)
    requires Sound(db, c) && id in c
    ensures Clients.Lookup(Clients.Restored(db.rows), id) == Some(c[id])
       <==> id in db.rows && db.rows[id] == Clients.RowOf(id, c[id])
  {
    if id in db.rows {
      assert db.rows[id] == db.writes[db.landed[id]] && db.rows[id].clientID == id;
    }
  }

  /** And that is so once nothing is under way for the client, if the writes land in the order of the mutations. */
  lemma SettledClientsHaveTheirRow(db: Database, c: Clients.ClientMap, id: string)
    requires Sound(db, c) && Settles(db, c) && id in c && !IsUnderWay(db, id)
    ensures id in db.rows && db.rows[id] == Clients.RowOf(id, c[id])
  {
    var n := db.current[id];
    assert db.writes[n].clientID == id;
  }
}
