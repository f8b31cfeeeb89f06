/**
 * `sync_sqlite_to_snowflake`: copy the local rows not yet replicated to the warehouse table and
 * then flag them as replicated. The remote table is append-only; the read, the append and the
 * marking transaction may each fail, and every failure is caught and reported.
 */
module Replication {
  import opened Wrappers
  import opened Modelz
  import opened LocalStore

  /** The warehouse table the rows are appended to. */
  const RemoteTableName := "LoginTable"

  /** The seven connection settings read from the environment; an unset variable is `None`. */
  datatype Credentials = Credentials(
    account: Option<string>,
    user: Option<string>,
    password: Option<string>,
    database: Option<string>,
    schema: Option<string>,
    warehouse: Option<string>,
    role: Option<string>)

  /** A setting counts as given when it is set and not empty (Python truthiness). */
  predicate Given(v: Option<string>) {
    v.Some? && v.value != ""
  }

  /** `all([...])` over the seven settings. */
  predicate AllGiven(c: Credentials) {
    Given(c.account) && Given(c.user) && Given(c.password) && Given(c.database)
    && Given(c.schema) && Given(c.warehouse) && Given(c.role)
  }

  /** Which of the three fallible steps raise on this run. */
  datatype SyncFaults = SyncFaults(readFails: bool, appendFails: bool, markFails: bool)

  /** How a run ended; every ending except `Synced` is a message printed by the function. */
  datatype SyncOutcome =
    | ReadFailed          // the local read raised
    | NothingToSync       // "No new data to sync."
    | MissingCredentials  // "Missing Snowflake credentials in environment variables."
    | AppendFailed        // connecting to the warehouse or the append raised
    | MarkFailed          // the marking transaction raised after the append
    | Synced(count: nat)  // "Synced {count} new rows to Snowflake."

  /** The local rows with their id counter, and the remote table. */
  datatype Replica = Replica(rows: map<nat, Record>, nextId: nat, remote: seq<Record>)

  /** The rows a run selects. */
  function PendingIds(r: Replica): seq<nat> {
    UnsyncedIds(r.rows, r.nextId)
  }

  /** One run of the sync function, step by step in the order the function takes them. */
  function SyncSpec(r: Replica, creds: Credentials, faults: SyncFaults): (SyncOutcome, Replica) {
    if faults.readFails then (ReadFailed, r)
    else
      var ids := PendingIds(r);
      if ids == [] then (NothingToSync, r)
      else if !AllGiven(creds) then (MissingCredentials, r)
      else if faults.appendFails then (AppendFailed, r)
      else
        var appended := r.remote + Batch(r.rows, ids);
        if faults.markFails then (MarkFailed, r.(remote := appended))
        else (Synced(|ids|), r.(rows := Marked(r.rows, IdSet(ids)), remote := appended))
  }

  /** With no unsynced rows a run touches neither the remote table nor any local row. */
  lemma SyncNothingPending(r: Replica, creds: Credentials, faults: SyncFaults)
    requires PendingIds(r) == []
    ensures SyncSpec(r, creds, faults).1 == r
    ensures SyncSpec(r, creds, faults).0 == (if faults.readFails then ReadFailed else NothingToSync)
  {
  }

  /** With a setting missing or empty a run appends nothing and marks nothing. */
  lemma SyncMissingCredentials(r: Replica, creds: Credentials, faults: SyncFaults)
    requires !AllGiven(creds)
    ensures SyncSpec(r, creds, faults).1 == r
  {
  }

  /**
   * A run that changes any local row has appended the whole selected batch first, and has
   * flagged exactly the selected rows.
   */
  lemma SyncMarksOnlyAfterAppend(r: Replica, creds: Credentials, faults: SyncFaults)
    requires SyncSpec(r, creds, faults).1.rows != r.rows
    ensures var ids := PendingIds(r);
            var (outcome, r') := SyncSpec(r, creds, faults);
            && outcome == Synced(|ids|)
            && r'.remote == r.remote + Batch(r.rows, ids)
            && r'.rows == Marked(r.rows, IdSet(ids))
  {
  }

  /**
   * A run only ever appends to the remote table, leaves the id counter alone, keeps every local
   * row with all its other columns, and never clears a flag.
   */
  lemma SyncOnlyFlags(r: Replica, creds: Credentials, faults: SyncFaults)
    ensures var r' := SyncSpec(r, creds, faults).1;
            && r'.nextId == r.nextId
            && r.remote <= r'.remote
            && r'.rows.Keys == r.rows.Keys
            && forall id :: id in r.rows ==>
                 && r'.rows[id].(syncedToSnowflake := false) == r.rows[id].(syncedToSnowflake := false)
                 && (r.rows[id].syncedToSnowflake ==> r'.rows[id].syncedToSnowflake)
  {
    var r' := SyncSpec(r, creds, faults).1;
    var ids := PendingIds(r);
    assert r'.rows == r.rows || r'.rows == Marked(r.rows, IdSet(ids));
    assert r'.remote == r.remote || r'.remote == r.remote + Batch(r.rows, ids);
    MarkedOnlyFlag(r.rows, IdSet(ids));
  }

  /** After a complete run, a second run with no new writes in between finds nothing to do. */
  lemma SyncIdempotent(r: Replica, creds: Credentials, faults: SyncFaults, creds2: Credentials, faults2: SyncFaults)
    requires SyncSpec(r, creds, faults).0.Synced?
    ensures var r' := SyncSpec(r, creds, faults).1;
            && PendingIds(r') == []
            && SyncSpec(r', creds2, faults2).1 == r'
  {
    MarkedClearsPending(r.rows, r.nextId);
  }

  /** Every flagged row has its unflagged copy in the remote table. */
  ghost predicate Replicated(r: Replica) {
    forall id :: id in r.rows && r.rows[id].syncedToSnowflake ==>
      r.rows[id].(syncedToSnowflake := false) in r.remote
  }

  /** No run flags a row whose copy has not reached the remote table: at-least-once delivery. */
  lemma SyncKeepsReplicated(r: Replica, creds: Credentials, faults: SyncFaults)
    requires Replicated(r)
    ensures Replicated(SyncSpec(r, creds, faults).1)
  {
    var (outcome, r') := SyncSpec(r, creds, faults);
    if outcome.Synced? || outcome.MarkFailed? {
      var ids := PendingIds(r);
      var b := Batch(r.rows, ids);
      forall id | id in r'.rows && r'.rows[id].syncedToSnowflake
        ensures r'.rows[id].(syncedToSnowflake := false) in r'.remote
      {
        if r.rows[id].syncedToSnowflake {
          assert r.rows[id].(syncedToSnowflake := false) in r.remote;
        } else {
          assert id in IdSet(ids);
          var k :| 0 <= k < |ids| && ids[k] == id;
          assert b[k] == r.rows[id];
          assert r'.remote[|r.remote| + k] == b[k];
        }
      }
    }
  }

  /**
   * A failed append keeps the whole batch pending; a failed marking after a successful append
   * also keeps it pending, so the next complete run appends the same rows a second time.
   */
  lemma SyncRetryDuplicates(r: Replica, creds: Credentials)
    requires AllGiven(creds) && PendingIds(r) != []
    ensures var failed := SyncSpec(r, creds, SyncFaults(false, true, false));
            failed == (AppendFailed, r)
    ensures var b := Batch(r.rows, PendingIds(r));
            var (outcome, r1) := SyncSpec(r, creds, SyncFaults(false, false, true));
            && outcome == MarkFailed
            && PendingIds(r1) == PendingIds(r)
            && SyncSpec(r1, creds, SyncFaults(false, false, false)).1.remote == r.remote + b + b
  {
  }

  /** The warehouse table the rows are copied into. */
  class Remote {
    var log: seq<Record>

    constructor ()
      ensures log == []
    {
      log := [];
    }

    /** `df.to_sql(..., if_exists='append')`: all of the batch or, when it raises, nothing. */
    method Append(batch: seq<Record>, ok: bool)
      modifies this
      ensures log == if ok then old(log) + batch else old(log)
    {
      if ok {
        log := log + batch;
      }
    }
  }

  /**
   * `sync_sqlite_to_snowflake()`: the outcome, the local rows and the remote table are those of
   * `SyncSpec`.
   */
  method Sync(store: Store, remote: Remote, creds: Credentials, faults: SyncFaults) returns (outcome: SyncOutcome)
    requires store.Valid()
    modifies store`rows, remote
    ensures store.Valid()
    ensures (outcome, Replica(store.rows, store.nextId, remote.log))
            == SyncSpec(old(Replica(store.rows, store.nextId, remote.log)), creds, faults)
  {
    if faults.readFails {
      return ReadFailed;
    }
    var ids := store.Pending();
    if ids == [] {
      return NothingToSync;
    }
    if !AllGiven(creds) {
      return MissingCredentials;
    }
    var batch := Batch(store.rows, ids);
    remote.Append(batch, !faults.appendFails);
    if faults.appendFails {
      return AppendFailed;
    }
    store.MarkSynced(ids, !faults.markFails);
    outcome := if faults.markFails then MarkFailed else Synced(|ids|);
  }
}
