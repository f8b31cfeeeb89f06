/**
 * `save_query_result`: build the `QueryResult` row for one chat turn, commit it to the local
 * store, then run the replication. Errors of the store are caught and printed.
 */
module RecordingSpec {
  import opened Wrappers
  import opened Values
  import opened Modelz
  import opened LocalStore
  import opened Replication

  /**
   * The `QueryResult(...)` a call builds. Answer, result, SQL text and error message are stored as
   * `str(x)` when `x` is truthy and as null otherwise; the raw response is always `str(x)`; the
   * token counters are stored as given; `created_at` and `synced_to_snowflake` are left to their
   * column defaults.
   */
  function RecordDraft(query: string, answer: Value, result: Value, sql: Value, response: Value,
                       tokensFirst: Option<int>, tokensSecond: Option<int>, total: Option<int>,
                       error: Value, show: Value -> string): (d: Draft)
    ensures d.query == query
    ensures (d.answer.None? <==> !Truthy(answer)) && (d.answer.Some? ==> d.answer.value == Values.Text(answer, show))
    ensures (d.sfresult.None? <==> !Truthy(result)) && (d.sfresult.Some? ==> d.sfresult.value == Values.Text(result, show))
    ensures (d.sqlquery.None? <==> !Truthy(sql)) && (d.sqlquery.Some? ==> d.sqlquery.value == Values.Text(sql, show))
    ensures (d.errorMessage.None? <==> !Truthy(error)) && (d.errorMessage.Some? ==> d.errorMessage.value == Values.Text(error, show))
    ensures d.rawResponse == Some(Values.Text(response, show))
    ensures d.tokensFirstCall == tokensFirst && d.tokensSecondCall == tokensSecond && d.totalTokensUsed == total
    ensures d.createdAt.None? && d.syncedToSnowflake.None?
  {
    Draft(query, Nullable(answer, show), Nullable(result, show), Nullable(sql, show), Some(Values.Text(response, show)),
          Nullable(error, show), tokensFirst, tokensSecond, total, None, None)
  }

  /** The clock, whether the commit succeeds, and what the replication run meets. */
  datatype SaveIo = SaveIo(now: Timestamp, commitOk: bool, creds: Credentials, faults: SyncFaults)

  /** The commit failed (and was printed), or the row got `id` and replication ended with `sync`. */
  datatype SaveOutcome = StoreFailed | Saved(id: nat, sync: SyncOutcome)

  /** The replica after committing `d` under the next id. */
  function Inserted(r: Replica, d: Draft, now: Timestamp): Replica {
    r.(rows := r.rows[r.nextId := Materialize(d, r.nextId, now)], nextId := r.nextId + 1)
  }

  /** One call: commit, then replicate; a failed commit changes nothing and skips replication. */
  function SaveSpec(r: Replica, d: Draft, io: SaveIo): (SaveOutcome, Replica) {
    if !io.commitOk then (StoreFailed, r)
    else
      var (sync, r') := SyncSpec(Inserted(r, d, io.now), io.creds, io.faults);
      (Saved(r.nextId, sync), r')
  }

  /**
   * A committed call adds exactly one row, under a fresh id, holding the draft with its defaults
   * applied (only its flag may since have been set by the replication); a failed one adds none.
   */
  lemma SaveAddsOneRow(r: Replica, d: Draft, io: SaveIo)
    requires Keyed(r.rows, r.nextId)
    ensures var (outcome, r') := SaveSpec(r, d, io);
            && (io.commitOk ==>
                  && outcome.Saved? && outcome.id == r.nextId && r.nextId !in r.rows
                  && r'.rows.Keys == r.rows.Keys + {r.nextId}
                  && r'.rows[r.nextId].(syncedToSnowflake := false)
                       == Materialize(d, r.nextId, io.now).(syncedToSnowflake := false))
            && (!io.commitOk ==> r' == r)
  {
    if io.commitOk {
      SyncOnlyFlags(Inserted(r, d, io.now), io.creds, io.faults);
    }
  }

  /** The fresh row is the last one a replication run right after the commit selects. */
  lemma InsertedLastPending(r: Replica, d: Draft, now: Timestamp)
    requires Keyed(r.rows, r.nextId) && d.syncedToSnowflake != Some(true)
    ensures var ids := PendingIds(Inserted(r, d, now));
            ids == PendingIds(r) + [r.nextId]
  {
    var r1 := Inserted(r, d, now);
    UnsyncedSame(r.rows, r1.rows, r.nextId);
  }

  /** Two tables that agree below `n` select the same ids below `n`. */
  lemma {:induction false} UnsyncedSame(a: map<nat, Record>, b: map<nat, Record>, n: nat)
    requires forall id :: id < n ==> (id in a <==> id in b) && (id in a ==> a[id] == b[id])
    ensures UnsyncedIds(a, n) == UnsyncedIds(b, n)
  {
    if n > 0 {
      UnsyncedSame(a, b, n - 1);
    }
  }

  /**
   * When nothing fails, the new row reaches the remote table as its last row, every local row
   * ends up flagged, and nothing is left to replicate.
   */
  lemma SaveReplicates(r: Replica, d: Draft, io: SaveIo)
    requires Keyed(r.rows, r.nextId) && d.syncedToSnowflake.None?
    requires io.commitOk && AllGiven(io.creds) && io.faults == SyncFaults(false, false, false)
    ensures var (outcome, r') := SaveSpec(r, d, io);
            && outcome == Saved(r.nextId, Synced(|PendingIds(r)| + 1))
            && r'.remote == r.remote + Batch(r.rows, PendingIds(r)) + [Materialize(d, r.nextId, io.now)]
            && r'.rows[r.nextId].syncedToSnowflake
            && PendingIds(r') == []
  {
    var r1 := Inserted(r, d, io.now);
    InsertedLastPending(r, d, io.now);
    var ids := PendingIds(r);
    assert Batch(r1.rows, ids + [r.nextId]) == Batch(r.rows, ids) + [Materialize(d, r.nextId, io.now)];
    SyncIdempotent(r1, io.creds, io.faults, io.creds, io.faults);
  }

  /** Saving a row that is not already flagged keeps every flagged row backed by a remote copy. */
  lemma SaveKeepsReplicated(r: Replica, d: Draft, io: SaveIo)
    requires Keyed(r.rows, r.nextId) && Replicated(r) && d.syncedToSnowflake != Some(true)
    ensures Replicated(SaveSpec(r, d, io).1)
  {
    if io.commitOk {
      var r1 := Inserted(r, d, io.now);
      assert Replicated(r1);
      SyncKeepsReplicated(r1, io.creds, io.faults);
    }
  }
}

/** The save operation over the local store and the remote table. */
module Recording {
  import opened Modelz
  import opened LocalStore
  import opened Replication
  import opened RecordingSpec

  /** `save_query_result(...)` for an already built row: the outcome and both tables follow `SaveSpec`. */
  method SaveQueryResult(store: Store, remote: Remote, d: Draft, io: SaveIo) returns (outcome: SaveOutcome)
    requires store.Valid()
    modifies store, remote
    ensures store.Valid()
    ensures (outcome, Replica(store.rows, store.nextId, remote.log))
            == SaveSpec(old(Replica(store.rows, store.nextId, remote.log)), d, io)
  {
    var id := store.Insert(d, io.now, io.commitOk);
    if id.None? {
      return StoreFailed;
    }
    var sync := Sync(store, remote, io.creds, io.faults);
    outcome := Saved(id.value, sync);
  }
}
