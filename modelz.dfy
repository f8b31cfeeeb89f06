/**
 * The `query_result` record: one row per recorded chat turn, kept in the local store and
 * replicated to the warehouse.
 */
module Modelz {
  import opened Wrappers

  /** The table the records live in; replication reads its pending rows from the same table. */
  const TableName := "query_result"

  /** A point in time, as the store's clock gives it. */
  type Timestamp = int

  /**
   * A stored row. `id` is the integer primary key; `query` is the only text column that cannot
   * be null; the token counters are nullable integers; `createdAt` and `syncedToSnowflake`
   * always hold a value once the row is stored.
   */
  datatype Record = Record(
    id: nat,
    query: string,
    answer: Option<string>,
    sfresult: Option<string>,
    sqlquery: Option<string>,
    rawResponse: Option<string>,
    errorMessage: Option<string>,
    tokensFirstCall: Option<int>,
    tokensSecondCall: Option<int>,
    totalTokensUsed: Option<int>,
    createdAt: Timestamp,
    syncedToSnowflake: bool)

  /**
   * The `QueryResult(...)` object before it is added: no id yet, and the two defaulted columns
   * possibly left unset.
   */
  datatype Draft = Draft(
    query: string,
    answer: Option<string>,
    sfresult: Option<string>,
    sqlquery: Option<string>,
    rawResponse: Option<string>,
    errorMessage: Option<string>,
    tokensFirstCall: Option<int>,
    tokensSecondCall: Option<int>,
    totalTokensUsed: Option<int>,
    createdAt: Option<Timestamp>,
    syncedToSnowflake: Option<bool>)

  /**
   * The row stored for `d` under primary key `id` at time `now`: the column defaults apply to
   * what `d` leaves unset (`created_at` is the insertion time, `synced_to_snowflake` is false);
   * every other column is taken from `d`.
   */
  function Materialize(d: Draft, id: nat, now: Timestamp): (r: Record)
    ensures r.id == id && r.query == d.query
    ensures r.createdAt == (if d.createdAt.Some? then d.createdAt.value else now)
    ensures r.syncedToSnowflake <==> d.syncedToSnowflake == Some(true)
  {
    Record(id, d.query, d.answer, d.sfresult, d.sqlquery, d.rawResponse, d.errorMessage,
           d.tokensFirstCall, d.tokensSecondCall, d.totalTokensUsed,
           d.createdAt.GetOr(now), d.syncedToSnowflake.GetOr(false))
  }

  /** The draft that writes every column of `r` explicitly. */
  function DraftOf(r: Record): Draft {
    Draft(r.query, r.answer, r.sfresult, r.sqlquery, r.rawResponse, r.errorMessage,
          r.tokensFirstCall, r.tokensSecondCall, r.totalTokensUsed,
          Some(r.createdAt), Some(r.syncedToSnowflake))
  }

  /** A row written back with every column explicit is stored unchanged, whatever the clock says. */
  lemma MaterializeDraftOf(r: Record, now: Timestamp)
    ensures Materialize(DraftOf(r), r.id, now) == r
  {
  }

  /**
   * A draft that leaves the defaulted columns unset becomes an unsynced row stamped with the
   * insertion time, and is recovered from that row except for those two columns.
   */
  lemma MaterializeDefaults(d: Draft, id: nat, now: Timestamp)
    requires d.createdAt.None? && d.syncedToSnowflake.None?
    ensures var r := Materialize(d, id, now);
            && !r.syncedToSnowflake && r.createdAt == now
            && DraftOf(r) == d.(createdAt := Some(now), syncedToSnowflake := Some(false))
  {
  }
}
