/**
 * The local SQLite table `query_result` as the application uses it: rows keyed by their
 * integer primary key, a counter for the next key, the read of the rows not yet replicated and
 * the transaction that marks rows as replicated.
 */
module LocalStore {
  import opened Wrappers
  import opened Modelz

  /** The set of ids listed in `ids`. */
  function IdSet(ids: seq<nat>): set<nat> {
    set id | id in ids
  }

  /**
   * `SELECT * FROM query_result WHERE synced_to_snowflake = FALSE` restricted to ids below `n`,
   * in ascending id order: only stored, unsynced rows, each once.
   */
  function UnsyncedIds(rows: map<nat, Record>, n: nat): (ids: seq<nat>)
    ensures forall i :: 0 <= i < |ids| ==> ids[i] < n && ids[i] in rows && !rows[ids[i]].syncedToSnowflake
    ensures forall i, j :: 0 <= i < j < |ids| ==> ids[i] < ids[j]
  {
    if n == 0 then []
    else
      var init := UnsyncedIds(rows, n - 1);
      if n - 1 in rows && !rows[n - 1].syncedToSnowflake then init + [n - 1] else init
  }

  /** Every stored, unsynced row below `n` is selected. */
  lemma {:induction false} UnsyncedComplete(rows: map<nat, Record>, n: nat, id: nat)
    requires id < n && id in rows && !rows[id].syncedToSnowflake
    ensures id in UnsyncedIds(rows, n)
  {
    if id < n - 1 {
      UnsyncedComplete(rows, n - 1, id);
    }
  }

  /** The rows with the given ids, in that order: the fetched data frame. */
  function Batch(rows: map<nat, Record>, ids: seq<nat>): (b: seq<Record>)
    requires forall i :: 0 <= i < |ids| ==> ids[i] in rows
    ensures |b| == |ids| && forall i :: 0 <= i < |ids| ==> b[i] == rows[ids[i]]
  {
    if ids == [] then [] else [rows[ids[0]]] + Batch(rows, ids[1..])
  }

  /** `rows` after `UPDATE query_result SET synced_to_snowflake = TRUE WHERE id = :id` for each id of `ids`. */
  function Marked(rows: map<nat, Record>, ids: set<nat>): map<nat, Record> {
    map id | id in rows :: if id in ids then rows[id].(syncedToSnowflake := true) else rows[id]
  }

  /**
   * Marking keeps every row and every column except the flag, sets the flag of exactly the
   * marked rows, and never clears a flag.
   */
  lemma MarkedOnlyFlag(rows: map<nat, Record>, ids: set<nat>)
    ensures var r := Marked(rows, ids);
            && r.Keys == rows.Keys
            && forall id :: id in rows ==>
                 && r[id].(syncedToSnowflake := false) == rows[id].(syncedToSnowflake := false)
                 && (r[id].syncedToSnowflake <==> id in ids || rows[id].syncedToSnowflake)
  {
  }

  /** Marking every selected row leaves nothing to select. */
  lemma MarkedClearsPending(rows: map<nat, Record>, n: nat)
    ensures UnsyncedIds(Marked(rows, IdSet(UnsyncedIds(rows, n))), n) == []
  {
    var ids := UnsyncedIds(rows, n);
    var after := Marked(rows, IdSet(ids));
    var left := UnsyncedIds(after, n);
    if left != [] {
      var id := left[0];
      assert id in after && !after[id].syncedToSnowflake;
      if !rows[id].syncedToSnowflake {
        UnsyncedComplete(rows, n, id);
      }
      assert false;
    }
  }

  /** One more UPDATE, as the marking loop performs it on the staged rows. */
  lemma MarkOne(rows: map<nat, Record>, ids: seq<nat>, i: nat)
    requires i < |ids|
    ensures var staged := Marked(rows, IdSet(ids[..i]));
            Marked(rows, IdSet(ids[..i + 1]))
              == if ids[i] in staged then staged[ids[i] := staged[ids[i]].(syncedToSnowflake := true)] else staged
  {
    assert ids[..i + 1] == ids[..i] + [ids[i]];
    assert IdSet(ids[..i + 1]) == IdSet(ids[..i]) + {ids[i]};
  }

  /** Every stored row is filed under its own id, and every id is below the next one handed out. */
  ghost predicate Keyed(rows: map<nat, Record>, nextId: nat) {
    1 <= nextId && forall id :: id in rows ==> id < nextId && rows[id].id == id
  }

  /** The local table. */
  class Store {
    var rows: map<nat, Record>
    var nextId: nat

    ghost predicate Valid()
      reads this
    {
      Keyed(rows, nextId)
    }

    constructor ()
      ensures Valid() && rows == map[] && nextId == 1
    {
      rows := map[];
      nextId := 1;
    }

    /** The ids the replication read selects. */
    function Pending(): seq<nat>
      reads this
    {
      UnsyncedIds(rows, nextId)
    }

    /**
     * `db_session.add(query_result); db_session.commit()`. A committed insert stores the draft
     * under a fresh id with the column defaults applied; a failed commit changes nothing.
     */
    method Insert(d: Draft, now: Timestamp, commitOk: bool) returns (id: Option<nat>)
      requires Valid()
      modifies this
      ensures Valid()
      ensures commitOk ==>
        && id == Some(old(nextId)) && old(nextId) !in old(rows)
        && rows == old(rows)[old(nextId) := Materialize(d, old(nextId), now)]
        && nextId == old(nextId) + 1
      ensures !commitOk ==> id.None? && rows == old(rows) && nextId == old(nextId)
    {
      if commitOk {
        id := Some(nextId);
        rows := rows[nextId := Materialize(d, nextId, now)];
        nextId := nextId + 1;
      } else {
        id := None;
      }
    }

    /**
     * The marking loop: one UPDATE per id on a connection, then a single commit. Without the
     * commit none of the updates is kept.
     */
    method MarkSynced(ids: seq<nat>, commitOk: bool)
      requires Valid()
      modifies this`rows
      ensures Valid()
      ensures rows == if commitOk then Marked(old(rows), IdSet(ids)) else old(rows)
    {
      var staged := rows;
      var i := 0;
      while i < |ids|
        invariant 0 <= i <= |ids|
        invariant rows == old(rows)
        invariant staged == Marked(rows, IdSet(ids[..i]))
      {
        MarkOne(rows, ids, i);
        var id := ids[i];
        if id in staged {
          staged := staged[id := staged[id].(syncedToSnowflake := true)];
        }
        i := i + 1;
      }
      assert ids[..i] == ids;
      MarkedOnlyFlag(rows, IdSet(ids));
      if commitOk {
        rows := staged;
      }
    }
  }
}
