/**
 * The warehouse adapter of snowflake_utils.py: `query_snowflake`, which splits a request into
 * statements, runs them in order through one cursor and aggregates the rows, and
 * `get_schema_details`, which reads the table catalogue.
 *
 * The warehouse is a `Warehouse` object whose state (of an abstract type `S`) the statements
 * change one after another; what it answers to one statement is the oracle `run`. Whether the
 * connection and the cursor can be opened is the parameter `connect`.
 */
module QuerySpec {
  import opened Wrappers
  import opened Values
  import Text
  import OrderedDict

  // ---------------------------------------------------------------------------------------
  // Splitting the request into statements
  // ---------------------------------------------------------------------------------------

  /** The non-blank pieces among `pieces`, each stripped, in their original order. */
  function KeepStatements(pieces: seq<string>): (qs: seq<string>)
    ensures |qs| <= |pieces|
  {
    if pieces == [] then []
    else
      var t := Text.Strip(pieces[0]);
      (if t == "" then [] else [t]) + KeepStatements(pieces[1..])
  }

  /** Every statement kept is non-empty and already stripped. */
  lemma {:induction false} KeepStatementsClean(pieces: seq<string>)
    ensures forall i :: 0 <= i < |KeepStatements(pieces)| ==>
              KeepStatements(pieces)[i] != "" && Text.Strip(KeepStatements(pieces)[i]) == KeepStatements(pieces)[i]
  {
    if pieces != [] {
      KeepStatementsClean(pieces[1..]);
      Text.StripIdempotent(pieces[0]);
    }
  }

  /** A character no piece contains is in no statement kept from them. */
  lemma {:induction false} KeepAbsent(pieces: seq<string>, c: char)
    requires forall i :: 0 <= i < |pieces| ==> c !in pieces[i]
    ensures forall i :: 0 <= i < |KeepStatements(pieces)| ==> c !in KeepStatements(pieces)[i]
  {
    if pieces != [] {
      KeepAbsent(pieces[1..], c);
      Text.StripKeepsAbsent(pieces[0], c);
    }
  }

  /**
   * `[q.strip() for q in request.split(";") if q.strip()]`: the statements of a request are
   * non-empty, contain no `;` and carry no surrounding whitespace.
   */
  function Statements(request: string): (qs: seq<string>)
    ensures forall i :: 0 <= i < |qs| ==> qs[i] != "" && ';' !in qs[i] && Text.Strip(qs[i]) == qs[i]
  {
    Text.SplitPieces(request, ';');
    KeepAbsent(Text.SplitOn(request, ';'), ';');
    KeepStatementsClean(Text.SplitOn(request, ';'));
    KeepStatements(Text.SplitOn(request, ';'))
  }

  lemma {:induction false} KeepConcat(a: seq<string>, b: seq<string>)
    ensures KeepStatements(a + b) == KeepStatements(a) + KeepStatements(b)
  {
    if a == [] {
      assert a + b == b;
    } else {
      var p, rest := a[0], a[1..];
      assert a == [p] + rest && a + b == [p] + (rest + b);
      KeepConcat(rest, b);
      KeepCons(p, rest + b);
      KeepCons(p, rest);
      Associative(KeepStatements([p]), KeepStatements(rest), KeepStatements(b));
    }
  }

  /** One piece is kept stripped, or dropped when it is blank. */
  lemma KeepPiece(p: string)
    ensures KeepStatements([p]) == (if Text.Strip(p) == "" then [] else [Text.Strip(p)])
  {
    assert [p][1..] == [];
  }

  /** The first piece contributes what it keeps on its own. */
  lemma KeepCons(p: string, rest: seq<string>)
    ensures KeepStatements([p] + rest) == KeepStatements([p]) + KeepStatements(rest)
  {
    assert ([p] + rest)[0] == p && ([p] + rest)[1..] == rest;
    assert [p][1..] == [];
  }

  lemma Associative<T>(x: seq<T>, y: seq<T>, z: seq<T>)
    ensures x + (y + z) == (x + y) + z
  {
  }

  /** A piece without `;` is one statement, stripped, unless it is blank, when it is none. */
  lemma StatementsOfPiece(p: string)
    requires ';' !in p
    ensures Statements(p) == (if Text.Strip(p) == "" then [] else [Text.Strip(p)])
  {
    Text.SplitNoSeparator(p, ';');
  }

  /** A separator splits the statement list: the statements of `a;b` are those of `a` followed by those of `b`. */
  lemma StatementsConcat(a: string, b: string)
    ensures Statements(a + ";" + b) == Statements(a) + Statements(b)
  {
    Text.SplitAround(a, b, ';');
    KeepConcat(Text.SplitOn(a, ';'), Text.SplitOn(b, ';'));
  }

  /** A trailing separator adds no statement. */
  lemma StatementsTrailing(request: string)
    ensures Statements(request + ";") == Statements(request)
  {
    StatementsConcat(request, "");
    assert request + ";" + "" == request + ";";
    assert Text.SplitOn("", ';') == [""];
    assert Statements("") == [];
  }

  /** Statements whose own text is clean come back, in order, from the request that joins them with `;`. */
  lemma {:induction false} StatementsJoin(qs: seq<string>)
    requires |qs| >= 1
    requires forall i :: 0 <= i < |qs| ==> qs[i] != "" && ';' !in qs[i] && Text.Strip(qs[i]) == qs[i]
    ensures Statements(Text.Join(qs, ";")) == qs
  {
    Text.SplitJoin(qs, ';');
    KeepClean(qs);
  }

  lemma {:induction false} KeepClean(qs: seq<string>)
    requires forall i :: 0 <= i < |qs| ==> qs[i] != "" && Text.Strip(qs[i]) == qs[i]
    ensures KeepStatements(qs) == qs
  {
    if qs != [] {
      KeepClean(qs[1..]);
    }
  }

  // ---------------------------------------------------------------------------------------
  // Running the statements
  // ---------------------------------------------------------------------------------------

  /**
   * What the warehouse does with one statement sent through the cursor: the column names of
   * `cursor.description`, the rows of `cursor.fetchall()` and the state it is left in; or the
   * message of the exception it raises and the state it is left in then (a statement whose
   * `execute` took effect before `fetchall` or `description` raised stays in effect).
   */
  datatype Answer<S> = Fetched(columns: seq<string>, rows: seq<seq<Value>>, next: S) | Raised(message: string, next: S)

  /** Opening the connection, then the cursor. */
  datatype Connect = Connected | ConnectFailed(message: string) | CursorFailed(message: string)

  /** `dict(zip(column_names, row))`. */
  function RowDict(columns: seq<string>, row: seq<Value>): Value {
    Dict(OrderedDict.FromPairs(OrderedDict.Zip(columns, row)))
  }

  /** `[dict(zip(column_names, row)) for row in result]`. */
  function RowDicts(columns: seq<string>, rows: seq<seq<Value>>): (ds: seq<Value>)
    ensures |ds| == |rows|
    ensures forall i :: 0 <= i < |rows| ==> ds[i] == RowDict(columns, rows[i])
  {
    if rows == [] then [] else [RowDict(columns, rows[0])] + RowDicts(columns, rows[1..])
  }

  /** With distinct column names and full rows, each row dictionary pairs the i-th column with the i-th value. */
  lemma RowDictColumns(columns: seq<string>, row: seq<Value>)
    requires OrderedDict.Distinct(columns) && |row| == |columns|
    ensures RowDict(columns, row).entries == OrderedDict.Zip(columns, row)
    ensures OrderedDict.Keys(RowDict(columns, row).entries) == columns
    ensures forall i :: 0 <= i < |columns| ==> OrderedDict.Lookup(RowDict(columns, row).entries, columns[i]) == Some(row[i])
  {
    OrderedDict.ZipDict(columns, row);
    var d := RowDict(columns, row).entries;
    forall i | 0 <= i < |columns|
      ensures OrderedDict.Lookup(d, columns[i]) == Some(row[i])
    {
      LookupDistinct(d, i);
    }
  }

  lemma {:induction false} LookupDistinct<V>(d: seq<(string, V)>, i: nat)
    requires i < |d| && OrderedDict.Distinct(OrderedDict.Keys(d))
    ensures OrderedDict.Lookup(d, d[i].0) == Some(d[i].1)
  {
    if i > 0 {
      assert OrderedDict.Keys(d[1..]) == OrderedDict.Keys(d)[1..];
      assert d[0].0 != d[i].0;
      LookupDistinct(d[1..], i - 1);
    }
  }

  /**
   * The progress of the statement loop: the statements fetched so far with their tables (one
   * entry of `results` each), the warehouse state, the message of the exception that stopped the loop
   * (if any) and how many statements were sent to `cursor.execute`.
   */
  datatype Trace<S> = Trace(done: seq<Fetch>, state: S, failure: Option<string>, sent: nat)

  /**
   * A statement that ran and the table `cursor.fetchall()` returned for it, with the column
   * names of `cursor.description`; `Entry` turns it into the `{"query", "data"}` dictionary.
   */
  datatype Fetch = Fetch(query: string, columns: seq<string>, rows: seq<seq<Value>>)

  /**
   * One turn of the statement loop: unless an earlier statement raised, send `q` and either
   * record its rows or record its exception.
   */
  function Step<S>(run: (S, string) -> Answer<S>, t: Trace<S>, q: string): (r: Trace<S>)
    ensures t.failure.Some? ==> r == t
    ensures t.failure.None? ==> r.sent == t.sent + 1 && |t.done| <= |r.done| <= |t.done| + 1 && r.done[..|t.done|] == t.done
    ensures t.failure.None? ==> (r.failure.None? <==> run(t.state, q).Fetched?)
  {
    if t.failure.Some? then t
    else
      match run(t.state, q)
      case Raised(m, next) => Trace(t.done, next, Some(m), t.sent + 1)
      case Fetched(columns, rows, next) => Trace(t.done + [Fetch(q, columns, rows)], next, None, t.sent + 1)
  }

  /**
   * The first `n` turns of the statement loop over `qs` from warehouse state `s`. Without a
   * failure every one of those statements was sent and has exactly one entry, in submission
   * order.
   */
  function Run<S>(run: (S, string) -> Answer<S>, s: S, qs: seq<string>, n: nat): (t: Trace<S>)
    requires n <= |qs|
    ensures t.sent <= n
    ensures t.failure.None? ==> t.sent == n && |t.done| == n
    ensures t.failure.Some? ==> 1 <= t.sent && |t.done| == t.sent - 1
  {
    if n == 0 then Trace([], s, None, 0) else Step(run, Run(run, s, qs, n - 1), qs[n - 1])
  }

  /**
   * Without a failure, the entries follow the statements in submission order: the i-th entry
   * is the i-th statement with the table the warehouse fetched for it, in the state the
   * statements before it left.
   */
  lemma {:induction false} RunOrder<S>(run: (S, string) -> Answer<S>, s: S, qs: seq<string>, n: nat)
    requires n <= |qs|
    requires Run(run, s, qs, n).failure.None?
    ensures forall i :: 0 <= i < n ==>
              var a := run(Run(run, s, qs, i).state, qs[i]);
              a.Fetched? && Run(run, s, qs, n).done[i] == Fetch(qs[i], a.columns, a.rows)
  {
    forall i | 0 <= i < n
      ensures var a := run(Run(run, s, qs, i).state, qs[i]);
              a.Fetched? && Run(run, s, qs, n).done[i] == Fetch(qs[i], a.columns, a.rows)
    {
      RunEntry(run, s, qs, n, i);
    }
  }

  /** The i-th entry of a run without a failure, one statement at a time. */
  lemma {:induction false} RunEntry<S>(run: (S, string) -> Answer<S>, s: S, qs: seq<string>, n: nat, i: nat)
    requires i < n <= |qs|
    requires Run(run, s, qs, n).failure.None?
    ensures var a := run(Run(run, s, qs, i).state, qs[i]);
            a.Fetched? && Run(run, s, qs, n).done[i] == Fetch(qs[i], a.columns, a.rows)
  {
    RunGrows(run, s, qs, n);
    if i < n - 1 {
      RunEntry(run, s, qs, n - 1, i);
      var t := Run(run, s, qs, n);
      assert t.done[i] == t.done[..n - 1][i];
    }
  }

  /** A turn that did not fail added one entry, for its own statement, after the earlier ones. */
  lemma RunGrows<S>(run: (S, string) -> Answer<S>, s: S, qs: seq<string>, n: nat)
    requires 0 < n <= |qs|
    requires Run(run, s, qs, n).failure.None?
    ensures Run(run, s, qs, n - 1).failure.None?
    ensures Run(run, s, qs, n).done[..n - 1] == Run(run, s, qs, n - 1).done
    ensures var a := run(Run(run, s, qs, n - 1).state, qs[n - 1]);
            a.Fetched? && Run(run, s, qs, n).done[n - 1] == Fetch(qs[n - 1], a.columns, a.rows)
  {
    var t0, t := Run(run, s, qs, n - 1), Run(run, s, qs, n);
    assert t == Step(run, t0, qs[n - 1]);
    var a := run(t0.state, qs[n - 1]);
    assert t.done == t0.done + [Fetch(qs[n - 1], a.columns, a.rows)];
  }

  /** Running all of `qs`, stopping at the first statement that raises. */
  function Execute<S>(run: (S, string) -> Answer<S>, s: S, qs: seq<string>): (t: Trace<S>)
    ensures t.failure.None? ==> t.sent == |qs| && |t.done| == |qs|
    ensures t.failure.Some? ==> 1 <= t.sent <= |qs|
  {
    Run(run, s, qs, |qs|)
  }

  /** Once the first `j` statements have failed, running more of them changes nothing. */
  lemma {:induction false} RunStops<S>(run: (S, string) -> Answer<S>, s: S, qs: seq<string>, j: nat, n: nat)
    requires j <= n <= |qs|
    requires Run(run, s, qs, j).failure.Some?
    ensures Run(run, s, qs, n) == Run(run, s, qs, j)
  {
    if j < n {
      RunStops(run, s, qs, j, n - 1);
      RunFailed(run, s, qs, n);
    }
  }

  /** A turn after a failure leaves the trace as it was. */
  lemma RunFailed<S>(run: (S, string) -> Answer<S>, s: S, qs: seq<string>, n: nat)
    requires 0 < n <= |qs|
    requires Run(run, s, qs, n - 1).failure.Some?
    ensures Run(run, s, qs, n) == Run(run, s, qs, n - 1)
  {
  }

  /**
   * A failed run stopped at the first statement that raised: the statements before it all
   * succeeded, and its exception is the failure.
   */
  lemma {:induction false} RunFirstFailure<S>(run: (S, string) -> Answer<S>, s: S, qs: seq<string>, n: nat)
    requires n <= |qs|
    requires Run(run, s, qs, n).failure.Some?
    ensures var t := Run(run, s, qs, n);
            var before := Run(run, s, qs, t.sent - 1);
            && before.failure.None?
            && run(before.state, qs[t.sent - 1]) == Raised(t.failure.value, t.state)
            && t.done == before.done
  {
    var t0 := Run(run, s, qs, n - 1);
    if t0.failure.Some? {
      RunFirstFailure(run, s, qs, n - 1);
    }
  }

  /** The error value returned from the `except` branch: `[{"error": str(e)}]`. */
  function ErrorResult(message: string): Value {
    List([Dict([("error", Str(message))])])
  }

  /** `str(e)` for the IndexError raised by `results[0]` on an empty list. */
  const EmptyResultsMessage := "list index out of range"

  /** One entry of `results`: `{"query": q, "data": rows}`, each row a dictionary. */
  function Entry(f: Fetch): Value {
    Dict([("query", Str(f.query)), ("data", List(RowDicts(f.columns, f.rows)))])
  }

  function Entries(done: seq<Fetch>): (es: seq<Value>)
    ensures |es| == |done|
    ensures forall i :: 0 <= i < |done| ==> es[i] == Entry(done[i])
  {
    if done == [] then [] else [Entry(done[0])] + Entries(done[1..])
  }

  /**
   * What `query_snowflake` returns: the entries when more than one statement ran, the single
   * statement's rows when exactly one ran, and `[{"error": msg}]` when anything raised,
   * including `results[0]` on a request without statements.
   */
  function Aggregate<S>(connect: Connect, t: Trace<S>): (r: Value)
    ensures r.List?
    ensures connect.Connected? && t.failure.None? && |t.done| > 1 ==> |r.items| == |t.done|
  {
    if !connect.Connected? then ErrorResult(connect.message)
    else if t.failure.Some? then ErrorResult(t.failure.value)
    else if |t.done| > 1 then List(Entries(t.done))
    else if |t.done| == 1 then List(RowDicts(t.done[0].columns, t.done[0].rows))
    else ErrorResult(EmptyResultsMessage)
  }

  /** The value `query_snowflake(request)` returns. */
  function QueryResult<S>(run: (S, string) -> Answer<S>, s: S, connect: Connect, request: string): (r: Value)
    ensures r.List?
  {
    Aggregate(connect, Execute(run, s, Statements(request)))
  }

  /** A single statement's rows come back directly, one dictionary per row. */
  lemma QuerySingle<S>(run: (S, string) -> Answer<S>, s: S, request: string)
    requires |Statements(request)| == 1
    requires run(s, Statements(request)[0]).Fetched?
    ensures var a := run(s, Statements(request)[0]);
            QueryResult(run, s, Connected, request) == List(RowDicts(a.columns, a.rows))
  {
  }

  /**
   * Several statements give one `{query, data}` entry per statement, in submission order, each
   * holding the row dictionaries of what that statement fetched.
   */
  lemma QueryMany<S>(run: (S, string) -> Answer<S>, s: S, request: string)
    requires |Statements(request)| > 1
    requires Execute(run, s, Statements(request)).failure.None?
    ensures var r := QueryResult(run, s, Connected, request);
            var qs := Statements(request);
            && r.List? && |r.items| == |qs|
            && forall i :: 0 <= i < |qs| ==>
                 var a := run(Run(run, s, qs, i).state, qs[i]);
                 && a.Fetched?
                 && r.items[i] == Dict([("query", Str(qs[i])), ("data", List(RowDicts(a.columns, a.rows)))])
  {
    RunOrder(run, s, Statements(request), |Statements(request)|);
  }

  /**
   * Any exception collapses the call to `[{"error": msg}]`: a failed connection or cursor, or
   * the first failing statement, whose message is the one returned; the statements before it
   * all succeeded and their rows are discarded.
   */
  lemma QueryFailure<S>(run: (S, string) -> Answer<S>, s: S, connect: Connect, request: string)
    requires !connect.Connected? || Execute(run, s, Statements(request)).failure.Some?
    ensures !connect.Connected? ==> QueryResult(run, s, connect, request) == ErrorResult(connect.message)
    ensures connect.Connected? ==>
      var qs := Statements(request);
      var t := Execute(run, s, qs);
      var before := Run(run, s, qs, t.sent - 1);
      && before.failure.None?
      && run(before.state, qs[t.sent - 1]) == Raised(t.failure.value, t.state)
      && QueryResult(run, s, connect, request) == ErrorResult(t.failure.value)
  {
    if connect.Connected? {
      RunFirstFailure(run, s, Statements(request), |Statements(request)|);
    }
  }

  /** A request with no non-blank statement reaches `results[0]` on an empty list. */
  lemma QueryNoStatements<S>(run: (S, string) -> Answer<S>, s: S, request: string)
    requires Statements(request) == []
    ensures QueryResult(run, s, Connected, request) == ErrorResult(EmptyResultsMessage)
  {
  }

  /**
   * The result is always a list, and it is the empty list exactly when one statement ran and
   * returned no rows.
   */
  lemma QueryResultShape<S>(run: (S, string) -> Answer<S>, s: S, connect: Connect, request: string)
    ensures QueryResult(run, s, connect, request).List?
    ensures QueryResult(run, s, connect, request) == List([]) <==>
      var t := Execute(run, s, Statements(request));
      connect.Connected? && t.failure.None? && |t.done| == 1 && t.done[0].rows == []
  {
    var t := Execute(run, s, Statements(request));
    if connect.Connected? && t.failure.None? && |t.done| > 1 {
      assert |Entries(t.done)| > 1;
    }
  }

}

/**
 * The adapter itself: the warehouse object and the two functions of snowflake_utils.py,
 * proved against the specification in `QuerySpec`.
 */
module SnowflakeUtils {
  import opened Wrappers
  import opened Values
  import opened QuerySpec

  /**
   * The warehouse as the adapter sees it: its state (which every statement sent to it threads,
   * in order) and how many connections and cursors are open.
   */
  class Warehouse<S> {
    var state: S
    var openConnections: nat
    var openCursors: nat
    const run: (S, string) -> Answer<S>

    constructor (initial: S, run: (S, string) -> Answer<S>)
      ensures state == initial && this.run == run
      ensures openConnections == 0 && openCursors == 0
    {
      state := initial;
      this.run := run;
      openConnections := 0;
      openCursors := 0;
    }
  }

  /**
   * One turn of the loop of `query_snowflake`: `cursor.execute(q)`, then either the exception
   * or the fetched rows as dictionaries appended to `results`.
   */
  method ExecuteOne<S>(w: Warehouse<S>, t: Trace<S>, q: string) returns (t': Trace<S>)
    requires t.failure.None? && t.state == w.state
    modifies w`state
    ensures t' == Step(w.run, t, q) && w.state == t'.state
  {
    var answer := w.run(w.state, q);
    w.state := answer.next;
    if answer.Raised? {
      t' := Trace(t.done, answer.next, Some(answer.message), t.sent + 1);
    } else {
      t' := Trace(t.done + [Fetch(q, answer.columns, answer.rows)], answer.next, None, t.sent + 1);
    }
  }

  /**
   * The loop of `query_snowflake` over the statements, through an open cursor: the statements
   * are sent in order up to and including the first that raises, and the entries and the
   * failure are those of `Execute`.
   */
  method RunStatements<S>(w: Warehouse<S>, queries: seq<string>) returns (t: Trace<S>)
    modifies w`state
    ensures t == Execute(w.run, old(w.state), queries) && w.state == t.state
  {
    ghost var s0 := w.state;
    t := Trace([], w.state, None, 0);
    var i := 0;
    while i < |queries| && t.failure.None?
      invariant 0 <= i <= |queries|
      invariant t == Run(w.run, s0, queries, i) && w.state == t.state && t.sent == i
    {
      assert Run(w.run, s0, queries, i + 1) == Step(w.run, t, queries[i]);
      t := ExecuteOne(w, t, queries[i]);
      i := i + 1;
    }
    if t.failure.Some? {
      RunStops(w.run, s0, queries, i, |queries|);
    }
  }

  /**
   * `query_snowflake(request)`. The result is `QueryResult`; the statements are sent in order,
   * up to and including the first one that raises; whatever was opened is closed again.
   */
  method QuerySnowflake<S>(w: Warehouse<S>, request: string, connect: Connect) returns (result: Value)
    modifies w
    ensures result == QueryResult(w.run, old(w.state), connect, request)
    ensures connect.Connected? ==>
      var t := Execute(w.run, old(w.state), Statements(request));
      w.state == t.state
    ensures !connect.Connected? ==> w.state == old(w.state)
    ensures w.openConnections == old(w.openConnections) && w.openCursors == old(w.openCursors)
  {
    var connOpen, cursorOpen := false, false;
    if connect.ConnectFailed? {
      result := ErrorResult(connect.message);
    } else {
      w.openConnections := w.openConnections + 1;
      connOpen := true;
      if connect.CursorFailed? {
        result := ErrorResult(connect.message);
      } else {
        w.openCursors := w.openCursors + 1;
        cursorOpen := true;
        var queries := Statements(request);
        var t := RunStatements(w, queries);
        var results := t.done;
        if t.failure.Some? {
          result := ErrorResult(t.failure.value);
        } else if |results| > 1 {
          result := List(Entries(results));
        } else if |results| == 1 {
          result := List(RowDicts(results[0].columns, results[0].rows));
        } else {
          result := ErrorResult(EmptyResultsMessage);
        }
      }
    }
    // finally: close what was opened
    if cursorOpen {
      w.openCursors := w.openCursors - 1;
    }
    if connOpen {
      w.openConnections := w.openConnections - 1;
    }
  }
}
