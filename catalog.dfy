/**
 * `get_schema_details()`: the catalogue of the warehouse, read with SHOW TABLES and one
 * DESCRIBE TABLE per table, as a dictionary from table name to column names.
 */
module CatalogSpec {
  import opened Wrappers
  import opened Values
  import OrderedDict
  import opened QuerySpec

  /** `str(e)` for the IndexError raised by indexing a fetched row (a tuple) past its end. */
  const TupleIndexMessage := "tuple index out of range"

  /** `[row[k] for row in rows]`: fails on the first row that has no column `k`. */
  function Column(rows: seq<seq<Value>>, k: nat): (r: Result<seq<Value>>)
    ensures r.Ok? <==> forall i :: 0 <= i < |rows| ==> k < |rows[i]|
    ensures r.Ok? ==> |r.value| == |rows| && forall i :: 0 <= i < |rows| ==> r.value[i] == rows[i][k]
    ensures r.Err? ==> r.error == TupleIndexMessage
  {
    if rows == [] then Ok([])
    else if k >= |rows[0]| then Err(TupleIndexMessage)
    else
      match Column(rows[1..], k)
      case Err(m) => Err(m)
      case Ok(rest) =>
        assert forall i :: 1 <= i < |rows| ==> rows[i] == rows[1..][i - 1];
        Ok([rows[0][k]] + rest)
  }

  const ShowTables := "SHOW TABLES;"

  /** `f"DESCRIBE TABLE {table};"` */
  function DescribeTable(table: Value, show: Value -> string): string {
    "DESCRIBE TABLE " + Values.Text(table, show) + ";"
  }

  /**
   * Progress of the loop over the tables: the (table, column names) assignments made so far,
   * the warehouse state and the message of the exception that stopped the loop, if any.
   */
  datatype Catalog<S> = Catalog(pairs: seq<(Value, seq<Value>)>, state: S, failure: Option<string>)

  /** One turn of the loop: describe `table` and keep column 0 of every row. */
  function DescribeStep<S>(run: (S, string) -> Answer<S>, show: Value -> string, c: Catalog<S>, table: Value): Catalog<S> {
    if c.failure.Some? then c
    else
      match run(c.state, DescribeTable(table, show))
      case Raised(m, next) => Catalog(c.pairs, next, Some(m))
      case Fetched(_, rows, next) =>
        match Column(rows, 0)
        case Err(m) => Catalog(c.pairs, next, Some(m))
        case Ok(columns) => Catalog(c.pairs + [(table, columns)], next, None)
  }

  /** The first `n` turns of the loop over `tables`. */
  function Describe<S>(run: (S, string) -> Answer<S>, show: Value -> string, s: S, tables: seq<Value>, n: nat): (c: Catalog<S>)
    requires n <= |tables|
    ensures c.failure.None? ==> |c.pairs| == n
  {
    if n == 0 then Catalog([], s, None) else DescribeStep(run, show, Describe(run, show, s, tables, n - 1), tables[n - 1])
  }

  /** Once a DESCRIBE has failed, the remaining tables change nothing. */
  lemma {:induction false} DescribeStops<S>(run: (S, string) -> Answer<S>, show: Value -> string, s: S, tables: seq<Value>, j: nat, n: nat)
    requires j <= n <= |tables|
    requires Describe(run, show, s, tables, j).failure.Some?
    ensures Describe(run, show, s, tables, n) == Describe(run, show, s, tables, j)
  {
    if j < n {
      DescribeStops(run, show, s, tables, j, n - 1);
    }
  }

  /** Schema details: table name to its column names, or the message of the exception raised. */
  datatype Schema = Tables(tables: seq<(Value, seq<Value>)>) | SchemaError(message: string)

  /** What `get_schema_details()` returns. */
  function SchemaDetails<S>(run: (S, string) -> Answer<S>, s: S, connect: Connect, show: Value -> string): (r: Schema)
    ensures !connect.Connected? ==> r == SchemaError(connect.message)
    ensures connect.Connected? && run(s, ShowTables).Raised? ==> r == SchemaError(run(s, ShowTables).message)
  {
    if !connect.Connected? then SchemaError(connect.message)
    else
      match run(s, ShowTables)
      case Raised(m, _) => SchemaError(m)
      case Fetched(_, rows, s1) =>
        match Column(rows, 1)
        case Err(m) => SchemaError(m)
        case Ok(tables) =>
          var c := Describe(run, show, s1, tables, |tables|);
          if c.failure.Some? then SchemaError(c.failure.value) else Tables(OrderedDict.FromPairs(c.pairs))
  }

  /**
   * The warehouse state `get_schema_details()` leaves: unchanged without a cursor, the state
   * SHOW TABLES left when it raised, and otherwise the state after SHOW TABLES and every
   * DESCRIBE up to and including the first that failed.
   */
  function SchemaState<S>(run: (S, string) -> Answer<S>, s: S, connect: Connect, show: Value -> string): S {
    if !connect.Connected? then s
    else
      match run(s, ShowTables)
      case Raised(_, s1) => s1
      case Fetched(_, rows, s1) =>
        match Column(rows, 1)
        case Err(_) => s1
        case Ok(tables) => Describe(run, show, s1, tables, |tables|).state
  }

  /** What the DESCRIBE of the i-th table returned, in the state the earlier turns left. */
  function DescribeAnswer<S>(run: (S, string) -> Answer<S>, show: Value -> string, s: S, tables: seq<Value>, i: nat): Answer<S>
    requires i < |tables|
  {
    run(Describe(run, show, s, tables, i).state, DescribeTable(tables[i], show))
  }

  /** The i-th turn succeeded and assigned `columns` to the i-th table. */
  predicate Assigned<S>(run: (S, string) -> Answer<S>, show: Value -> string, s: S, tables: seq<Value>, i: nat, entry: (Value, seq<Value>))
    requires i < |tables|
  {
    var a := DescribeAnswer(run, show, s, tables, i);
    a.Fetched? && Column(a.rows, 0) == Ok(entry.1) && entry.0 == tables[i]
  }

  /**
   * Without a failure, the i-th assignment is the i-th table with column 0 of the rows its
   * DESCRIBE returned.
   */
  lemma {:induction false} DescribeOrder<S>(run: (S, string) -> Answer<S>, show: Value -> string, s: S, tables: seq<Value>, n: nat)
    requires n <= |tables|
    requires Describe(run, show, s, tables, n).failure.None?
    ensures forall i :: 0 <= i < n ==> Assigned(run, show, s, tables, i, Describe(run, show, s, tables, n).pairs[i])
  {
    if n > 0 {
      var c0 := Describe(run, show, s, tables, n - 1);
      var c := Describe(run, show, s, tables, n);
      assert c == DescribeStep(run, show, c0, tables[n - 1]);
      assert c0.failure.None?;
      DescribeOrder(run, show, s, tables, n - 1);
      var a := DescribeAnswer(run, show, s, tables, n - 1);
      assert a.Fetched?;
      var entry := (tables[n - 1], Column(a.rows, 0).value);
      assert c.pairs == c0.pairs + [entry];
      forall i | 0 <= i < n ensures Assigned(run, show, s, tables, i, c.pairs[i]) {
        if i < n - 1 {
          assert c.pairs[i] == c0.pairs[i];
        }
      }
    }
  }

  /** Without a failure, the tables are assigned in the order listed. */
  lemma DescribeKeys<S>(run: (S, string) -> Answer<S>, show: Value -> string, s: S, tables: seq<Value>)
    requires Describe(run, show, s, tables, |tables|).failure.None?
    ensures OrderedDict.Keys(Describe(run, show, s, tables, |tables|).pairs) == tables
  {
    var c := Describe(run, show, s, tables, |tables|);
    DescribeOrder(run, show, s, tables, |tables|);
    var ks := OrderedDict.Keys(c.pairs);
    forall i | 0 <= i < |tables| ensures ks[i] == tables[i] {
      assert Assigned(run, show, s, tables, i, c.pairs[i]);
    }
  }

  /**
   * With distinct table names, the schema maps each name listed by SHOW TABLES (its column 1),
   * in order, to column 0 of the rows of its DESCRIBE TABLE.
   */
  lemma SchemaTables<S>(run: (S, string) -> Answer<S>, s: S, show: Value -> string, tables: seq<Value>)
    requires run(s, ShowTables).Fetched? && Column(run(s, ShowTables).rows, 1) == Ok(tables)
    requires OrderedDict.Distinct(tables)
    requires Describe(run, show, run(s, ShowTables).next, tables, |tables|).failure.None?
    ensures var r := SchemaDetails(run, s, Connected, show);
            && r.Tables?
            && OrderedDict.Keys(r.tables) == tables
            && forall i :: 0 <= i < |tables| ==> Assigned(run, show, run(s, ShowTables).next, tables, i, r.tables[i])
  {
    var s1 := run(s, ShowTables).next;
    var c := Describe(run, show, s1, tables, |tables|);
    DescribeOrder(run, show, s1, tables, |tables|);
    DescribeKeys(run, show, s1, tables);
    OrderedDict.FromPairsOfDistinct(c.pairs);
    assert SchemaDetails(run, s, Connected, show) == Tables(c.pairs);
  }

  /** A failing DESCRIBE discards the tables read so far: the result is `{"error": msg}` with its message. */
  lemma SchemaFailure<S>(run: (S, string) -> Answer<S>, s: S, connect: Connect, show: Value -> string)
    requires connect.Connected? && run(s, ShowTables).Fetched?
    requires Column(run(s, ShowTables).rows, 1).Ok?
    requires var tables := Column(run(s, ShowTables).rows, 1).value;
             Describe(run, show, run(s, ShowTables).next, tables, |tables|).failure.Some?
    ensures var tables := Column(run(s, ShowTables).rows, 1).value;
            SchemaDetails(run, s, connect, show)
            == SchemaError(Describe(run, show, run(s, ShowTables).next, tables, |tables|).failure.value)
  {
  }
}

/** The catalogue reader over the warehouse connection. */
module SchemaReader {
  import opened Wrappers
  import opened Values
  import OrderedDict
  import opened QuerySpec
  import opened CatalogSpec
  import opened SnowflakeUtils

  /** The loop of `get_schema_details` over the tables: `schema_details[table] = [row[0] for row in ...]`. */
  method DescribeTables<S>(w: Warehouse<S>, tables: seq<Value>, show: Value -> string)
    returns (schema: seq<(Value, seq<Value>)>, failure: Option<string>)
    modifies w`state
    ensures var c := Describe(w.run, show, old(w.state), tables, |tables|);
            && failure == c.failure && w.state == c.state
            && (failure.None? ==> schema == OrderedDict.FromPairs(c.pairs))
  {
    ghost var s0 := w.state;
    ghost var pairs: seq<(Value, seq<Value>)> := [];
    schema, failure := [], None;
    var i := 0;
    while i < |tables| && failure.None?
      invariant 0 <= i <= |tables|
      invariant Describe(w.run, show, s0, tables, i) == Catalog(pairs, w.state, failure)
      invariant schema == OrderedDict.FromPairs(pairs)
    {
      var table := tables[i];
      var statement := DescribeTable(table, show);
      var answer := w.run(w.state, statement);
      w.state := answer.next;
      if answer.Raised? {
        failure := Some(answer.message);
      } else {
        var columns := Column(answer.rows, 0);
        if columns.Err? {
          failure := Some(columns.error);
        } else {
          assert (pairs + [(table, columns.value)])[..|pairs|] == pairs;
          schema := OrderedDict.Put(schema, table, columns.value);
          pairs := pairs + [(table, columns.value)];
        }
      }
      i := i + 1;
    }
    if failure.Some? {
      DescribeStops(w.run, show, s0, tables, i, |tables|);
    }
  }

  /**
   * `get_schema_details()`: the result is `SchemaDetails`, the warehouse is left in
   * `SchemaState`, and whatever was opened is closed again.
   */
  method GetSchemaDetails<S>(w: Warehouse<S>, connect: Connect, show: Value -> string) returns (result: Schema)
    modifies w
    ensures result == SchemaDetails(w.run, old(w.state), connect, show)
    ensures w.state == SchemaState(w.run, old(w.state), connect, show)
    ensures !connect.Connected? ==> w.state == old(w.state)
    ensures w.openConnections == old(w.openConnections) && w.openCursors == old(w.openCursors)
  {
    var connOpen, cursorOpen := false, false;
    if connect.ConnectFailed? {
      result := SchemaError(connect.message);
    } else {
      w.openConnections := w.openConnections + 1;
      connOpen := true;
      if connect.CursorFailed? {
        result := SchemaError(connect.message);
      } else {
        w.openCursors := w.openCursors + 1;
        cursorOpen := true;
        var answer := w.run(w.state, ShowTables);
        w.state := answer.next;
        if answer.Raised? {
          result := SchemaError(answer.message);
        } else {
          var tables := Column(answer.rows, 1);
          if tables.Err? {
            result := SchemaError(tables.error);
          } else {
            var schema, failure := DescribeTables(w, tables.value, show);
            result := if failure.Some? then SchemaError(failure.value) else Tables(schema);
          }
        }
      }
    }
    // finally: close what was opened
    if cursorOpen {
      w.openCursors := w.openCursors - 1;
    }
    if connOpen {
      w.openConnections := w.openConnections - 1;
    }
  }
}
