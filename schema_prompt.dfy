/**
 * The schema text placed in the system prompt: one line `Table: T, Columns: c1, c2, ...` per
 * entry of the schema details, joined with newlines.
 */
module SchemaPrompt {
  import opened Wrappers
  import opened Values
  import Text
  import opened CatalogSpec

  /** The index of the first item that is not a str, if any. */
  function FirstNonString(items: seq<Value>): (r: Option<nat>)
    ensures r.None? <==> forall i :: 0 <= i < |items| ==> items[i].Str?
    ensures r.Some? ==> r.value < |items| && !items[r.value].Str?
    ensures r.Some? ==> forall i :: 0 <= i < r.value ==> items[i].Str?
  {
    if items == [] then None
    else if !items[0].Str? then Some(0)
    else
      match FirstNonString(items[1..])
      case None => None
      case Some(k) => Some(k + 1)
  }

  /** The strings held by items that are all str. */
  function Strings(items: seq<Value>): (r: seq<string>)
    requires forall i :: 0 <= i < |items| ==> items[i].Str?
    ensures |r| == |items| && forall i :: 0 <= i < |items| ==> r[i] == items[i].s
  {
    if items == [] then [] else [items[0].s] + Strings(items[1..])
  }

  /** `', '.join(items)`: a TypeError naming the first item that is not a str. */
  function JoinItems(items: seq<Value>): (r: Result<string>)
    ensures r.Ok? <==> forall i :: 0 <= i < |items| ==> items[i].Str?
    ensures r.Ok? ==> r.value == Text.Join(Strings(items), ", ")
    ensures r.Err? ==>
      var k := FirstNonString(items);
      && k.Some?
      && r.error == "sequence item " + Text.Decimal(k.value) + ": expected str instance, " + TypeName(items[k.value]) + " found"
  {
    match FirstNonString(items)
    case None => Ok(Text.Join(Strings(items), ", "))
    case Some(k) =>
      Err("sequence item " + Text.Decimal(k) + ": expected str instance, " + TypeName(items[k]) + " found")
  }

  /** `f"Table: {table}, Columns: {', '.join(columns)}"` */
  function Line(table: Value, columns: seq<Value>, show: Value -> string): (r: Result<string>)
    ensures r.Ok? <==> forall i :: 0 <= i < |columns| ==> columns[i].Str?
    ensures r.Ok? ==> "Table: " <= r.value
    ensures r.Err? ==> r == JoinItems(columns)
  {
    match JoinItems(columns)
    case Err(m) => Err(m)
    case Ok(joined) => Ok("Table: " + Values.Text(table, show) + ", Columns: " + joined)
  }

  /** The comprehension over `schema_details.items()`: stops at the first entry that raises. */
  function Lines(entries: seq<(Value, seq<Value>)>, show: Value -> string): (r: Result<seq<string>>)
    ensures r.Ok? <==> forall i :: 0 <= i < |entries| ==> Line(entries[i].0, entries[i].1, show).Ok?
    ensures r.Ok? ==> |r.value| == |entries|
    ensures r.Ok? ==> forall i :: 0 <= i < |entries| ==> Ok(r.value[i]) == Line(entries[i].0, entries[i].1, show)
  {
    if entries == [] then Ok([])
    else
      match Line(entries[0].0, entries[0].1, show)
      case Err(m) => Err(m)
      case Ok(first) =>
        match Lines(entries[1..], show)
        case Err(m) =>
          assert !Line(entries[1..][0].0, entries[1..][0].1, show).Ok? || exists i :: 1 <= i < |entries| && !Line(entries[i].0, entries[i].1, show).Ok?;
          Err(m)
        case Ok(rest) => Ok([first] + rest)
  }

  /** One str item per character of `s`: what `', '.join(s)` iterates over when `s` is a string. */
  function Characters(s: string): (r: seq<Value>)
    ensures |r| == |s| && forall i :: 0 <= i < |s| ==> r[i] == Str([s[i]])
  {
    if s == [] then [] else [Str([s[0]])] + Characters(s[1..])
  }

  /**
   * `schema_text`. The error dictionary `{"error": msg}` has the single item `("error", msg)`,
   * and joining a string joins its characters.
   */
  function SchemaText(schema: Schema, show: Value -> string): (r: Result<string>)
    ensures schema.SchemaError? ==> r.Ok?
    ensures schema.Tables? ==> (r.Ok? <==> Lines(schema.tables, show).Ok?)
  {
    match schema
    case SchemaError(m) => Line(Str("error"), Characters(m), show)
    case Tables(entries) =>
      match Lines(entries, show)
      case Err(m) => Err(m)
      case Ok(lines) => Ok(Text.Join(lines, "\n"))
  }

  /** Python's ', '.join of single characters places the i-th character at offset 3i. */
  lemma {:induction false} JoinCharacters(s: string)
    ensures var r := Text.Join(Strings(Characters(s)), ", ");
            && |r| == (if s == [] then 0 else 3 * |s| - 2)
            && forall i :: 0 <= i < |s| ==> r[3 * i] == s[i]
  {
    if |s| > 1 {
      var rest := s[1..];
      var r, tail := Text.Join(Strings(Characters(s)), ", "), Text.Join(Strings(Characters(rest)), ", ");
      JoinCharacters(rest);
      JoinCharactersUnfold(s);
      forall i | 1 <= i < |s| ensures r[3 * i] == s[i] {
        assert r[3 * i] == tail[3 * (i - 1)];
        assert s[i] == rest[i - 1];
      }
    }
  }

  /** ... and the separator `, ` right after every character but the last. */
  lemma {:induction false} JoinSeparators(s: string)
    ensures var r := Text.Join(Strings(Characters(s)), ", ");
            forall i :: 0 <= i < |s| - 1 ==> 3 * i + 2 < |r| && r[3 * i + 1] == ',' && r[3 * i + 2] == ' '
  {
    JoinCharacters(s);
    if |s| > 1 {
      var rest := s[1..];
      var r, tail := Text.Join(Strings(Characters(s)), ", "), Text.Join(Strings(Characters(rest)), ", ");
      JoinSeparators(rest);
      JoinCharactersUnfold(s);
      forall i | 1 <= i < |s| - 1 ensures r[3 * i + 1] == ',' && r[3 * i + 2] == ' ' {
        assert r[3 * i + 1] == tail[3 * (i - 1) + 1];
        assert r[3 * i + 2] == tail[3 * (i - 1) + 2];
      }
    }
  }

  /** The first character, the separator, then the join of the remaining characters. */
  lemma JoinCharactersUnfold(s: string)
    requires |s| > 1
    ensures Text.Join(Strings(Characters(s)), ", ") == [s[0]] + ", " + Text.Join(Strings(Characters(s[1..])), ", ")
  {
    var parts := Strings(Characters(s));
    assert parts[1..] == Strings(Characters(s[1..]));
  }

  /** The error dictionary's one line: its key and the characters of its message, joined. */
  lemma ErrorLine(m: string, show: Value -> string)
    ensures SchemaText(SchemaError(m), show) == Ok("Table: error, Columns: " + Text.Join(Strings(Characters(m)), ", "))
  {
    var joined := Text.Join(Strings(Characters(m)), ", ");
    assert JoinItems(Characters(m)) == Ok(joined);
    assert Values.Text(Str("error"), show) == "error";
    assert "Table: " + "error" + ", Columns: " + joined == "Table: error, Columns: " + joined;
  }

  /**
   * When the schema could not be read, the text is the one line `Table: error, Columns: ...` whose
   * columns are the characters of the error message, separated by ", ".
   */
  lemma ErrorSchemaText(m: string, show: Value -> string)
    ensures var r := SchemaText(SchemaError(m), show);
            && r.Ok?
            && r.value[..23] == "Table: error, Columns: "
            && |r.value| == 23 + (if m == [] then 0 else 3 * |m| - 2)
            && (forall i :: 0 <= i < |m| ==> r.value[23 + 3 * i] == m[i])
            && (forall i :: 0 <= i < |m| - 1 ==> r.value[24 + 3 * i] == ',' && r.value[25 + 3 * i] == ' ')
  {
    var joined := Text.Join(Strings(Characters(m)), ", ");
    ErrorLine(m, show);
    JoinCharacters(m);
    JoinSeparators(m);
    var line := "Table: error, Columns: " + joined;
    assert forall k :: 0 <= k < |joined| ==> line[23 + k] == joined[k];
    forall i | 0 <= i < |m| ensures line[23 + 3 * i] == m[i] {
      assert line[23 + 3 * i] == joined[3 * i];
    }
    forall i | 0 <= i < |m| - 1 ensures line[24 + 3 * i] == ',' && line[25 + 3 * i] == ' ' {
      assert line[23 + (3 * i + 1)] == joined[3 * i + 1];
      assert line[23 + (3 * i + 2)] == joined[3 * i + 2];
    }
  }

  /** A line has no newline when neither the table name nor any column name has one. */
  lemma LineSingle(table: Value, columns: seq<Value>, show: Value -> string)
    requires Line(table, columns, show).Ok?
    requires '\n' !in Values.Text(table, show)
    requires forall i :: 0 <= i < |columns| ==> columns[i].Str? && '\n' !in columns[i].s
    ensures '\n' !in Line(table, columns, show).value
  {
    Text.JoinAbsent(Strings(columns), ", ", '\n');
  }

  /**
   * With names free of newlines, the schema text splits back into exactly one line per table, in
   * the order of the schema, each `Table: T, Columns: ...`.
   */
  lemma SchemaTextLines(entries: seq<(Value, seq<Value>)>, show: Value -> string)
    requires entries != []
    requires forall i :: 0 <= i < |entries| ==> '\n' !in Values.Text(entries[i].0, show)
    requires forall i, j :: 0 <= i < |entries| && 0 <= j < |entries[i].1| ==>
               entries[i].1[j].Str? && '\n' !in entries[i].1[j].s
    ensures var r := SchemaText(Tables(entries), show);
            && r.Ok?
            && var lines := Text.SplitOn(r.value, '\n');
               && |lines| == |entries|
               && forall i :: 0 <= i < |entries| ==> Ok(lines[i]) == Line(entries[i].0, entries[i].1, show)
  {
    forall i | 0 <= i < |entries| ensures Line(entries[i].0, entries[i].1, show).Ok? {
      assert JoinItems(entries[i].1).Ok?;
    }
    var lines := Lines(entries, show).value;
    forall i | 0 <= i < |lines| ensures '\n' !in lines[i] {
      LineSingle(entries[i].0, entries[i].1, show);
    }
    Text.SplitJoin(lines, '\n');
  }

  /** An empty catalogue gives an empty schema text. */
  lemma EmptySchemaText(show: Value -> string)
    ensures SchemaText(Tables([]), show) == Ok("")
  {
  }
}
