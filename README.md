# Snowflake chat assistant: a Dafny model of its core

The assistant turns a natural-language question into Snowflake SQL with a language model. It runs
the SQL, has the model summarise the result, and records every turn. Each record goes into a
local SQLite table `query_result`, and from there it is replicated into the warehouse table
`LoginTable`.

This project models the core of that program:

- **The query adapter** (`query_snowflake`). The request is split on `;`, each statement is
  stripped, and blank statements are dropped. The statements run in order on one cursor, and
  each result row becomes a dictionary. The caller gets the single statement's rows directly,
  or a list of `{query, data}` entries when there were several, or `[{"error": msg}]` as soon
  as anything raises. A request with no statements also ends in an error: `results[0]` on an
  empty list raises `IndexError`.
- **The catalogue reader** (`get_schema_details`). It runs `SHOW TABLES`, then one
  `DESCRIBE TABLE` per table, and builds an insertion-ordered table-to-columns dictionary.
  Any exception gives `{"error": msg}`.
- **The schema text built into the system prompt.** On the error dictionary, the
  `', '.join(columns)` in that text joins the characters of the message string. The model
  proves exactly what line this produces.
- **The record** `QueryResult` and the normalisation `save_query_result` applies to it. Each
  column is `str(v) if v else None`. The raw response is always `str`. The creation time and
  the sync flag take their defaults.
- **The local store and the replication `sync_sqlite_to_snowflake`.** A sync selects the
  unsynced rows, checks the seven credentials, appends the batch to the remote table, and only
  then flags the batch in a separate transaction. That gives at-least-once delivery: a failed
  marking duplicates the batch on the next run.
- **The console loop of `main2.py`.** This covers the exit words, the answer cache
  `query_memory`, the parse-error and no-result branches, the running token total, and the
  crash of the loop when running the action raises.
- **The chat turn of the web application.** The prompt goes into both the conversation and
  the visible history. The two model calls sit inside one `try`. Every exception is recorded
  and shown as `Error: ...`. Every Streamlit rerun rebuilds the system prompt from a fresh
  schema and sends that to the first call, while the conversation keeps the first run's prompt
  as its opening entry. The sidebar's sync button is modelled as well.

Some behaviour comes from code this model cannot see. Each such piece is a parameter of the
model:

- **The warehouse.** A function `run` from a state and a statement to an answer. The answer
  carries the state the warehouse is left in even when the statement raises, because `execute`
  can take effect before `fetchall` or `description` fails. The connection attempt is a
  `Connect` value.
- **The model's reply.** A `Reply`: content with tokens, a failure to build the client, or a
  failed request. The library function `get_groq_response` (groq_utils.py) turns a reply into
  the text and token count the callers see, and the model follows that function's code.
- **`parse_action_response`.** The function `parse`.
- **`execute_action`.** A per-turn `Result<Value>`: the value returned or the message raised.
- **`str()` on non-string values.** The function `show`.
- **The clock, the commit outcomes, the credentials and which replication steps raise.**
  The per-call inputs `SaveIo` and `SyncFaults`.

Stateful parts are classes whose methods are proved against specification functions:

- `Warehouse` (the cursor's session);
- `Store` (the SQLite table);
- `Remote` (the warehouse table);
- `ReplSession` and `ChatSession` (the two front ends).

The lemmas beside those functions state what the program promises.

Behaviour of the code worth noting:

- On the web path every exception is recorded with the first model reply as raw response and
  with a null SQL text. The only statements that can raise come before `sql_query` is assigned,
  and each Streamlit run is a fresh call of `main_app`, so `'sql_query' in locals()` is false
  whenever the `except` block runs.
- The web path has no check of the result's shape. An `[{"error": ...}]` list from the query
  adapter is summarised and saved as a success, with no error message.
- In the console loop an exception raised by the action, or by reading its SQL text, is not
  caught. It ends the program, and no record is saved for that turn.
- The console loop caches the second call's text even when that call failed (`Error: ...`).
  The same question then gets that error back from the cache.

## Model

| member | source | states |
|---|---|---|
| QuerySpec.Statements | snowflake_utils.py:22 | every statement kept is non-empty, contains no `;` and is already stripped |
| QuerySpec.StatementsConcat | snowflake_utils.py:22 | splitting `a;b` gives the statements of `a` followed by those of `b` |
| QuerySpec.StatementsOfPiece | snowflake_utils.py:22 | a piece without `;` gives its stripped text as the one statement, or no statement when it is blank |
| QuerySpec.StatementsTrailing | snowflake_utils.py:22 | a trailing `;` adds no statement |
| QuerySpec.StatementsJoin | snowflake_utils.py:22 | clean statements joined with `;` split back into the same statements (round trip) |
| QuerySpec.KeepStatements | snowflake_utils.py:22 | the list comprehension never yields more statements than there are pieces |
| QuerySpec.KeepPiece | snowflake_utils.py:22 | one piece is kept as its stripped text, or dropped when it is blank; with `KeepConcat` this fixes the whole comprehension |
| QuerySpec.KeepConcat | snowflake_utils.py:22 | the comprehension over concatenated pieces is the concatenation of the comprehensions, so order is kept |
| QuerySpec.KeepStatementsClean | snowflake_utils.py:22 | every statement kept is non-empty and already stripped |
| QuerySpec.RowDicts | snowflake_utils.py:27-29 | one dictionary per fetched row, in fetch order |
| QuerySpec.RowDict | snowflake_utils.py:28-29 | `dict(zip(column_names, row))`: the pairs of column name and row value, a later repeated name overriding an earlier one (stated by `RowDictColumns`) |
| QuerySpec.RowDictColumns | snowflake_utils.py:28-29 | with distinct column names, the row dictionary has the columns as keys in order and maps each to its row value |
| QuerySpec.Run | snowflake_utils.py:25-29 | without a failure every statement was sent and has one entry; with one, the entries are those before the failing statement |
| QuerySpec.Step | snowflake_utils.py:25-29 | after a failure a turn changes nothing; otherwise it sends one more statement, keeps the earlier entries, and fails exactly when the warehouse raises |
| QuerySpec.Execute | snowflake_utils.py:24-29 | without a failure every statement was sent and has one entry; with one, between one and all statements were sent |
| QuerySpec.RunOrder | snowflake_utils.py:25-29 | without a failure the i-th entry is the i-th statement with the table the warehouse fetched for it, in the state the earlier statements left |
| QuerySpec.RunEntry | snowflake_utils.py:25-29 | the same for one index, by induction over the turns |
| QuerySpec.RunStops | snowflake_utils.py:25-35 | once a statement raised, no further statement is sent |
| QuerySpec.RunFirstFailure | snowflake_utils.py:25-35 | the reported failure is the first statement that raised, all statements before it succeeded, and their rows are dropped; the warehouse is left in the state the raising statement left it |
| QuerySpec.Entries | snowflake_utils.py:29 | one `{query, data}` entry per executed statement |
| QuerySpec.Entry | snowflake_utils.py:29 | the `{"query": q, "data": [...]}` dictionary of one statement, its rows turned into dictionaries (stated by `Entries` and `QueryMany`) |
| QuerySpec.ErrorResult | snowflake_utils.py:34-35 | the `except` value `[{"error": str(e)}]` (stated by `QueryFailure`) |
| QuerySpec.Aggregate | snowflake_utils.py:31-35 | the value returned is always a list, with one entry per statement when more than one ran |
| QuerySpec.QueryResult | snowflake_utils.py:5-41 | `query_snowflake` always returns a list |
| QuerySpec.QuerySingle | snowflake_utils.py:31-32 | one statement returns its row dictionaries directly |
| QuerySpec.QueryMany | snowflake_utils.py:29-32 | several statements give one `{"query": q, "data": rows}` entry per statement, in order, whose rows are the dictionaries of what that statement fetched |
| QuerySpec.QueryFailure | snowflake_utils.py:9-35 | a failed connection or cursor, or the first failing statement, gives `[{"error": msg}]` with that message |
| QuerySpec.QueryNoStatements | snowflake_utils.py:32-35 | a request without statements gives the IndexError message `list index out of range` |
| QuerySpec.QueryResultShape | snowflake_utils.py:5-41 | the result is always a list, and it is empty exactly when one statement ran and fetched no rows |
| SnowflakeUtils.Warehouse.constructor | snowflake_utils.py:11-19 | a fresh warehouse session has no open connection or cursor |
| SnowflakeUtils.ExecuteOne | snowflake_utils.py:26-29 | executing one statement advances the trace and the warehouse state as `Step` says |
| SnowflakeUtils.RunStatements | snowflake_utils.py:24-29 | the loop leaves the trace and the warehouse state of `Execute` over all statements |
| SnowflakeUtils.QuerySnowflake | snowflake_utils.py:5-41 | returns `QueryResult` of the request, and the connection and cursor opened are closed again |
| CatalogSpec.Column | snowflake_utils.py:62-68 | `[row[k] for row in rows]` succeeds exactly when every row is long enough, and then holds the k-th values in order; otherwise it raises the tuple IndexError |
| CatalogSpec.DescribeTable | snowflake_utils.py:67 | the statement `DESCRIBE TABLE {table};` with the table rendered by `str` (the statement `DescribeOrder` runs for each table) |
| CatalogSpec.Describe | snowflake_utils.py:66-68 | without a failure there is one (table, columns) pair per table described |
| CatalogSpec.DescribeStep | snowflake_utils.py:67-68 | one turn of the loop: after a failure nothing; otherwise the DESCRIBE, then column 0 of its rows assigned to the table, or the exception |
| CatalogSpec.DescribeStops | snowflake_utils.py:66-73 | after a failing DESCRIBE no further table is described |
| CatalogSpec.DescribeOrder | snowflake_utils.py:66-68 | the i-th pair holds the i-th table with the first column of its DESCRIBE rows, run in the state the earlier tables left |
| CatalogSpec.DescribeKeys | snowflake_utils.py:66-68 | the pairs' tables are exactly the tables listed, in order |
| CatalogSpec.SchemaTables | snowflake_utils.py:45-70 | for distinct table names the result maps exactly the listed tables, in order, to their described columns |
| CatalogSpec.SchemaFailure | snowflake_utils.py:66-73 | a failing DESCRIBE discards the whole dictionary and returns its message |
| CatalogSpec.SchemaDetails | snowflake_utils.py:45-73 | a failed connection or cursor, or a raising SHOW TABLES, returns `{"error": msg}` with that message |
| CatalogSpec.SchemaState | snowflake_utils.py:49-70 | the warehouse state left by SHOW TABLES and the DESCRIBE statements up to and including the first failure, a raising statement included; unchanged without a cursor |
| SchemaReader.DescribeTables | snowflake_utils.py:65-68 | the loop builds the dictionary `Describe` specifies and leaves its warehouse state |
| SchemaReader.GetSchemaDetails | snowflake_utils.py:45-79 | returns `SchemaDetails`, leaves the warehouse in `SchemaState` (unchanged when no cursor was opened), and closes the connection and cursor it opened |
| OrderedDict.Put | snowflake_utils.py:68 | assignment to a key binds it and leaves what every other key maps to unchanged |
| OrderedDict.PutKeys | snowflake_utils.py:68 | assignment keeps a present key in its place and appends a new key after all the others |
| OrderedDict.PutAppends | snowflake_utils.py:68 | a key not yet present is appended with its value |
| OrderedDict.FromPairs | snowflake_utils.py:65-68 | a dictionary built by assigning the pairs in order (stated by `FromPairsLookup` and `FromPairsOfDistinct`) |
| OrderedDict.Lookup | main2.py:168 | `d.get(k)` is absent exactly when k is not a key |
| OrderedDict.FromPairsLookup | snowflake_utils.py:66-68 | building a dictionary from pairs keeps the last value given for each key |
| OrderedDict.FromPairsOfDistinct | snowflake_utils.py:29 | pairs with distinct keys make a dictionary equal to the pairs |
| OrderedDict.Zip | snowflake_utils.py:29 | `zip` stops at the shorter sequence and pairs equal positions |
| OrderedDict.ZipDict | snowflake_utils.py:29 | distinct column names zipped with an equal-length row give a dictionary keyed by the columns in order |
| Text.StripSpec | snowflake_utils.py:22 | `strip` removes exactly the leading and trailing whitespace and is empty exactly for all-whitespace input |
| Text.Strip | snowflake_utils.py:22 | `str.strip()` with no argument: drops the Python-whitespace characters at both ends (stated by `StripSpec`) |
| Text.SplitOn | snowflake_utils.py:22 | `str.split(sep)` for one separator character: the pieces between separators, one more than the separators (stated by `SplitPieces` and `JoinSplit`) |
| Text.Join | main2.py:84-85 | `sep.join(parts)`: the parts with the separator between neighbours (stated by `JoinSplit` and `SplitJoin`) |
| Text.StripIdempotent | snowflake_utils.py:22 | stripping twice is stripping once |
| Text.SplitPieces | snowflake_utils.py:22 | no piece of a split contains the separator |
| Text.JoinSplit | snowflake_utils.py:22 | joining the pieces of a split with the separator gives back the input |
| Text.SplitJoin | main2.py:84-86 | pieces without the separator, joined and split again, come back unchanged |
| SchemaPrompt.FirstNonString | main2.py:85 | finds the first item that is not a string, or reports that all are strings |
| SchemaPrompt.JoinItems | main2.py:85 | `', '.join` succeeds exactly when every item is a string, giving the strings joined with `, `, and otherwise raises `sequence item k: expected str instance, T found` for the first non-string item k |
| SchemaPrompt.Line | main2.py:85 | a line is built exactly when every column name is a string, starts with `Table: `, and otherwise raises the join's TypeError |
| SchemaPrompt.Lines | main2.py:84-86 | all lines are built exactly when each entry's line is, one line per entry in order |
| SchemaPrompt.SchemaText | main2.py:84-86 | the error dictionary always renders; a catalogue renders exactly when each of its lines does |
| SchemaPrompt.JoinCharacters | main2.py:85 | joining a string's characters puts character i at offset 3i, with length 3n-2 |
| SchemaPrompt.JoinSeparators | main2.py:85 | in the same join every character but the last is followed by `, ` at offsets 3i+1 and 3i+2 |
| SchemaPrompt.ErrorLine | app.py:134-137 | the error dictionary renders as `Table: error, Columns: ` followed by `', '.join` of the message's characters |
| SchemaPrompt.ErrorSchemaText | app.py:134-137 | the error dictionary yields `Table: error, Columns: ` followed by the message's characters, character i at offset 23+3i and each but the last followed by `, `; the line is 3n+21 long for n > 0 characters and 23 for an empty message |
| SchemaPrompt.LineSingle | main2.py:85 | a line built from names without newlines has no newline |
| SchemaPrompt.SchemaTextLines | main2.py:83-86 | splitting the schema text on newlines gives back one line per table, in order |
| SchemaPrompt.EmptySchemaText | app.py:134-137 | an empty catalogue gives an empty schema text |
| Modelz.Materialize | modelz.py:22-36 | the stored row keeps the id and query; the creation time defaults to now; the sync flag defaults to false |
| Modelz.MaterializeDraftOf | modelz.py:22-36 | a stored row written back unchanged is stored identically |
| Modelz.MaterializeDefaults | modelz.py:35-36 | a new row is unsynced and stamped with the current time |
| Values.Nullable | main2.py:115-122 | `str(v) if v else None` is null exactly for falsy values and keeps non-empty strings |
| Values.Truthy | main2.py:161 | Python truthiness: `None`, `False`, zero, and empty strings, lists and dictionaries are false |
| Values.Text | main2.py:176 | `str(v)`: a string is itself; any other value is rendered by the parameter `show` |
| Values.TypeName | main2.py:85 | the Python type name each value reports in a TypeError or AttributeError message (stated by `JoinItems` and `SqlOf`) |
| RecordingSpec.RecordDraft | main2.py:113-123 | each optional column is null exactly when its argument is falsy and otherwise its text; the raw response is always text; the token columns pass through; the defaults stay unset |
| LocalStore.UnsyncedIds | main2.py:26 | the selected ids are stored, unsynced and strictly ascending |
| LocalStore.UnsyncedComplete | main2.py:26 | every stored unsynced row is selected |
| LocalStore.Batch | main2.py:60-66 | the batch holds the selected rows in selection order |
| LocalStore.MarkedOnlyFlag | main2.py:71-76 | marking keeps every row's key and every column except the flag, and sets the flag exactly on the marked ids |
| LocalStore.Marked | main2.py:71-76 | the rows after `is_synced = True` is set on the given ids (stated by `MarkedOnlyFlag` and `MarkedClearsPending`) |
| LocalStore.MarkedClearsPending | main2.py:70-77 | after the selected rows are marked, nothing is pending |
| LocalStore.Store.constructor | modelz.py:22-41 | a new table is empty and its ids start at 1 |
| LocalStore.Store.Insert | main2.py:124-125 | a committed insert adds one row under a fresh id; a failed commit changes nothing |
| LocalStore.Store.MarkSynced | main2.py:70-77 | the marking transaction flags exactly the given rows when it commits, and changes nothing when it fails |
| Replication.SyncNothingPending | main2.py:28-30 | with no unsynced rows, nothing changes |
| Replication.SyncMissingCredentials | main2.py:32-43 | a missing credential stops the run before anything changes |
| Replication.AllGiven | main2.py:40-43 | `all([...])` over the seven credentials: each one set and non-empty (stated by `SyncMissingCredentials`) |
| Replication.SyncMarksOnlyAfterAppend | main2.py:58-77 | local rows change only after the whole batch was appended, and then exactly the batch is flagged |
| Replication.SyncOnlyFlags | main2.py:18-80 | a run never removes or alters a row except to set its flag, never changes the id counter, and only appends to the remote table |
| Replication.SyncIdempotent | main2.py:18-80 | after a complete run nothing is pending, and any further run changes nothing |
| Replication.SyncKeepsReplicated | main2.py:58-77 | every flagged row has its copy in the remote table, before and after any run |
| Replication.SyncRetryDuplicates | main2.py:58-80 | a failed append keeps the batch pending; a failed marking after a successful append makes the next run append the same batch again |
| Replication.Remote.Append | main2.py:60-66 | a successful append adds the batch at the end of the remote table; a failed one adds nothing |
| Replication.Sync | main2.py:18-80 | one run changes the outcome and both tables exactly as `SyncSpec` says |
| Replication.SyncSpec | main2.py:18-80 | one run of `sync_sqlite_to_snowflake`: its outcome and both tables, for every combination of credentials and faults (stated by the `Sync…` lemmas) |
| RecordingSpec.SaveAddsOneRow | main2.py:110-130 | a committed save adds exactly one row, under the next id, holding the record with only its flag possibly set; a failed commit changes nothing |
| RecordingSpec.InsertedLastPending | main2.py:124-126 | the row just inserted is the last one a sync selects |
| RecordingSpec.SaveReplicates | main2.py:110-130 | when every step succeeds, the save copies the earlier pending rows and then the new row to the remote table, and leaves nothing pending |
| RecordingSpec.SaveKeepsReplicated | main2.py:110-130 | saving never flags a row without its copy in the remote table |
| Recording.SaveQueryResult | main2.py:110-130 | the outcome and both tables follow `SaveSpec` |
| RecordingSpec.SaveSpec | main2.py:110-130 | one call of `save_query_result`: the insert, its commit, and the sync that follows (stated by `SaveAddsOneRow`, `SaveReplicates` and `SaveKeepsReplicated`) |
| Llm.Ask | groq_utils.py:6-33 | the prompt is appended to the conversation unless the client could not be built; a reply gives its content and tokens; any failure gives `Error: msg` and zero tokens |
| Actions.SqlOf | main2.py:168 | `action.get("function_parms", {}).get("query", "")` yields the query or `""`, or raises the AttributeError of the value without `get` |
| Actions.SummaryPrompt | main2.py:179-181 | the second call's prompt: the question and `str(result)` placed in the fixed summarising instruction |
| ReplSpec.Lower | main2.py:140 | lower-casing keeps the length and maps exactly the ASCII capitals |
| ReplSpec.IsExit | main2.py:140 | the input lower-cased is `exit` or `quit`; `ReplStep` ends the loop on it before anything else happens |
| ReplSpec.ReplCacheHit | main2.py:146-151 | a cached question is appended to the conversation and answered from the cache, with no model call and no record |
| ReplSpec.ReplParseError | main2.py:154-164 | a reply without an action saves the parse error with the raw reply and no tokens, after counting the first call |
| ReplSpec.ReplResultShape | main2.py:167-217 | a turn is answered exactly when the result is a non-empty list; then the answer is cached and both calls are counted and recorded; otherwise `No valid result returned.` is recorded without a second call |
| ReplSpec.RespondResult | main2.py:174-217 | after the action ran, the turn is answered exactly when the result is a non-empty list, and then the answer, the total, the cache and the record come from the second call |
| ReplSpec.ReplCachesFailedSummary | main2.py:179-189 | a failed summary call is cached, and the same question then gets that error text from the cache |
| ReplSpec.ReplStepShape | main2.py:138-220 | a turn only extends the conversation, never lowers the total, and saves a record unless it exits, hits the cache or crashes |
| ReplSpec.ReplStep | main2.py:138-220 | one pass of the loop: an exit word ends it, a cached question is answered from the cache, anything else goes to `Consult` (stated by `ReplStepShape`, `ReplCacheHit` and the lemmas below) |
| ReplSpec.Consult | main2.py:154-164 | the first call counted into the total, then the parse (stated by `ReplParseError`) |
| ReplSpec.Parsed | main2.py:161-168 | a falsy action saves the parse error; otherwise the action runs (stated by `ReplParseError`) |
| ReplSpec.Conclude | main2.py:167-171 | running the action and reading its SQL; an exception in either ends the loop (stated by `ReplStepShape`) |
| ReplSpec.Respond | main2.py:174-217 | the result check: a non-empty list is summarised, anything else records `No valid result returned.` (stated by `RespondResult`) |
| ReplSpec.Summary | main2.py:174-204 | the second call, the cache update and the success record (stated by `RespondResult` and `ReplCachesFailedSummary`) |
| ReplSpec.RunSpec | main2.py:138-220 | the loop over the first n inputs, stopping at an exit or a crash (stated by `RunStopsAt` and `RunBounds`) |
| ReplSpec.RunStopsAt | main2.py:138-143 | after an exit or a crash no further input is read |
| ReplSpec.AdvanceBounds | main2.py:138-220 | one step of the loop never lowers the total, only extends the conversation, and adds at most one row |
| ReplSpec.Advance | main2.py:138-220 | one step of the loop, doing nothing once it stopped (stated by `AdvanceBounds` and `RunStopsAt`) |
| ReplSpec.RunBounds | main2.py:134-220 | over a run the total never decreases, the conversation only grows, and at most one row per input is added |
| ReplSpec.SaveNextId | main2.py:110-130 | a save hands out one id when its commit succeeds and none otherwise |
| Repl.ReplSession.constructor | main2.py:134-136 | the loop starts with the system prompt, an empty cache and zero tokens |
| Repl.ReplSession.Save | main2.py:110-130 | saving a row changes the two tables as `SaveSpec` says, whatever its outcome |
| Repl.ReplSession.Turn | main2.py:138-220 | one pass of the loop changes the turn, the session and both tables as `ReplStep` says |
| Repl.ReplSession.Query | main2.py:154-164 | the first call and the parse follow `Consult` |
| Repl.ReplSession.Decide | main2.py:161-168 | the falsy-action check, the parse-error record and the action follow `Parsed` |
| Repl.ReplSession.Act | main2.py:167-171 | running the action and reading its SQL follow `Conclude` |
| Repl.ReplSession.CheckResult | main2.py:174-217 | the result check and the no-result record follow `Respond` |
| Repl.ReplSession.Summarise | main2.py:174-204 | the second call, the cache update and the save follow `Summary` |
| Repl.ReplSession.Run | main2.py:138-220 | the loop over the inputs ends in the state `RunSpec` gives |
| ChatSpec.ChatNoPrompt | app.py:262 | without a prompt nothing happens |
| ChatSpec.ChatTurnShape | app.py:262-327 | a prompt adds exactly itself and one assistant entry to the visible history; the conversation keeps its past, gains the prompt and ends in the same entry; exactly one record is saved |
| ChatSpec.ChatStep | app.py:262-327 | one submitted prompt: nothing without one; otherwise the prompt is appended and `Attempt` runs (stated by `ChatNoPrompt` and `ChatTurnShape`) |
| ChatSpec.Attempt | app.py:272-327 | the first call, then `Dispatch` (stated by `ChatTurnShape`) |
| ChatSpec.Dispatch | app.py:279-327 | a falsy action, a raising action or a value without `get` fails the turn; otherwise it succeeds (stated by `DispatchShape` and `ChatParseFailure`) |
| ChatSpec.Succeed | app.py:288-308 | the second call, the success record and the assistant entries (stated by `ChatNoShapeCheck`) |
| ChatSpec.Fail | app.py:310-327 | the `except` block: the error record and the error reply (stated by `ChatFailureRecord`) |
| ChatSpec.DispatchShape | app.py:279-327 | once the first reply is in, the turn always ends with one assistant entry in the history and the conversation, keeps the past, and drafts exactly one record |
| ChatSpec.ChatFailureRecord | app.py:272-327 | every exception saves a record with no answer, result or SQL, the first reply as raw response, the first call's tokens, no second count, the total so far, and the error message |
| ChatSpec.ChatParseFailure | app.py:279-281 | a reply without an action fails the turn with `Error parsing response.` |
| ChatSpec.ChatNoShapeCheck | app.py:284-304 | any executed result is summarised and saved as a success with both calls counted |
| ChatApp.ChatSession.constructor | app.py:252-254 | a new session holds the first run's system prompt as its opening entry, an empty history and zero tokens |
| ChatApp.ChatSession.Save | app.py:227-249 | saving a row changes the two tables as `SaveSpec` says, whatever its outcome |
| ChatApp.ChatSession.Turn | app.py:262-327 | a submitted prompt, under the system prompt this run rebuilt (app.py:134-156), changes the reply, the session and both tables as `ChatStep` says |
| ChatApp.ChatSession.Try | app.py:272-276 | the first call goes out with this run's system prompt, and the rest of the `try` follows `Attempt` |
| ChatApp.ChatSession.Proceed | app.py:279-285 | the parse check, the action and the SQL text follow `Dispatch` |
| ChatApp.ChatSession.Complete | app.py:288-308 | the second call, the save and the assistant entries follow `Succeed` |
| ChatApp.ChatSession.Recover | app.py:310-327 | the `except` block's record and reply follow `Fail` |
| ChatApp.ChatSession.SyncNow | app.py:334-337 | the sync button runs one replication as `SyncSpec` says |

## Left out

- Connection setup, environment variables, `load_dotenv` and the `finally` blocks' closing calls. The warehouse is a state with a `run` function. The closing is modelled only as counters of open connections and cursors that are restored.
- `action_utils.py` is not part of this model. `parse_action_response` is the parameter `parse`. `execute_action` is a per-turn input: the value it returns or the message it raises.
- The model's wording, sampling parameters, the network call and the API key. A reply is an input; only its content, token count and failures are modelled.
- `str()` of non-string values (Python's repr of lists, dicts, numbers, `Decimal`, dates) is the parameter `show`. Nothing is proved about its text.
- The wording of the two system prompts is a parameter. Only the schema text embedded in them is modelled.
- Every `print`, the console prompt, the Streamlit page layout, the chat rendering, the spinner, CSS, the logo, the token metric display, login, logout and password change (`auth.py`, app.py:24-120 and 340-348).
- EOF or KeyboardInterrupt at `input()`, and a model reply whose content is `None`.
- `SessionLocal()` raising: it sits outside the `try` of `save_query_result`.
- Timestamps are integers. The clock is the `now` field of the save inputs.
- SQLite ids are a counter starting at 1 with no deletion. The unsynced rows are read in ascending id order.
- The remote append is atomic: the model does not capture a failure part-way through `to_sql`. The append copies records, and pandas' column types are not modelled.
- Python's dictionary-key equality across types (`1 == True`) is not modelled. Keys are compared as values of the model.
- `str.lower` is ASCII lowering. Outside ASCII, only the Kelvin sign and the dotted capital I lower to ASCII letters; neither occurs in a word that lowers to `exit` or `quit`.
- SnowflakeUtils.QuerySnowflake: keeps no separate log of the statements sent. The warehouse state threads through them in order, so the order is captured only through that state.
- The statement loop records each statement's fetched table (`QuerySpec.Fetch`). The `{"query", "data"}` dictionaries are built from those tables when the result is assembled, not at each append. The conversion is pure, so the value returned is the same.
