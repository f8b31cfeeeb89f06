/**
 * The console loop of main2.py: read a question, answer it from the cache or through two model
 * calls around the SQL action, record the turn, and keep a running token total.
 */
module ReplSpec {
  import opened Wrappers
  import opened Values
  import opened Modelz
  import opened Replication
  import opened RecordingSpec
  import opened Llm
  import opened Actions

  /** ASCII lower-casing: `str.lower()` as far as the comparison with "exit" and "quit" can tell. */
  function Lower(s: string): (r: string)
    ensures |r| == |s|
    ensures forall i :: 0 <= i < |s| ==> r[i] == if 'A' <= s[i] <= 'Z' then (s[i] as int + 32) as char else s[i]
  {
    if s == [] then []
    else [if 'A' <= s[0] <= 'Z' then (s[0] as int + 32) as char else s[0]] + Lower(s[1..])
  }

  /** `user_query.lower() in ["exit", "quit"]` */
  predicate IsExit(q: string) {
    Lower(q) == "exit" || Lower(q) == "quit"
  }

  const NoResultMessage := "No valid result returned."

  /** The conversation, the answer cache `query_memory` and `total_tokens_used`. */
  datatype ReplState = ReplState(messages: seq<Message>, memory: map<string, string>, total: int)

  /** What one turn meets: both model replies, the action's execution and the save. */
  datatype ReplIo = ReplIo(first: Reply, executed: Result<Value>, second: Reply, save: SaveIo)

  /** How a turn ended. */
  datatype ReplTurn =
    | Exited(total: int)       // "exit" or "quit": the total is printed and the loop ends
    | CacheHit(answer: string) // the cached answer is printed
    | ParseError               // the reply held no action
    | NoValidResult            // the action's result was not a non-empty list
    | Answered(answer: string) // the summary of the result
    | Crashed(message: string) // running the action or reading its SQL raised; the loop ends

  /** A turn's new state and the row it saves, if it saves one. */
  datatype Step = Step(turn: ReplTurn, state: ReplState, draft: Option<Draft>)

  /** The state at the initial prompt. */
  function Initial(systemPrompt: string): ReplState {
    ReplState([Message(System, systemPrompt)], map[], 0)
  }

  /** One pass through the loop body for input `q`. */
  function ReplStep(s: ReplState, q: string, io: ReplIo, systemPrompt: string,
                    parse: string -> Value, show: Value -> string): Step {
    if IsExit(q) then Step(Exited(s.total), s, None)
    else
      var asked := s.(messages := s.messages + [Message(User, q)]);
      if q in s.memory then Step(CacheHit(s.memory[q]), asked, None)
      else Consult(asked, q, io, systemPrompt, parse, show)
  }

  /** The first model call on the conversation that already holds the question, and the parse of its reply. */
  function Consult(s: ReplState, q: string, io: ReplIo, systemPrompt: string,
                   parse: string -> Value, show: Value -> string): Step {
    var first := Ask(s.messages, systemPrompt, io.first);
    Parsed(ReplState(first.messages, s.memory, s.total + first.tokens), q, first, parse(first.text), io, show)
  }

  /** After the first call: the check `if not action` and what each side does. */
  function Parsed(s: ReplState, q: string, first: Answer, action: Value, io: ReplIo, show: Value -> string): Step {
    if !Truthy(action) then
      Step(ParseError, s,
           Some(RecordDraft(q, Null, Null, Null, Str(first.text), None, None, None, Str(ParseErrorMessage), show)))
    else Conclude(s, q, first, action, io, show)
  }

  /** Running the action, reading its SQL, and the second call when the result is a non-empty list. */
  function Conclude(s: ReplState, q: string, first: Answer, action: Value, io: ReplIo, show: Value -> string): Step {
    if io.executed.Err? then Step(Crashed(io.executed.error), s, None)
    else
      var result := io.executed.value;
      match SqlOf(action)
      case Err(m) => Step(Crashed(m), s, None)
      case Ok(sql) => Respond(s, q, first, result, sql, io, show)
  }

  /** The success check `isinstance(result, list) and result` and what each side records. */
  function Respond(s: ReplState, q: string, first: Answer, result: Value, sql: Value, io: ReplIo, show: Value -> string): Step {
    if result.List? && result.items != [] then Summary(s, q, first, result, sql, io, show)
    else
      Step(NoValidResult, s,
           Some(RecordDraft(q, Null, Null, sql, Str(first.text),
                            Some(first.tokens), None, Some(s.total), Str(NoResultMessage), show)))
  }

  /** The second call on the conversation extended by the result, then caching and saving its answer. */
  function Summary(s: ReplState, q: string, first: Answer, result: Value, sql: Value, io: ReplIo, show: Value -> string): Step {
    var second := Ask(s.messages + [Message(Assistant, Values.Text(result, show))], SummaryPrompt(q, result, show), io.second);
    var total2 := s.total + second.tokens;
    Step(Answered(second.text),
         ReplState(second.messages + [Message(Assistant, second.text)], s.memory[q := second.text], total2),
         Some(RecordDraft(q, Str(second.text), result, sql, Str(first.text),
                          Some(first.tokens), Some(second.tokens), Some(total2), Null, show)))
  }

  /** The local and remote tables after the turn's save, if it made one. */
  function AfterSave(rep: Replica, step: Step, io: ReplIo): Replica {
    if step.draft.Some? then SaveSpec(rep, step.draft.value, io.save).1 else rep
  }

  /** A question already answered is answered from the cache: no model call, no row, no tokens. */
  lemma ReplCacheHit(s: ReplState, q: string, io: ReplIo, systemPrompt: string, parse: string -> Value, show: Value -> string)
    requires !IsExit(q) && q in s.memory
    ensures ReplStep(s, q, io, systemPrompt, parse, show)
            == Step(CacheHit(s.memory[q]), ReplState(s.messages + [Message(User, q)], s.memory, s.total), None)
  {
  }

  /**
   * A reply without an action saves one row that holds the reply and the parse error and no
   * answer, result, SQL or token counts; only the first call's tokens are added.
   */
  lemma ReplParseError(s: ReplState, q: string, io: ReplIo, systemPrompt: string, parse: string -> Value, show: Value -> string)
    requires !IsExit(q) && q !in s.memory
    requires !Truthy(parse(Ask(s.messages + [Message(User, q)], systemPrompt, io.first).text))
    ensures var first := Ask(s.messages + [Message(User, q)], systemPrompt, io.first);
            var st := ReplStep(s, q, io, systemPrompt, parse, show);
            && st.turn == ParseError
            && st.state == ReplState(first.messages, s.memory, s.total + first.tokens)
            && st.draft.Some?
            && var d := st.draft.value;
               && d.errorMessage == Some(ParseErrorMessage) && d.rawResponse == Some(first.text)
               && d.answer.None? && d.sfresult.None? && d.sqlquery.None?
               && d.tokensFirstCall.None? && d.tokensSecondCall.None? && d.totalTokensUsed.None?
  {
  }

  /**
   * The success check decides the turn: it is answered exactly when the result is a non-empty
   * list. An answered turn adds the second call's tokens, caches the summary and saves it with
   * both counts; otherwise one row records "No valid result returned." with no second count.
   */
  lemma RespondResult(s: ReplState, q: string, first: Answer, result: Value, sql: Value, io: ReplIo, show: Value -> string)
    ensures var st := Respond(s, q, first, result, sql, io, show);
            && (st.turn.Answered? <==> result.List? && result.items != [])
            && (st.turn.Answered? ==>
                  var second := Ask(s.messages + [Message(Assistant, Values.Text(result, show))],
                                    SummaryPrompt(q, result, show), io.second);
                  && st.turn.answer == second.text
                  && st.state.total == s.total + second.tokens
                  && st.state.memory == s.memory[q := second.text]
                  && st.draft.Some? && st.draft.value.tokensSecondCall == Some(second.tokens)
                  && st.draft.value.totalTokensUsed == Some(st.state.total)
                  && st.draft.value.errorMessage.None?)
            && (!st.turn.Answered? ==>
                  && st.turn == NoValidResult
                  && st.state == s
                  && st.draft.Some? && st.draft.value.errorMessage == Some(NoResultMessage)
                  && st.draft.value.tokensSecondCall.None? && st.draft.value.answer.None?
                  && st.draft.value.sfresult.None?)
  {
  }

  /**
   * Once the action ran and its SQL was read, the turn is answered exactly when the result is a
   * non-empty list. An answered turn adds both calls' tokens, caches the summary and saves it
   * with both counts; otherwise one row records "No valid result returned." with no second count.
   */
  lemma ReplResultShape(s: ReplState, q: string, io: ReplIo, systemPrompt: string, parse: string -> Value, show: Value -> string)
    requires !IsExit(q) && q !in s.memory
    requires var first := Ask(s.messages + [Message(User, q)], systemPrompt, io.first);
             Truthy(parse(first.text)) && io.executed.Ok? && SqlOf(parse(first.text)).Ok?
    ensures var first := Ask(s.messages + [Message(User, q)], systemPrompt, io.first);
            var result := io.executed.value;
            var st := ReplStep(s, q, io, systemPrompt, parse, show);
            && (st.turn.Answered? <==> result.List? && result.items != [])
            && (st.turn.Answered? ==>
                  var second := Ask(first.messages + [Message(Assistant, Values.Text(result, show))],
                                    SummaryPrompt(q, result, show), io.second);
                  && st.turn.answer == second.text
                  && st.state.total == s.total + first.tokens + second.tokens
                  && st.state.memory == s.memory[q := second.text]
                  && st.draft.Some? && st.draft.value.tokensSecondCall == Some(second.tokens)
                  && st.draft.value.totalTokensUsed == Some(st.state.total)
                  && st.draft.value.errorMessage.None?)
            && (!st.turn.Answered? ==>
                  && st.turn == NoValidResult
                  && st.state == ReplState(first.messages, s.memory, s.total + first.tokens)
                  && st.draft.Some? && st.draft.value.errorMessage == Some(NoResultMessage)
                  && st.draft.value.tokensSecondCall.None? && st.draft.value.answer.None?
                  && st.draft.value.sfresult.None?)
  {
    var first := Ask(s.messages + [Message(User, q)], systemPrompt, io.first);
    var afterFirst := ReplState(first.messages, s.memory, s.total + first.tokens);
    var action := parse(first.text);
    assert ReplStep(s, q, io, systemPrompt, parse, show)
        == Respond(afterFirst, q, first, io.executed.value, SqlOf(action).value, io, show);
    RespondResult(afterFirst, q, first, io.executed.value, SqlOf(action).value, io, show);
  }

  /**
   * A failed summarisation call is cached like an answer: the question is answered from then on
   * with the error text, without asking again.
   */
  lemma ReplCachesFailedSummary(s: ReplState, q: string, io: ReplIo, systemPrompt: string, parse: string -> Value, show: Value -> string, io2: ReplIo)
    requires ReplStep(s, q, io, systemPrompt, parse, show).turn.Answered? && !io.second.Replied?
    ensures var st := ReplStep(s, q, io, systemPrompt, parse, show);
            && st.turn.answer == "Error: " + io.second.message
            && ReplStep(st.state, q, io2, systemPrompt, parse, show).turn == CacheHit("Error: " + io.second.message)
  {
  }

  /** The shape facts of `ReplStepShape` for the success check: it always saves a row. */
  lemma RespondShape(s: ReplState, q: string, first: Answer, result: Value, sql: Value, io: ReplIo, show: Value -> string)
    ensures var st := Respond(s, q, first, result, sql, io, show);
            s.messages <= st.state.messages && s.total <= st.state.total && st.draft.Some? && !st.turn.Crashed?
  {
    if result.List? && result.items != [] {
      var second := Ask(s.messages + [Message(Assistant, Values.Text(result, show))], SummaryPrompt(q, result, show), io.second);
      assert s.messages <= second.messages;
    }
  }

  /** The shape facts of `ReplStepShape` once a question went to the model. */
  lemma ConsultShape(s: ReplState, q: string, io: ReplIo, systemPrompt: string, parse: string -> Value, show: Value -> string)
    ensures var st := Consult(s, q, io, systemPrompt, parse, show);
            && s.messages <= st.state.messages && s.total <= st.state.total
            && (st.draft.None? <==> st.turn.Crashed?) && !st.turn.Exited? && !st.turn.CacheHit?
  {
    var first := Ask(s.messages, systemPrompt, io.first);
    var afterFirst := ReplState(first.messages, s.memory, s.total + first.tokens);
    var action := parse(first.text);
    if Truthy(action) && io.executed.Ok? && SqlOf(action).Ok? {
      RespondShape(afterFirst, q, first, io.executed.value, SqlOf(action).value, io, show);
    }
  }

  /**
   * Every turn keeps the conversation it started with and never lowers the token total; it saves
   * a row exactly when it neither exits, nor hits the cache, nor crashes.
   */
  lemma ReplStepShape(s: ReplState, q: string, io: ReplIo, systemPrompt: string, parse: string -> Value, show: Value -> string)
    ensures var st := ReplStep(s, q, io, systemPrompt, parse, show);
            && s.messages <= st.state.messages
            && s.total <= st.state.total
            && (st.draft.None? <==> st.turn.Exited? || st.turn.CacheHit? || st.turn.Crashed?)
  {
    if !IsExit(q) && q !in s.memory {
      ConsultShape(s.(messages := s.messages + [Message(User, q)]), q, io, systemPrompt, parse, show);
    }
  }

  /** Whether the loop has ended. */
  predicate Stopped(last: Option<ReplTurn>) {
    last.Some? && (last.value.Exited? || last.value.Crashed?)
  }

  /** The loop's state after some inputs: the console state, both tables and the last turn. */
  datatype Session = Session(state: ReplState, replica: Replica, last: Option<ReplTurn>)

  /** One turn on a session that has not ended. */
  function Advance(x: Session, q: string, io: ReplIo, systemPrompt: string, parse: string -> Value, show: Value -> string): Session {
    if Stopped(x.last) then x
    else
      var st := ReplStep(x.state, q, io, systemPrompt, parse, show);
      Session(st.state, AfterSave(x.replica, st, io), Some(st.turn))
  }

  /** The loop over the first `n` inputs; inputs after an exit or a crash are not read. */
  function RunSpec(s: ReplState, rep: Replica, inputs: seq<string>, ios: seq<ReplIo>, n: nat,
                   systemPrompt: string, parse: string -> Value, show: Value -> string): Session
    requires n <= |inputs| == |ios|
  {
    if n == 0 then Session(s, rep, None)
    else Advance(RunSpec(s, rep, inputs, ios, n - 1, systemPrompt, parse, show), inputs[n - 1], ios[n - 1], systemPrompt, parse, show)
  }

  /** After the loop has ended, further inputs change nothing. */
  lemma {:induction false} RunStopsAt(s: ReplState, rep: Replica, inputs: seq<string>, ios: seq<ReplIo>, j: nat, n: nat,
                                      systemPrompt: string, parse: string -> Value, show: Value -> string)
    requires j <= n <= |inputs| == |ios|
    requires Stopped(RunSpec(s, rep, inputs, ios, j, systemPrompt, parse, show).last)
    ensures RunSpec(s, rep, inputs, ios, n, systemPrompt, parse, show) == RunSpec(s, rep, inputs, ios, j, systemPrompt, parse, show)
  {
    if j < n {
      RunStopsAt(s, rep, inputs, ios, j, n - 1, systemPrompt, parse, show);
    }
  }

  /** Over a whole run the token total never decreases and at most one row is added per input. */
  lemma {:induction false} RunBounds(s: ReplState, rep: Replica, inputs: seq<string>, ios: seq<ReplIo>, n: nat,
                                     systemPrompt: string, parse: string -> Value, show: Value -> string)
    requires n <= |inputs| == |ios|
    ensures var x := RunSpec(s, rep, inputs, ios, n, systemPrompt, parse, show);
            && s.total <= x.state.total
            && s.messages <= x.state.messages
            && x.replica.nextId <= rep.nextId + n
  {
    if n > 0 {
      RunBounds(s, rep, inputs, ios, n - 1, systemPrompt, parse, show);
      AdvanceBounds(RunSpec(s, rep, inputs, ios, n - 1, systemPrompt, parse, show), inputs[n - 1], ios[n - 1], systemPrompt, parse, show);
    }
  }

  /** One input never lowers the total, only extends the conversation and adds at most one row. */
  lemma AdvanceBounds(x: Session, q: string, io: ReplIo, systemPrompt: string, parse: string -> Value, show: Value -> string)
    ensures var y := Advance(x, q, io, systemPrompt, parse, show);
            && x.state.total <= y.state.total
            && x.state.messages <= y.state.messages
            && y.replica.nextId <= x.replica.nextId + 1
  {
    if !Stopped(x.last) {
      var st := ReplStep(x.state, q, io, systemPrompt, parse, show);
      ReplStepShape(x.state, q, io, systemPrompt, parse, show);
      if st.draft.Some? {
        SaveNextId(x.replica, st.draft.value, io.save);
      }
    }
  }

  /** A save hands out at most one id. */
  lemma SaveNextId(r: Replica, d: Draft, io: SaveIo)
    ensures SaveSpec(r, d, io).1.nextId == if io.commitOk then r.nextId + 1 else r.nextId
  {
    if io.commitOk {
      SyncOnlyFlags(Inserted(r, d, io.now), io.creds, io.faults);
    }
  }
}

/** The console session over the local store and the remote table. */
module Repl {
  import opened Wrappers
  import opened Values
  import opened Modelz
  import opened LocalStore
  import opened Replication
  import opened RecordingSpec
  import opened Recording
  import opened Llm
  import opened Actions
  import opened ReplSpec

  class ReplSession {
    var messages: seq<Message>
    var memory: map<string, string>
    var total: int
    const store: Store
    const remote: Remote
    const systemPrompt: string
    const parse: string -> Value
    const show: Value -> string

    constructor (store: Store, remote: Remote, systemPrompt: string, parse: string -> Value, show: Value -> string)
      ensures messages == [Message(System, systemPrompt)] && memory == map[] && total == 0
      ensures this.store == store && this.remote == remote && this.systemPrompt == systemPrompt
      ensures this.parse == parse && this.show == show
    {
      messages := [Message(System, systemPrompt)];
      memory := map[];
      total := 0;
      this.store := store;
      this.remote := remote;
      this.systemPrompt := systemPrompt;
      this.parse := parse;
      this.show := show;
    }

    function State(): ReplState
      reads this
    {
      ReplState(messages, memory, total)
    }

    /** Save a row through `save_query_result`; its outcome is only printed. */
    method Save(d: Draft, io: SaveIo)
      requires store.Valid()
      modifies store, remote
      ensures store.Valid()
      ensures Replica(store.rows, store.nextId, remote.log) == SaveSpec(old(Replica(store.rows, store.nextId, remote.log)), d, io).1
    {
      var _ := SaveQueryResult(store, remote, d, io);
    }

    /** One pass through the loop body: the turn, the new state and both tables follow `ReplStep`. */
    method Turn(q: string, io: ReplIo) returns (turn: ReplTurn)
      requires store.Valid()
      modifies this, store, remote
      ensures store.Valid()
      ensures var st := ReplStep(old(State()), q, io, systemPrompt, parse, show);
              && turn == st.turn && State() == st.state
              && Replica(store.rows, store.nextId, remote.log) == AfterSave(old(Replica(store.rows, store.nextId, remote.log)), st, io)
    {
      if IsExit(q) {
        return Exited(total);
      }
      messages := messages + [Message(User, q)];
      if q in memory {
        return CacheHit(memory[q]);
      }
      turn := Query(q, io);
    }

    /** The first call and the parse, on a question that is not cached: follows `Consult`. */
    method Query(q: string, io: ReplIo) returns (turn: ReplTurn)
      requires store.Valid()
      modifies this, store, remote
      ensures store.Valid()
      ensures var st := Consult(old(State()), q, io, systemPrompt, parse, show);
              && turn == st.turn && State() == st.state
              && Replica(store.rows, store.nextId, remote.log) == AfterSave(old(Replica(store.rows, store.nextId, remote.log)), st, io)
    {
      ghost var st := Consult(State(), q, io, systemPrompt, parse, show);
      var first := Ask(messages, systemPrompt, io.first);
      messages := first.messages;
      total := total + first.tokens;
      assert st == Parsed(State(), q, first, parse(first.text), io, show);
      turn := Decide(q, first, parse(first.text), io);
    }

    /** The parse check and, for an action, the rest of the turn: follows `Parsed`. */
    method Decide(q: string, first: Answer, action: Value, io: ReplIo) returns (turn: ReplTurn)
      requires store.Valid()
      modifies this, store, remote
      ensures store.Valid()
      ensures var st := Parsed(old(State()), q, first, action, io, show);
              && turn == st.turn && State() == st.state
              && Replica(store.rows, store.nextId, remote.log) == AfterSave(old(Replica(store.rows, store.nextId, remote.log)), st, io)
    {
      if !Truthy(action) {
        Save(RecordDraft(q, Null, Null, Null, Str(first.text), None, None, None, Str(ParseErrorMessage), show), io.save);
        return ParseError;
      }
      turn := Act(q, first, action, io);
    }

    /** Running the action and, on a non-empty list, the summary: follows `Conclude`. */
    method Act(q: string, first: Answer, action: Value, io: ReplIo) returns (turn: ReplTurn)
      requires store.Valid()
      modifies this, store, remote
      ensures store.Valid()
      ensures var st := Conclude(old(State()), q, first, action, io, show);
              && turn == st.turn && State() == st.state
              && Replica(store.rows, store.nextId, remote.log) == AfterSave(old(Replica(store.rows, store.nextId, remote.log)), st, io)
    {
      if io.executed.Err? {
        return Crashed(io.executed.error);
      }
      var result := io.executed.value;
      var sql := SqlOf(action);
      if sql.Err? {
        return Crashed(sql.error);
      }
      turn := CheckResult(q, first, result, sql.value, io);
    }

    /** The success check and either the summary or the "no valid result" row: follows `Respond`. */
    method CheckResult(q: string, first: Answer, result: Value, sql: Value, io: ReplIo) returns (turn: ReplTurn)
      requires store.Valid()
      modifies this, store, remote
      ensures store.Valid()
      ensures var st := Respond(old(State()), q, first, result, sql, io, show);
              && turn == st.turn && State() == st.state
              && Replica(store.rows, store.nextId, remote.log) == AfterSave(old(Replica(store.rows, store.nextId, remote.log)), st, io)
    {
      if result.List? && result.items != [] {
        turn := Summarise(q, first, result, sql, io);
      } else {
        Save(RecordDraft(q, Null, Null, sql, Str(first.text),
                         Some(first.tokens), None, Some(total), Str(NoResultMessage), show), io.save);
        turn := NoValidResult;
      }
    }

    /** The second call, the cache update, the save and the answer's message: follows `Summary`. */
    method Summarise(q: string, first: Answer, result: Value, sql: Value, io: ReplIo) returns (turn: ReplTurn)
      requires store.Valid()
      modifies this, store, remote
      ensures store.Valid()
      ensures var st := Summary(old(State()), q, first, result, sql, io, show);
              && turn == st.turn && State() == st.state
              && Replica(store.rows, store.nextId, remote.log) == AfterSave(old(Replica(store.rows, store.nextId, remote.log)), st, io)
    {
      ghost var st := Summary(State(), q, first, result, sql, io, show);
      messages := messages + [Message(Assistant, Values.Text(result, show))];
      var second := Ask(messages, SummaryPrompt(q, result, show), io.second);
      messages := second.messages;
      total := total + second.tokens;
      memory := memory[q := second.text];
      var d := RecordDraft(q, Str(second.text), result, sql, Str(first.text),
                           Some(first.tokens), Some(second.tokens), Some(total), Null, show);
      assert st.draft == Some(d);
      Save(d, io.save);
      messages := messages + [Message(Assistant, second.text)];
      turn := Answered(second.text);
    }

    /**
     * The `while True` loop over the inputs, one reply set per input, up to an exit, a crash or
     * the end of the inputs; the session follows `RunSpec`.
     */
    method Run(inputs: seq<string>, ios: seq<ReplIo>) returns (last: Option<ReplTurn>)
      requires |inputs| == |ios| && store.Valid()
      modifies this, store, remote
      ensures store.Valid()
      ensures Session(State(), Replica(store.rows, store.nextId, remote.log), last)
              == RunSpec(old(State()), old(Replica(store.rows, store.nextId, remote.log)), inputs, ios, |inputs|, systemPrompt, parse, show)
    {
      ghost var s0 := State();
      ghost var rep0 := Replica(store.rows, store.nextId, remote.log);
      last := None;
      var i := 0;
      while i < |inputs| && !Stopped(last)
        invariant 0 <= i <= |inputs|
        invariant store.Valid()
        invariant Session(State(), Replica(store.rows, store.nextId, remote.log), last)
                  == RunSpec(s0, rep0, inputs, ios, i, systemPrompt, parse, show)
      {
        ghost var st := ReplStep(State(), inputs[i], ios[i], systemPrompt, parse, show);
        assert RunSpec(s0, rep0, inputs, ios, i + 1, systemPrompt, parse, show)
            == Session(st.state, AfterSave(Replica(store.rows, store.nextId, remote.log), st, ios[i]), Some(st.turn));
        var turn := Turn(inputs[i], ios[i]);
        last := Some(turn);
        i := i + 1;
      }
      if Stopped(last) {
        RunStopsAt(s0, rep0, inputs, ios, i, |inputs|, systemPrompt, parse, show);
      }
    }
  }
}
