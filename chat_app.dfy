/**
 * One chat turn of the web application: the prompt goes into the conversation and the visible
 * history, the model is asked for an action, the action's result is summarised by a second
 * call, and the turn is recorded. Any exception on the way is caught, recorded and shown as an
 * `Error: ...` reply.
 */
module ChatSpec {
  import opened Wrappers
  import opened Values
  import opened Modelz
  import opened Replication
  import opened RecordingSpec
  import opened Llm
  import opened Actions

  /** `st.session_state.messages`, `st.session_state.chat_history` and `st.session_state.total_tokens`. */
  datatype ChatState = ChatState(messages: seq<Message>, history: seq<Message>, total: int)

  /** What one turn meets: both model replies, the action's execution and the save. */
  datatype ChatIo = ChatIo(first: Reply, executed: Result<Value>, second: Reply, save: SaveIo)

  /** How a turn ended: no prompt was submitted, the summary was shown, or `str(e)` of the exception caught. */
  datatype ChatTurn = NoPrompt | Answered(reply: string) | Failed(message: string)

  /** A turn's new state and the row it saves, if it saves one. */
  datatype Step = Step(turn: ChatTurn, state: ChatState, draft: Option<Draft>)

  /** The session state the first run creates. */
  function Initial(systemPrompt: string): ChatState {
    ChatState([Message(System, systemPrompt)], [], 0)
  }

  /** The reply the assistant shows. */
  function ReplyText(turn: ChatTurn): string {
    match turn
    case NoPrompt => ""
    case Answered(reply) => reply
    case Failed(m) => "Error: " + m
  }

  /** One run of the chat block for the value `st.chat_input` returned. */
  function ChatStep(s: ChatState, prompt: Option<string>, io: ChatIo, systemPrompt: string,
                    parse: string -> Value, show: Value -> string): Step {
    if prompt.None? || prompt.value == "" then Step(NoPrompt, s, None)
    else
      var p := prompt.value;
      Attempt(ChatState(s.messages + [Message(User, p)], s.history + [Message(User, p)], s.total), p, io, systemPrompt, parse, show)
  }

  /** The `try` block, once the prompt is in both lists. */
  function Attempt(s: ChatState, p: string, io: ChatIo, systemPrompt: string,
                   parse: string -> Value, show: Value -> string): Step {
    var first := Ask(s.messages, systemPrompt, io.first);
    var afterFirst := ChatState(first.messages, s.history, s.total + first.tokens);
    Dispatch(afterFirst, p, first, parse(first.text), io, show)
  }

  /** The `try` block after the first call, for the action parsed from its reply. */
  function Dispatch(s: ChatState, p: string, first: Answer, action: Value, io: ChatIo, show: Value -> string): Step {
    if !Truthy(action) then Fail(s, p, first, ParseErrorMessage, show)
    else if io.executed.Err? then Fail(s, p, first, io.executed.error, show)
    else
      match SqlOf(action)
      case Err(m) => Fail(s, p, first, m, show)
      case Ok(sql) => Succeed(s, p, first, io.executed.value, sql, io, show)
  }

  /** The rest of the `try` block after the action ran: there is no check of the result's shape. */
  function Succeed(s: ChatState, p: string, first: Answer, result: Value, sql: Value, io: ChatIo, show: Value -> string): Step {
    var second := Ask(s.messages, SummaryPrompt(p, result, show), io.second);
    var total2 := s.total + second.tokens;
    Step(Answered(second.text),
         ChatState(second.messages + [Message(Assistant, second.text)], s.history + [Message(Assistant, second.text)], total2),
         Some(RecordDraft(p, Str(second.text), result, sql, Str(first.text),
                          Some(first.tokens), Some(second.tokens), Some(total2), Null, show)))
  }

  /**
   * The `except` block for message `m`. The first call never raises, so its text and tokens are
   * always available here, and nothing that raises follows the SQL text, so it never is.
   */
  function Fail(s: ChatState, p: string, first: Answer, m: string, show: Value -> string): Step {
    var reply := "Error: " + m;
    Step(Failed(m),
         ChatState(s.messages + [Message(Assistant, reply)], s.history + [Message(Assistant, reply)], s.total),
         Some(RecordDraft(p, Null, Null, Null, Str(first.text), Some(first.tokens), None, Some(s.total), Str(m), show)))
  }

  /** The local and remote tables after the turn's save, if it made one. */
  function AfterSave(rep: Replica, step: Step, io: ChatIo): Replica {
    if step.draft.Some? then SaveSpec(rep, step.draft.value, io.save).1 else rep
  }

  /** Without a prompt nothing happens. */
  lemma ChatNoPrompt(s: ChatState, prompt: Option<string>, io: ChatIo, systemPrompt: string, parse: string -> Value, show: Value -> string)
    requires prompt.None? || prompt == Some("")
    ensures ChatStep(s, prompt, io, systemPrompt, parse, show) == Step(NoPrompt, s, None)
  {
  }

  /** The shape facts of `ChatTurnShape` for the `except` block. */
  lemma FailShape(s: ChatState, p: string, first: Answer, m: string, show: Value -> string)
    ensures var st := Fail(s, p, first, m, show);
            && st.state.history == s.history + [Message(Assistant, ReplyText(st.turn))]
            && st.state.messages == s.messages + [Message(Assistant, ReplyText(st.turn))]
            && st.state.total == s.total && st.draft.Some?
  {
  }

  /** The shape facts of `ChatTurnShape` for the second call. */
  lemma SucceedShape(s: ChatState, p: string, first: Answer, result: Value, sql: Value, io: ChatIo, show: Value -> string)
    ensures var st := Succeed(s, p, first, result, sql, io, show);
            && st.state.history == s.history + [Message(Assistant, ReplyText(st.turn))]
            && s.messages <= st.state.messages
            && st.state.messages[|st.state.messages| - 1] == Message(Assistant, ReplyText(st.turn))
            && |s.messages| + 1 <= |st.state.messages| <= |s.messages| + 2
            && s.total <= st.state.total && st.draft.Some?
  {
  }

  /** The shape facts of `ChatTurnShape` for the `try` block. */
  lemma AttemptShape(s: ChatState, p: string, io: ChatIo, systemPrompt: string, parse: string -> Value, show: Value -> string)
    ensures var st := Attempt(s, p, io, systemPrompt, parse, show);
            && st.state.history == s.history + [Message(Assistant, ReplyText(st.turn))]
            && s.messages <= st.state.messages
            && st.state.messages[|st.state.messages| - 1] == Message(Assistant, ReplyText(st.turn))
            && |s.messages| + 1 <= |st.state.messages| <= |s.messages| + 3
            && s.total <= st.state.total && st.draft.Some? && !st.turn.NoPrompt?
  {
    var first := Ask(s.messages, systemPrompt, io.first);
    var afterFirst := ChatState(first.messages, s.history, s.total + first.tokens);
    DispatchShape(afterFirst, p, first, parse(first.text), io, show);
  }

  /** The shape facts of `ChatTurnShape` after the first call. */
  lemma DispatchShape(s: ChatState, p: string, first: Answer, action: Value, io: ChatIo, show: Value -> string)
    ensures var st := Dispatch(s, p, first, action, io, show);
            && st.state.history == s.history + [Message(Assistant, ReplyText(st.turn))]
            && s.messages <= st.state.messages
            && st.state.messages[|st.state.messages| - 1] == Message(Assistant, ReplyText(st.turn))
            && |s.messages| + 1 <= |st.state.messages| <= |s.messages| + 2
            && s.total <= st.state.total && st.draft.Some? && !st.turn.NoPrompt?
  {
    var afterFirst := s;
    if !Truthy(action) {
      FailShape(afterFirst, p, first, ParseErrorMessage, show);
    } else if io.executed.Err? {
      FailShape(afterFirst, p, first, io.executed.error, show);
    } else if SqlOf(action).Err? {
      FailShape(afterFirst, p, first, SqlOf(action).error, show);
    } else {
      SucceedShape(afterFirst, p, first, io.executed.value, SqlOf(action).value, io, show);
    }
  }

  /**
   * A submitted prompt adds exactly the user entry and one assistant entry to the visible history,
   * on success and on failure alike; the conversation keeps its past and gains the prompt, at most
   * the two model prompts, and the same assistant entry; exactly one row is saved.
   */
  lemma ChatTurnShape(s: ChatState, p: string, io: ChatIo, systemPrompt: string, parse: string -> Value, show: Value -> string)
    requires p != ""
    ensures var st := ChatStep(s, Some(p), io, systemPrompt, parse, show);
            var reply := Message(Assistant, ReplyText(st.turn));
            && st.state.history == s.history + [Message(User, p), reply]
            && s.messages + [Message(User, p)] <= st.state.messages
            && st.state.messages[|st.state.messages| - 1] == reply
            && |s.messages| + 2 <= |st.state.messages| <= |s.messages| + 4
            && s.total <= st.state.total
            && st.draft.Some?
  {
    var posted := ChatState(s.messages + [Message(User, p)], s.history + [Message(User, p)], s.total);
    AttemptShape(posted, p, io, systemPrompt, parse, show);
  }

  /**
   * Every exception lands in the same record: no answer, result or SQL, the first reply as raw
   * response, the first call's tokens, no second count, and `str(e)` as error (null when empty).
   */
  lemma ChatFailureRecord(s: ChatState, p: string, io: ChatIo, systemPrompt: string, parse: string -> Value, show: Value -> string)
    requires p != "" && ChatStep(s, Some(p), io, systemPrompt, parse, show).turn.Failed?
    ensures var st := ChatStep(s, Some(p), io, systemPrompt, parse, show);
            var first := Ask(s.messages + [Message(User, p)], systemPrompt, io.first);
            var m := st.turn.message;
            && st.draft.Some?
            && var d := st.draft.value;
               && d.query == p && d.answer.None? && d.sfresult.None? && d.sqlquery.None?
               && d.rawResponse == Some(first.text) && d.tokensFirstCall == Some(first.tokens)
               && d.tokensSecondCall.None? && d.totalTokensUsed == Some(s.total + first.tokens)
               && d.errorMessage == (if m == "" then None else Some(m))
               && st.state.total == s.total + first.tokens
  {
  }

  /** A reply without an action fails the turn with "Error parsing response.". */
  lemma ChatParseFailure(s: ChatState, p: string, io: ChatIo, systemPrompt: string, parse: string -> Value, show: Value -> string)
    requires p != ""
    requires !Truthy(parse(Ask(s.messages + [Message(User, p)], systemPrompt, io.first).text))
    ensures ChatStep(s, Some(p), io, systemPrompt, parse, show).turn == Failed(ParseErrorMessage)
  {
  }

  /**
   * Whatever the action returns is summarised: an error list from the query adapter is answered
   * and saved as a result, with no error message, and both calls' tokens are counted.
   */
  lemma ChatNoShapeCheck(s: ChatState, p: string, io: ChatIo, systemPrompt: string, parse: string -> Value, show: Value -> string)
    requires p != ""
    requires var action := parse(Ask(s.messages + [Message(User, p)], systemPrompt, io.first).text);
             Truthy(action) && io.executed.Ok? && SqlOf(action).Ok?
    ensures var st := ChatStep(s, Some(p), io, systemPrompt, parse, show);
            var first := Ask(s.messages + [Message(User, p)], systemPrompt, io.first);
            var second := Ask(first.messages, SummaryPrompt(p, io.executed.value, show), io.second);
            && st.turn == Answered(second.text)
            && st.state.total == s.total + first.tokens + second.tokens
            && st.draft.Some? && st.draft.value.errorMessage.None?
            && st.draft.value.sfresult == Nullable(io.executed.value, show)
  {
  }
}

/** The chat session over the local store and the remote table. */
module ChatApp {
  import opened Wrappers
  import opened Values
  import opened Modelz
  import opened LocalStore
  import opened Replication
  import opened RecordingSpec
  import opened Recording
  import opened Llm
  import opened Actions
  import opened ChatSpec

  class ChatSession {
    var messages: seq<Message>
    var history: seq<Message>
    var total: int
    const store: Store
    const remote: Remote
    /** The prompt the first run put in `messages[0]`; later runs rebuild theirs and pass it to `Turn`. */
    const firstPrompt: string
    const parse: string -> Value
    const show: Value -> string

    /** The session state the first run creates: the system prompt, an empty history, no tokens. */
    constructor (store: Store, remote: Remote, systemPrompt: string, parse: string -> Value, show: Value -> string)
      ensures messages == [Message(System, systemPrompt)] && history == [] && total == 0
      ensures this.store == store && this.remote == remote && this.firstPrompt == systemPrompt
      ensures this.parse == parse && this.show == show
    {
      messages := [Message(System, systemPrompt)];
      history := [];
      total := 0;
      this.store := store;
      this.remote := remote;
      this.firstPrompt := systemPrompt;
      this.parse := parse;
      this.show := show;
    }

    function State(): ChatState
      reads this
    {
      ChatState(messages, history, total)
    }

    /** Save a row through `save_query_result`; its outcome is only printed. */
    method Save(d: Draft, io: SaveIo)
      requires store.Valid()
      modifies store, remote
      ensures store.Valid()
      ensures Replica(store.rows, store.nextId, remote.log) == SaveSpec(old(Replica(store.rows, store.nextId, remote.log)), d, io).1
    {
      var _ := SaveQueryResult(store, remote, d, io);
    }

    /** One submitted (or absent) prompt under this run's rebuilt system prompt `system`:
        the turn, the new state and both tables follow `ChatStep`. */
    method Turn(prompt: Option<string>, system: string, io: ChatIo) returns (turn: ChatTurn)
      requires store.Valid()
      modifies this, store, remote
      ensures store.Valid()
      ensures var st := ChatStep(old(State()), prompt, io, system, parse, show);
              && turn == st.turn && State() == st.state
              && Replica(store.rows, store.nextId, remote.log) == AfterSave(old(Replica(store.rows, store.nextId, remote.log)), st, io)
    {
      if prompt.None? || prompt.value == "" {
        return NoPrompt;
      }
      var p := prompt.value;
      messages := messages + [Message(User, p)];
      history := history + [Message(User, p)];
      turn := Try(p, system, io);
    }

    /** The `try` block with its `except`; the first call goes out under `system`: follows `Attempt`. */
    method Try(p: string, system: string, io: ChatIo) returns (turn: ChatTurn)
      requires store.Valid()
      modifies this, store, remote
      ensures store.Valid()
      ensures var st := Attempt(old(State()), p, io, system, parse, show);
              && turn == st.turn && State() == st.state
              && Replica(store.rows, store.nextId, remote.log) == AfterSave(old(Replica(store.rows, store.nextId, remote.log)), st, io)
    {
      var first := Ask(messages, system, io.first);
      messages := first.messages;
      total := total + first.tokens;
      turn := Proceed(p, first, parse(first.text), io);
    }

    /** Act on the parsed action, or fail the turn: follows `Dispatch`. */
    method Proceed(p: string, first: Answer, action: Value, io: ChatIo) returns (turn: ChatTurn)
      requires store.Valid()
      modifies this, store, remote
      ensures store.Valid()
      ensures var st := Dispatch(old(State()), p, first, action, io, show);
              && turn == st.turn && State() == st.state
              && Replica(store.rows, store.nextId, remote.log) == AfterSave(old(Replica(store.rows, store.nextId, remote.log)), st, io)
    {
      if !Truthy(action) {
        turn := Recover(p, first, ParseErrorMessage, io);
      } else if io.executed.Err? {
        turn := Recover(p, first, io.executed.error, io);
      } else {
        var sql := SqlOf(action);
        if sql.Err? {
          turn := Recover(p, first, sql.error, io);
        } else {
          turn := Complete(p, first, io.executed.value, sql.value, io);
        }
      }
    }

    /** The second call, the save and the assistant entries: follows `Succeed`. */
    method Complete(p: string, first: Answer, result: Value, sql: Value, io: ChatIo) returns (turn: ChatTurn)
      requires store.Valid()
      modifies this, store, remote
      ensures store.Valid()
      ensures var st := Succeed(old(State()), p, first, result, sql, io, show);
              && turn == st.turn && State() == st.state
              && Replica(store.rows, store.nextId, remote.log) == AfterSave(old(Replica(store.rows, store.nextId, remote.log)), st, io)
    {
      ghost var st := Succeed(State(), p, first, result, sql, io, show);
      var second := Ask(messages, SummaryPrompt(p, result, show), io.second);
      messages := second.messages;
      total := total + second.tokens;
      var d := RecordDraft(p, Str(second.text), result, sql, Str(first.text),
                           Some(first.tokens), Some(second.tokens), Some(total), Null, show);
      assert st.draft == Some(d);
      Save(d, io.save);
      messages := messages + [Message(Assistant, second.text)];
      history := history + [Message(Assistant, second.text)];
      turn := Answered(second.text);
    }

    /** The `except` block for `str(e) == m`: follows `Fail`. */
    method Recover(p: string, first: Answer, m: string, io: ChatIo) returns (turn: ChatTurn)
      requires store.Valid()
      modifies this, store, remote
      ensures store.Valid()
      ensures var st := Fail(old(State()), p, first, m, show);
              && turn == st.turn && State() == st.state
              && Replica(store.rows, store.nextId, remote.log) == AfterSave(old(Replica(store.rows, store.nextId, remote.log)), st, io)
    {
      ghost var st := Fail(State(), p, first, m, show);
      var d := RecordDraft(p, Null, Null, Null, Str(first.text), Some(first.tokens), None, Some(total), Str(m), show);
      assert st.draft == Some(d);
      Save(d, io.save);
      var reply := "Error: " + m;
      messages := messages + [Message(Assistant, reply)];
      history := history + [Message(Assistant, reply)];
      turn := Failed(m);
    }

    /** The sidebar's sync button: one replication run, as `SyncSpec` describes it. */
    method SyncNow(creds: Credentials, faults: SyncFaults) returns (outcome: SyncOutcome)
      requires store.Valid()
      modifies store, remote
      ensures store.Valid()
      ensures (outcome, Replica(store.rows, store.nextId, remote.log))
              == SyncSpec(old(Replica(store.rows, store.nextId, remote.log)), creds, faults)
    {
      outcome := Sync(store, remote, creds, faults);
    }
  }
}
