/**
 * The two expressions both turn controllers evaluate on a parsed action: the SQL text it
 * carries and the summarisation prompt for the second call.
 */
module Actions {
  import opened Wrappers
  import opened Values
  import OrderedDict

  /** `str(e)` for the AttributeError of calling `.get` on a value that is not a dict. */
  function NoGetMessage(v: Value): string {
    "'" + TypeName(v) + "' object has no attribute 'get'"
  }

  /**
   * `action.get("function_parms", {}).get("query", "")`: the "query" entry of the
   * "function_parms" entry, "" when either key is absent, and an AttributeError when the action
   * or its parameters are not a dict.
   */
  function SqlOf(action: Value): (r: Result<Value>)
    ensures !action.Dict? ==> r == Err(NoGetMessage(action))
    ensures action.Dict? && "function_parms" !in OrderedDict.Keys(action.entries) ==> r == Ok(Str(""))
    ensures action.Dict? ==>
      match OrderedDict.Lookup(action.entries, "function_parms")
      case None => r.Ok?
      case Some(p) =>
        && (!p.Dict? ==> r == Err(NoGetMessage(p)))
        && (p.Dict? && "query" !in OrderedDict.Keys(p.entries) ==> r == Ok(Str("")))
        && (p.Dict? && "query" in OrderedDict.Keys(p.entries) ==> r == Ok(OrderedDict.Lookup(p.entries, "query").value))
  {
    if !action.Dict? then Err(NoGetMessage(action))
    else
      var params := OrderedDict.Lookup(action.entries, "function_parms").GetOr(Dict([]));
      if !params.Dict? then Err(NoGetMessage(params))
      else Ok(OrderedDict.Lookup(params.entries, "query").GetOr(Str("")))
  }

  /** What both controllers report when the model's reply holds no action. */
  const ParseErrorMessage := "Error parsing response."

  /** The instruction that follows the result in the summarisation prompt. */
  const SummaryInstruction := "Summarize concisely without assumptions. Use chat history for follow-ups; if unclear, infer the last mentioned entity/metric. Exclude SQL and JSON."

  /** `f"User: {question}. Result: {result}. " + SummaryInstruction` */
  function SummaryPrompt(question: string, result: Value, show: Value -> string): string {
    "User: " + question + ". Result: " + Values.Text(result, show) + ". " + SummaryInstruction
  }
}
