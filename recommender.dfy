/** recommend_stocks (backend/src/stock_recommender.py): the agent is chosen by
    `agent_type`, its result is checked and unwrapped, exactly one save is
    dispatched and the parsed result is returned. The agent and the save are
    effects outside this function: the agent's answer is a parameter and the
    save is described by the arguments it receives. */
module Recommender {
  import opened Common

  /** `params.get('agent_type', 'direct')`. */
  function AgentType(params: map<String, Json>): (t: Json)
    ensures "agent_type" !in params ==> t == JStr("direct")
    ensures "agent_type" in params ==> t == params["agent_type"]
  {
    GetField(params, "agent_type", JStr("direct"))
  }

  /** The one call to save_recommendation: the result to save and the raw response. */
  datatype SaveCall = SaveCall(result: map<String, Json>, raw: Json)

  datatype Outcome =
    | Rejected                                 // not a dict: {"status": "error", ...}, no save
    | Raises                                   // the unwrapped result has no `.get`
    | Returned(parsed: Json, save: SaveCall)   // the save made, then `return parsed_result`

  /** The result to work on and the raw response: unwrapped when the answer carries both
      `parsed_result` and `raw_response`, else the answer itself with no raw response. */
  function Unwrap(fields: map<String, Json>): (r: (Json, Json))
    ensures "parsed_result" in fields && "raw_response" in fields ==> r == (fields["parsed_result"], fields["raw_response"])
    ensures !("parsed_result" in fields && "raw_response" in fields) ==> r == (JObj(fields), JNull)
  {
    if "parsed_result" in fields && "raw_response" in fields then (fields["parsed_result"], fields["raw_response"])
    else (JObj(fields), JNull)
  }

  /** recommend_stocks given the chosen agent's answer. */
  function Recommend(answer: Json): (r: Outcome)
    ensures r == Rejected <==> !answer.JObj?
    ensures r.Returned? ==> r.parsed == Unwrap(answer.fields).0 && r.save.raw == Unwrap(answer.fields).1
    ensures r.Raises? <==> answer.JObj? && !Unwrap(answer.fields).0.JObj?
  {
    if !answer.JObj? then Rejected
    else
      var (parsed, raw) := Unwrap(answer.fields);
      if !parsed.JObj? then Raises
      else if GetField(parsed.fields, "status", JNull) != JStr("error") then Returned(parsed, SaveCall(parsed.fields, raw))
      else Returned(parsed, SaveCall(map[], raw))
  }

  /** The saved result is the parsed result itself unless its status is "error", in which
      case an empty dict is saved; either way the caller still gets the parsed result. */
  lemma SaveDispatch(answer: Json)
    requires Recommend(answer).Returned?
    ensures var r := Recommend(answer);
      GetField(r.parsed.fields, "status", JNull) == JStr("error") ==> r.save.result == map[]
    ensures var r := Recommend(answer);
      GetField(r.parsed.fields, "status", JNull) != JStr("error") ==> JObj(r.save.result) == r.parsed
  {
  }

  /** An agent error dict, as the direct agent returns it, is returned unchanged and an
      empty result is saved without a raw response. */
  lemma AgentErrorSavesEmpty(message: Json)
    ensures var answer := JObj(map["status" := JStr("error"), "message" := message]);
      Recommend(answer) == Returned(answer, SaveCall(map[], JNull))
  {
  }
}
