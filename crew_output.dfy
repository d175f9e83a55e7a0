/** `process_crew_output`: the result shapes the crew's kickoff can return,
    mapped to one dictionary shape. */
module CrewOutput {
  import opened Values
  import opened CrewConfig

  /** The shapes a kickoff result is told apart by, checked in this order. */
  datatype KickoffResult =
    | DictResult(entries: Dictionary)  // a dict
    | RawResult(raw: Value)            // an object exposing a `raw` payload
    | TextResult(text: string)         // a plain string
    | Uninterpretable(error: string)   // inspecting it raised, with this message

  /** The output and what the normaliser logged while producing it. */
  datatype Normalized = Normalized(output: Dictionary, logged: seq<LogEntry>)

  function ErrorOutput(message: string): (d: Dictionary)
    ensures d.Keys == {"error"} && d["error"] == Str(message)
  {
    map["error" := Str(message)]
  }

  const ProcessFailurePrefix := "Failed to process output: "

  function ProcessCrewOutput(r: KickoffResult): (n: Normalized)
    ensures r.DictResult? ==> n == Normalized(r.entries, [])
    ensures r.RawResult? ==>
              n.output.Keys == {"result", "type"} && n.output["result"] == r.raw &&
              n.output["type"] == Str("crew_result") && n.logged == []
    ensures r.TextResult? ==>
              n.output.Keys == {"result", "type"} && n.output["result"] == Str(r.text) &&
              n.output["type"] == Str("processed") && n.logged == []
    ensures r.Uninterpretable? ==>
              n.output == ErrorOutput(ProcessFailurePrefix + r.error) &&
              |n.logged| == 1 && n.logged[0].Error?
  {
    match r
    case DictResult(d) => Normalized(d, [])
    case RawResult(raw) => Normalized(map["result" := raw, "type" := Str("crew_result")], [])
    case TextResult(s) => Normalized(map["result" := Str(s), "type" := Str("processed")], [])
    case Uninterpretable(e) =>
      var message := ProcessFailurePrefix + e;
      Normalized(ErrorOutput(message), [Error(message)])
  }

  /** Only an uninterpretable result, or a dict that already says so, yields an "error" key. */
  lemma {:induction false} ErrorOnlyOnFailure(r: KickoffResult)
    ensures "error" in ProcessCrewOutput(r).output <==>
              r.Uninterpretable? || (r.DictResult? && "error" in r.entries)
    ensures r.Uninterpretable? ==>
              var e := ProcessCrewOutput(r).output["error"];
              e.Str? && e.s[..|ProcessFailurePrefix|] == ProcessFailurePrefix
  {
    match r
    case RawResult(_) =>
      assert ProcessCrewOutput(r).output.Keys == {"result", "type"};
    case TextResult(_) =>
      assert ProcessCrewOutput(r).output.Keys == {"result", "type"};
    case _ =>
  }
}
