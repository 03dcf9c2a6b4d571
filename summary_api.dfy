/** The `generateSummary` backend call: request payload, envelope validation and mapping. */
module SummaryApi {
  import opened Wrappers
  import opened JsValue
  import opened Http

  /** What the summary request answers: the sub-course and the status of its summary. */
  datatype SummaryData = SummaryData(subID: Value, summaryStatus: Value)

  /** The POST that `generateSummary(subID, token, task)` sends. */
  function SummaryRequest(subID: Value, token: Value, task: string): (req: PostRequest)
    ensures req.route == "/generateSummary"
    ensures req.body.Keys == {"sub_id", "token", "task"}
    ensures req.body["sub_id"] == subID && req.body["token"] == token && req.body["task"] == Str(task)
  {
    PostRequest("/generateSummary", map["sub_id" := subID, "token" := token, "task" := Str(task)])
  }

  /** The arguments are carried unchanged: distinct calls send distinct requests. */
  lemma SummaryRequestInjective(s1: Value, t1: Value, k1: string, s2: Value, t2: Value, k2: string)
    requires SummaryRequest(s1, t1, k1) == SummaryRequest(s2, t2, k2)
    ensures s1 == s2 && t1 == t2 && k1 == k2
  {
    var r1, r2 := SummaryRequest(s1, t1, k1), SummaryRequest(s2, t2, k2);
    assert r1.body["sub_id"] == r2.body["sub_id"];
    assert r1.body["token"] == r2.body["token"];
    assert r1.body["task"] == r2.body["task"];
  }

  /**
   * `generateSummary(subID, token, task)` against the oracle `post`: a result exactly for a
   * success envelope; a rejected `post` is caught and gives `undefined`.
   */
  function GenerateSummary(subID: Value, token: Value, task: string, post: Post): (r: Option<SummaryData>)
    ensures var answer := post(SummaryRequest(subID, token, task));
      r.Some? <==>
        && answer.Resolved? && answer.value.Object?
        && "code" in answer.value.props && "data" in answer.value.props
        && answer.value.props["code"] == Number(200.0)
        && Truthy(answer.value.props["data"])
    ensures r.Some? ==>
      var data := post(SummaryRequest(subID, token, task)).value.props["data"];
      r.value == SummaryData(Read(data, "sub_id"), Read(data, "summary_status"))
  {
    match post(SummaryRequest(subID, token, task))
    case Rejected => None
    case Resolved(response) =>
      match SuccessData(response)
      case None => None
      case Some(data) => Some(SummaryData(Read(data, "sub_id"), Read(data, "summary_status")))
  }

  /**
   * A success response carrying `d`; `envelope` and `dataRest` hold the other keys of the
   * envelope (`msg` among them) and of `data`, which the keys carrying `d` override.
   */
  function SummaryResponseOf(d: SummaryData, envelope: map<string, Value>, dataRest: map<string, Value>): Value
  {
    var data := dataRest["sub_id" := d.subID]["summary_status" := d.summaryStatus];
    Object(envelope["code" := Number(200.0)]["data" := Object(data)])
  }

  /**
   * Round trip of the renaming `sub_id`/`summary_status` to `subID`/`summaryStatus`, for
   * every success response whatever else it carries.
   */
  lemma GenerateSummaryRoundTrip(subID: Value, token: Value, task: string, post: Post, d: SummaryData,
                                 envelope: map<string, Value>, dataRest: map<string, Value>)
    requires post(SummaryRequest(subID, token, task)) == Resolved(SummaryResponseOf(d, envelope, dataRest))
    ensures GenerateSummary(subID, token, task, post) == Some(d)
  {
  }
}
