/** `POST /api/summarize` (adi-vp-agent-demo/app/api/summarize/route.ts): one guard, the
    call to the summariser with the same text, and one 500 message for every exception. */
module SummarizeRoute {
  import opened Results
  import opened Json
  import opened Llm
  import opened Types
  import opened Http
  import opened Summarizer

  const JobDescriptionRequired := "Job description is required"
  const RouteFailure := "Failed to summarize job description"

  function ValidateSummarize(body: RequestBody): (r: Validation<string>)
    ensures !r.Crashed? <==> body.Body?
    ensures body.Body? ==> (r.Rejected? <==> !IsNonEmptyString(Get(body.fields, JobDescriptionKey)))
    ensures r.Rejected? ==> r.message == JobDescriptionRequired
    ensures r.Accepted? ==> Get(body.fields, JobDescriptionKey) == Some(JStr(r.inputs)) && r.inputs != ""
  {
    match body
    case Unreadable(_) => Crashed
    case Body(fields) =>
      if IsNonEmptyString(Get(fields, JobDescriptionKey)) then Accepted(fields[JobDescriptionKey].s)
      else Rejected(JobDescriptionRequired)
  }

  /** The route's answer, and the summariser call it made, if any. */
  datatype SummarizeExchange = SummarizeExchange(response: ApiResponse<JDSummary>, run: Option<SummarizeRun>)

  function HandleSummarize(body: RequestBody, reply: ModelReply, parse: Parser): (r: SummarizeExchange)
    ensures r.run.Some? <==> ValidateSummarize(body).Accepted?
    ensures r.run.Some? ==> r.run.value.invocations == [ValidateSummarize(body).inputs]
    ensures r.run.Some? ==> r.run.value == SummarizeJD(ValidateSummarize(body).inputs, reply, parse)
    ensures ValidateSummarize(body).Rejected? ==> r.response == ErrorStatus(400, JobDescriptionRequired)
    ensures ValidateSummarize(body).Crashed? ==> r.response == ErrorStatus(500, RouteFailure)
    ensures r.run.Some? && r.run.value.result.Err? ==> r.response == ErrorStatus(500, RouteFailure)
    ensures r.response.Success? <==> r.run.Some? && r.run.value.result.Ok?
    ensures r.response.Success? ==> r.run.value.result == Ok(r.response.value)
    ensures r.response.ErrorStatus? && r.response.status != 400 ==> r.response == ErrorStatus(500, RouteFailure)
  {
    match ValidateSummarize(body)
    case Rejected(m) => SummarizeExchange(ErrorStatus(400, m), None)
    case Crashed => SummarizeExchange(ErrorStatus(500, RouteFailure), None)
    case Accepted(jd) =>
      var run := SummarizeJD(jd, reply, parse);
      match run.result
      case Ok(s) => SummarizeExchange(Success(s), Some(run))
      case Err(_) => SummarizeExchange(ErrorStatus(500, RouteFailure), Some(run))
  }

  /** A page's request `{ jobDescription }` with non-empty text reaches the summariser with
      that same text, and a reply carrying a summary's JSON comes back as that summary. */
  lemma SummarizeRequestRoundTrip(jd: string, prefix: string, body: string, suffix: string,
                                  parse: Parser, s: JDSummary)
    requires jd != ""
    requires '{' !in prefix && '}' !in suffix
    requires parse("{" + body + "}") == Some(SummaryFields(s))
    ensures HandleSummarize(Body(map[JobDescriptionKey := JStr(jd)]), Replied(prefix + "{" + body + "}" + suffix), parse)
            == SummarizeExchange(Success(s), Some(SummarizeRun([jd], Ok(s))))
  {
    assert Get(map[JobDescriptionKey := JStr(jd)], JobDescriptionKey) == Some(JStr(jd));
    SummarizeReadsReply(jd, prefix, body, suffix, parse, s);
  }
}
