/** The job-description summariser (frontend/lib/agents/jd-summarizer.ts): one model
    invocation, the greedy brace span, the `outputSchema` shape check, and one message for
    every failure. */
module Summarizer {
  import opened Results
  import opened Json
  import opened Llm
  import opened Types

  const SummaryFailure := "Failed to parse job description summary"

  /** A member that is present and a string (`z.string()`). */
  predicate IsStringMember(fields: map<string, JValue>, key: string)
  {
    key in fields && fields[key].JStr?
  }

  /** A member that is present and an array of strings (`z.array(z.string())`), of any
      length: the "5-7" in the schema is only a description for the model. */
  predicate IsStringListMember(fields: map<string, JValue>, key: string)
  {
    key in fields && fields[key].JArr? && StringsOf(fields[key].items).Some?
  }

  predicate MatchesSchema(fields: map<string, JValue>)
  {
    && IsStringMember(fields, "company_name")
    && IsStringMember(fields, "summary")
    && IsStringListMember(fields, "key_requirements")
    && IsStringMember(fields, "company_context")
  }

  /** `outputSchema.parse`: the four members when they have the right types (zod drops any
      other member), `None` when the parse throws. */
  function ValidateSummary(fields: map<string, JValue>): (r: Option<JDSummary>)
    ensures r.Some? <==> MatchesSchema(fields)
    ensures r.Some? ==> forall k :: k in SummaryFields(r.value) ==> k in fields && fields[k] == SummaryFields(r.value)[k]
  {
    if !MatchesSchema(fields) then None
    else
      var s := JDSummary(
        fields["company_name"].s,
        fields["summary"].s,
        StringsOf(fields["key_requirements"].items).value,
        fields["company_context"].s);
      assert JStrings(s.key_requirements) == fields["key_requirements"].items;
      Some(s)
  }

  /** Any summary, including one with no requirements at all, passes the schema and is
      read back unchanged. */
  lemma ValidateSummaryRoundTrip(s: JDSummary)
    ensures ValidateSummary(SummaryFields(s)) == Some(s)
  {
    StringsOfJStrings(s.key_requirements);
  }

  /** Members outside the schema neither make validation fail nor reach the result. */
  lemma ValidateIgnoresOtherMembers(fields: map<string, JValue>, key: string, v: JValue)
    requires key != "company_name" && key != "summary" && key != "key_requirements" && key != "company_context"
    ensures ValidateSummary(fields[key := v]) == ValidateSummary(fields)
  {
    var g := fields[key := v];
    assert MatchesSchema(g) <==> MatchesSchema(fields);
  }

  /** What a call to `summarizeJD` did: the job descriptions it sent to the model, and
      its outcome. */
  datatype SummarizeRun = SummarizeRun(invocations: seq<string>, result: Result<JDSummary>)

  function SummarizeJD(jdText: string, reply: ModelReply, parse: Parser): (r: SummarizeRun)
    ensures r.invocations == [jdText]
    ensures r.result.Ok? <==> ParsedReply(reply, parse).Some? && MatchesSchema(ParsedReply(reply, parse).value)
    ensures r.result.Ok? ==> Some(r.result.value) == ValidateSummary(ParsedReply(reply, parse).value)
    ensures r.result.Err? ==> r.result.message == SummaryFailure
  {
    var result := match ParsedReply(reply, parse)
      case None => Err(SummaryFailure)
      case Some(fields) =>
        match ValidateSummary(fields)
        case None => Err(SummaryFailure)
        case Some(s) => Ok(s);
    SummarizeRun([jdText], result)
  }

  /** A reply that carries a summary's JSON between brace-free prose is read back as that
      summary. */
  lemma SummarizeReadsReply(jdText: string, prefix: string, body: string, suffix: string,
                            parse: Parser, s: JDSummary)
    requires '{' !in prefix && '}' !in suffix
    requires parse("{" + body + "}") == Some(SummaryFields(s))
    ensures SummarizeJD(jdText, Replied(prefix + "{" + body + "}" + suffix), parse)
            == SummarizeRun([jdText], Ok(s))
  {
    ExtractJsonIsGreedy(prefix, body, suffix);
    ValidateSummaryRoundTrip(s);
  }
}
