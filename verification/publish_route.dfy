/** `POST /api/publish` (frontend/app/api/publish/route.ts): four ordered guards, the call
    to the publisher, and the publisher's own message passed through on failure. */
module PublishRoute {
  import opened Results
  import opened Json
  import opened Types
  import opened Http
  import Publisher

  const CompanyNameRequired := "Company name is required"
  const SummaryRequired := "JD summary is required"
  const DraftRequired := "Email draft is required"
  const ResumeRequired := "Resume is required"
  const DefaultFailure := "Failed to publish to GitHub"

  /** `v && v[key]`: a truthy value whose member `key` is truthy. */
  predicate HasTruthyMember(v: Option<JValue>, key: string)
  {
    Truthy(v) && Truthy(Member(v.value, key))
  }

  /** The guards of lines 10-36, in the order they run. */
  function PublishChecks(fields: map<string, JValue>): (r: seq<Check>)
    ensures |r| == 4
  {
    [ Check(IsNonEmptyString(Get(fields, CompanyNameKey)), CompanyNameRequired),
      Check(HasTruthyMember(Get(fields, SummaryKey), "summary"), SummaryRequired),
      Check(HasTruthyMember(Get(fields, DraftKey), "email_body"), DraftRequired),
      Check(IsNonEmptyString(Get(fields, ResumeKey)), ResumeRequired) ]
  }

  /** The arguments the route passes to `publishToGitHub`. */
  datatype PublishInputs = PublishInputs(companyName: string, jdSummary: JValue, emailDraft: JValue, resume: string)

  function ValidatePublish(body: RequestBody): (r: Validation<PublishInputs>)
    ensures !r.Crashed? <==> body.Body?
    ensures body.Body? ==> (r.Rejected? <==> FirstFailure(PublishChecks(body.fields)).Some?)
    ensures r.Rejected? ==> Some(r.message) == FirstFailure(PublishChecks(body.fields))
    ensures r.Accepted? ==>
              && body.Body?
              && Get(body.fields, CompanyNameKey) == Some(JStr(r.inputs.companyName)) && r.inputs.companyName != ""
              && Get(body.fields, SummaryKey) == Some(r.inputs.jdSummary) && Truthy(Member(r.inputs.jdSummary, "summary"))
              && Get(body.fields, DraftKey) == Some(r.inputs.emailDraft) && Truthy(Member(r.inputs.emailDraft, "email_body"))
              && Get(body.fields, ResumeKey) == Some(JStr(r.inputs.resume)) && r.inputs.resume != ""
  {
    match body
    case Unreadable(_) => Crashed
    case Body(fields) =>
      match FirstFailure(PublishChecks(fields))
      case Some(m) => Rejected(m)
      case None =>
        assert PublishChecks(fields)[0].ok && PublishChecks(fields)[1].ok;
        assert PublishChecks(fields)[2].ok && PublishChecks(fields)[3].ok;
        Accepted(PublishInputs(fields[CompanyNameKey].s, fields[SummaryKey], fields[DraftKey], fields[ResumeKey].s))
  }

  /** `error.message || 'Failed to publish to GitHub'`. */
  function FailureMessage(message: string): (m: string)
    ensures m != ""
    ensures message != "" ==> m == message
  {
    if message == "" then DefaultFailure else message
  }

  /** The route's answer, and the publisher run it started, if any. */
  datatype PublishExchange = PublishExchange(response: ApiResponse<GitHubResult>, run: Option<Publisher.PublishRun>)

  function HandlePublish(body: RequestBody, env: Publisher.Environment, script: seq<Publisher.Outcome>): (r: PublishExchange)
    ensures r.run.Some? <==> ValidatePublish(body).Accepted?
    ensures ValidatePublish(body).Rejected? ==> r.response == ErrorStatus(400, ValidatePublish(body).message)
    ensures body.Unreadable? ==> r.response == ErrorStatus(500, FailureMessage(body.message))
    ensures r.run.Some? ==>
              var v := ValidatePublish(body).inputs;
              r.run.value == Publisher.Publish(v.companyName, v.jdSummary, v.emailDraft, v.resume, env, script)
    ensures r.run.Some? ==>
              match r.run.value.result
              case Ok(g) => r.response == Success(g)
              case Err(m) => r.response == ErrorStatus(500, FailureMessage(m))
  {
    match ValidatePublish(body)
    case Rejected(m) => PublishExchange(ErrorStatus(400, m), None)
    case Crashed => PublishExchange(ErrorStatus(500, FailureMessage(body.message)), None)
    case Accepted(v) =>
      var run := Publisher.Publish(v.companyName, v.jdSummary, v.emailDraft, v.resume, env, script);
      match run.result
      case Ok(g) => PublishExchange(Success(g), Some(run))
      case Err(m) => PublishExchange(ErrorStatus(500, FailureMessage(m)), Some(run))
  }

  /** A guard decides the answer when every guard before it passes, and the publisher is
      not called: nothing is written and no command runs. */
  lemma PublishGuardPrecedence(fields: map<string, JValue>, i: nat, env: Publisher.Environment,
                               script: seq<Publisher.Outcome>)
    requires i < 4 && !PublishChecks(fields)[i].ok
    requires forall k :: 0 <= k < i ==> PublishChecks(fields)[k].ok
    ensures HandlePublish(Body(fields), env, script) == PublishExchange(ErrorStatus(400, PublishChecks(fields)[i].message), None)
  {
    var j := FirstFailingIndex(PublishChecks(fields));
    assert j == i;
  }

  /** On a deployment the route answers 500 with the publisher's Vercel message, having
      touched nothing. */
  lemma PublishOnVercel(body: RequestBody, env: Publisher.Environment, script: seq<Publisher.Outcome>)
    requires ValidatePublish(body).Accepted? && Publisher.IsVercel(env)
    ensures HandlePublish(body, env, script).response == ErrorStatus(500, Publisher.VercelMessage)
    ensures HandlePublish(body, env, script).run.value.trace == []
  {
  }

  /** A git failure after the files are written is not an error to the page: the degraded
      result comes back with status 200. */
  lemma PublishDegradedIsSuccess(body: RequestBody, env: Publisher.Environment, script: seq<Publisher.Outcome>)
    requires ValidatePublish(body).Accepted?
    requires HandlePublish(body, env, script).run.value.result.Ok?
    ensures HandlePublish(body, env, script).response.Success?
    ensures HandlePublish(body, env, script).response.value.files_created
            == Publisher.ArtifactPaths(Publisher.SubmissionFor(ValidatePublish(body).inputs.companyName, env))
  {
  }
}
