/** `POST /api/draft` (adi-vp-agent-demo/app/api/draft/route.ts): five ordered guards, the
    writing-sample format scan, delegation to the drafter, and one 500 message for every
    exception. */
module DraftRoute {
  import opened Results
  import opened Json
  import opened Llm
  import opened Types
  import opened Http
  import opened Drafter

  const JobDescriptionRequired := "Job description is required"
  const CompanyNameRequired := "Company name is required"
  const ResumeRequired := "Resume is required"
  const SummaryRequired := "JD summary is required"
  const SamplesRequired := "At least one writing sample is required"
  const InvalidSamples := "Invalid writing samples format"
  const RouteFailure := "Failed to draft email"

  /** `!jdSummary || !jdSummary.summary` fails. */
  predicate HasSummary(v: Option<JValue>)
  {
    Truthy(v) && Truthy(Member(v.value, "summary"))
  }

  /** `writingSamples` is a non-empty array. */
  predicate IsNonEmptyArray(v: Option<JValue>)
  {
    v.Some? && v.value.JArr? && |v.value.items| > 0
  }

  /** The guards of lines 15-48, in the order they run. */
  function DraftChecks(fields: map<string, JValue>): (r: seq<Check>)
    ensures |r| == 5
  {
    [ Check(IsNonEmptyString(Get(fields, JobDescriptionKey)), JobDescriptionRequired),
      Check(IsNonEmptyString(Get(fields, CompanyNameKey)), CompanyNameRequired),
      Check(IsNonEmptyString(Get(fields, ResumeKey)), ResumeRequired),
      Check(HasSummary(Get(fields, SummaryKey)), SummaryRequired),
      Check(IsNonEmptyArray(Get(fields, SamplesKey)), SamplesRequired) ]
  }

  /** The `every` callback's verdict on one element: truthy string `title` and `content`. */
  predicate IsSampleShape(v: JValue)
  {
    IsNonEmptyString(Member(v, "title")) && IsNonEmptyString(Member(v, "content"))
  }

  function SampleOf(v: JValue): (r: SampleInput)
    requires IsSampleShape(v)
    ensures Member(v, "title") == Some(JStr(r.title)) && Member(v, "content") == Some(JStr(r.content))
  {
    SampleInput(Member(v, "title").value.s, Member(v, "content").value.s)
  }

  /** Where `every` stops: the first element that is `null` (reading `null.title` throws)
      or fails the callback, or `|items|` when it runs to the end. */
  function FirstBadSample(items: seq<JValue>): (i: nat)
    ensures i <= |items|
    ensures i < |items| ==> items[i] == JNull || !IsSampleShape(items[i])
    ensures forall k :: 0 <= k < i ==> IsSampleShape(items[k])
  {
    if |items| == 0 || items[0] == JNull || !IsSampleShape(items[0]) then 0
    else 1 + FirstBadSample(items[1..])
  }

  /** The `{ title, content }` of every element, in order. */
  function SamplesOf(items: seq<JValue>): (r: seq<SampleInput>)
    requires forall i :: 0 <= i < |items| ==> IsSampleShape(items[i])
    ensures |r| == |items|
    ensures forall i :: 0 <= i < |items| ==> r[i] == SampleOf(items[i])
  {
    if |items| == 0 then [] else [SampleOf(items[0])] + SamplesOf(items[1..])
  }

  datatype SampleScan = NullSample | BadSample | WellFormed(samples: seq<SampleInput>)

  /** The sample scan of lines 51-61: `every` short-circuits, so only the first offending
      element matters, and whether it is `null` decides between a throw and a 400. */
  function ScanSamples(items: seq<JValue>): (r: SampleScan)
    ensures r.WellFormed? <==> forall i :: 0 <= i < |items| ==> IsSampleShape(items[i])
    ensures r.WellFormed? ==> |r.samples| == |items|
    ensures r.WellFormed? ==> forall i :: 0 <= i < |items| ==> IsSampleShape(items[i]) && r.samples[i] == SampleOf(items[i])
    ensures r.NullSample? <==>
              exists i :: 0 <= i < |items| && items[i] == JNull && forall k :: 0 <= k < i ==> IsSampleShape(items[k])
  {
    var i := FirstBadSample(items);
    if i == |items| then
      WellFormed(SamplesOf(items))
    else if items[i] == JNull then
      NullSample
    else
      assert forall j :: 0 <= j < |items| && items[j] == JNull ==> j > i;
      BadSample
  }

  /** The elements of `writingSamples` (empty when it is not an array). */
  function SampleItems(fields: map<string, JValue>): seq<JValue>
  {
    match Get(fields, SamplesKey)
    case Some(JArr(items)) => items
    case _ => []
  }

  /** The arguments the route passes to `draftEmail`. */
  datatype DraftInputs = DraftInputs(
    jobDescription: string,
    companyName: string,
    resume: string,
    jdSummary: JValue,
    samples: seq<SampleInput>)

  function ValidateDraft(body: RequestBody): (r: Validation<DraftInputs>)
    ensures body.Unreadable? ==> r == Crashed
    ensures body.Body? && FirstFailure(DraftChecks(body.fields)).Some? ==>
              r == Rejected(FirstFailure(DraftChecks(body.fields)).value)
    ensures body.Body? && FirstFailure(DraftChecks(body.fields)).None? ==>
              match ScanSamples(SampleItems(body.fields))
              case NullSample => r == Crashed
              case BadSample => r == Rejected(InvalidSamples)
              case WellFormed(samples) => r.Accepted? && r.inputs.samples == samples
    ensures r.Accepted? ==>
              && body.Body?
              && Get(body.fields, JobDescriptionKey) == Some(JStr(r.inputs.jobDescription)) && r.inputs.jobDescription != ""
              && Get(body.fields, CompanyNameKey) == Some(JStr(r.inputs.companyName)) && r.inputs.companyName != ""
              && Get(body.fields, ResumeKey) == Some(JStr(r.inputs.resume)) && r.inputs.resume != ""
              && Get(body.fields, SummaryKey) == Some(r.inputs.jdSummary) && HasSummary(Some(r.inputs.jdSummary))
              && |r.inputs.samples| > 0
  {
    match body
    case Unreadable(_) => Crashed
    case Body(fields) =>
      match FirstFailure(DraftChecks(fields))
      case Some(m) => Rejected(m)
      case None =>
        assert DraftChecks(fields)[4].ok;
        match ScanSamples(SampleItems(fields))
        case NullSample => Crashed
        case BadSample => Rejected(InvalidSamples)
        case WellFormed(samples) =>
          assert DraftChecks(fields)[0].ok && DraftChecks(fields)[1].ok && DraftChecks(fields)[2].ok;
          assert DraftChecks(fields)[3].ok;
          Accepted(DraftInputs(fields[JobDescriptionKey].s, fields[CompanyNameKey].s, fields[ResumeKey].s,
                               fields[SummaryKey], samples))
  }

  /** The route's answer, and the drafter call it made, if any. */
  datatype DraftExchange = DraftExchange(response: ApiResponse<EmailDraft>, run: Option<DraftRun>)

  function HandleDraft(body: RequestBody, reply: ModelReply, parse: Parser): (r: DraftExchange)
    ensures r.run.Some? <==> ValidateDraft(body).Accepted?
    ensures ValidateDraft(body).Rejected? ==> r.response == ErrorStatus(400, ValidateDraft(body).message)
    ensures ValidateDraft(body).Crashed? ==> r.response == ErrorStatus(500, RouteFailure)
    ensures r.run.Some? ==>
              var v := ValidateDraft(body).inputs;
              r.run.value == DraftEmail(v.jobDescription, v.companyName, v.resume, v.jdSummary, v.samples, reply, parse)
    ensures r.response.Success? <==> r.run.Some? && r.run.value.result.Ok?
    ensures r.response.Success? ==> r.run.value.result == Ok(r.response.value)
    ensures r.run.Some? && r.run.value.result.Err? ==> r.response == ErrorStatus(500, RouteFailure)
    ensures r.response.ErrorStatus? && r.response.status != 400 ==> r.response == ErrorStatus(500, RouteFailure)
  {
    match ValidateDraft(body)
    case Rejected(m) => DraftExchange(ErrorStatus(400, m), None)
    case Crashed => DraftExchange(ErrorStatus(500, RouteFailure), None)
    case Accepted(v) =>
      var run := DraftEmail(v.jobDescription, v.companyName, v.resume, v.jdSummary, v.samples, reply, parse);
      match run.result
      case Ok(d) => DraftExchange(Success(d), Some(run))
      case Err(_) => DraftExchange(ErrorStatus(500, RouteFailure), Some(run))
  }

  /** A guard decides the answer when every guard before it passes, whatever the later
      fields hold, and the drafter is not called. */
  lemma DraftGuardPrecedence(fields: map<string, JValue>, i: nat, reply: ModelReply, parse: Parser)
    requires i < 5 && !DraftChecks(fields)[i].ok
    requires forall k :: 0 <= k < i ==> DraftChecks(fields)[k].ok
    ensures HandleDraft(Body(fields), reply, parse) == DraftExchange(ErrorStatus(400, DraftChecks(fields)[i].message), None)
  {
    var checks := DraftChecks(fields);
    var j := FirstFailingIndex(checks);
    assert j == i;
  }

  /** A request with a job description and a company name but no usable resume is refused
      with "Resume is required", whatever its summary and samples hold. */
  lemma RejectsMissingResume(f: map<string, JValue>, reply: ModelReply, parse: Parser)
    requires IsNonEmptyString(Get(f, JobDescriptionKey)) && IsNonEmptyString(Get(f, CompanyNameKey))
    requires !IsNonEmptyString(Get(f, ResumeKey))
    ensures HandleDraft(Body(f), reply, parse) == DraftExchange(ErrorStatus(400, ResumeRequired), None)
  {
    DraftGuardPrecedence(f, 2, reply, parse);
  }

  /** Samples as the pages send them. */
  function SampleInputs(ws: seq<WritingSample>): (r: seq<SampleInput>)
    ensures |r| == |ws|
    ensures forall i :: 0 <= i < |ws| ==> r[i] == SampleInput(ws[i].title, ws[i].content)
  {
    seq(|ws|, i requires 0 <= i < |ws| => SampleInput(ws[i].title, ws[i].content))
  }

  /** Samples with non-empty titles and contents, sent the way both pages send them, pass
      the format scan and reach the drafter unchanged. */
  lemma SamplesJsonWellFormed(ws: seq<WritingSample>)
    requires forall i :: 0 <= i < |ws| ==> ws[i].title != "" && ws[i].content != ""
    ensures ScanSamples(SamplesJson(ws).items) == WellFormed(SampleInputs(ws))
  {
    var items := SamplesJson(ws).items;
    forall i | 0 <= i < |ws|
      ensures IsSampleShape(items[i]) && SampleOf(items[i]) == SampleInput(ws[i].title, ws[i].content)
    {
      assert Member(items[i], "title") == Some(JStr(ws[i].title));
      assert Member(items[i], "content") == Some(JStr(ws[i].content));
    }
  }

  /** A request whose texts are non-empty strings, whose summary is a summary with a
      non-empty role summary, and whose samples are filled, as both pages build it, passes
      every guard and reaches the drafter with exactly those inputs. */
  lemma AcceptsWellFormedRequest(f: map<string, JValue>, jobDescription: string, companyName: string,
                                 resume: string, summary: JDSummary, ws: seq<WritingSample>)
    requires Get(f, JobDescriptionKey) == Some(JStr(jobDescription)) && jobDescription != ""
    requires Get(f, CompanyNameKey) == Some(JStr(companyName)) && companyName != ""
    requires Get(f, ResumeKey) == Some(JStr(resume)) && resume != ""
    requires Get(f, SummaryKey) == Some(SummaryJson(summary)) && summary.summary != ""
    requires Get(f, SamplesKey) == Some(SamplesJson(ws)) && |ws| > 0
    requires forall k :: 0 <= k < |ws| ==> ws[k].title != "" && ws[k].content != ""
    ensures ValidateDraft(Body(f)) ==
              Accepted(DraftInputs(jobDescription, companyName, resume, SummaryJson(summary), SampleInputs(ws)))
  {
    assert Member(SummaryJson(summary), "summary") == Some(JStr(summary.summary));
    assert SampleItems(f) == SamplesJson(ws).items;
    SamplesJsonWellFormed(ws);
    var checks := DraftChecks(f);
    assert checks[0].ok && checks[1].ok && checks[2].ok && checks[3].ok && checks[4].ok;
  }

  /** The sample scan stops at the first offending element: a `null` there is a 500, any
      other offender a 400, whatever follows. */
  lemma NullSampleCrashes(fields: map<string, JValue>, reply: ModelReply, parse: Parser)
    requires FirstFailure(DraftChecks(fields)).None?
    requires |SampleItems(fields)| > 0 && SampleItems(fields)[0] == JNull
    ensures HandleDraft(Body(fields), reply, parse) == DraftExchange(ErrorStatus(500, RouteFailure), None)
  {
    assert DraftChecks(fields)[4].ok;
    assert FirstBadSample(SampleItems(fields)) == 0;
  }

  /** Every exception the drafter raises, including the unwrapped TypeError of a summary
      whose requirements are not an array, reaches the page as the route's one 500
      message. */
  lemma DrafterErrorsBecomeRouteFailure(body: RequestBody, reply: ModelReply, parse: Parser)
    requires ValidateDraft(body).Accepted?
    requires BuildPrompt(ValidateDraft(body).inputs.jobDescription, ValidateDraft(body).inputs.companyName,
                         ValidateDraft(body).inputs.resume, ValidateDraft(body).inputs.jdSummary,
                         ValidateDraft(body).inputs.samples).Err?
    ensures HandleDraft(body, reply, parse).response == ErrorStatus(500, RouteFailure)
    ensures HandleDraft(body, reply, parse).run.value.invocations == []
  {
  }
}
