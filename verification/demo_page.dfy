/** The single-screen demo page (adi-vp-agent-demo/app/page.tsx): the guarded sample form,
    removal by id, and `handleSubmit`, which validates, asks for a summary and then for a
    draft. The draft endpoint is a parameter from request body to fetch outcome, so the
    page can be run against the model of its own draft route. */
module DemoPage {
  import opened Results
  import opened Text
  import opened Json
  import opened Llm
  import opened Types
  import opened Http
  import opened Samples
  import Drafter
  import DraftRoute

  const SampleInputsRequired := "Please provide both title and content for the writing sample"
  const JobDescriptionMissing := "Please paste a job description"
  const CompanyNameMissing := "Please enter the company name"
  const SamplesMissing := "Please add at least one writing sample"
  const SubmitError := "Error processing your request. Please try again."

  /** The page's state. `resume` belongs to the corrected page only: the page as written
      has no resume input, and `SubmitAsWritten` never reads it. */
  datatype DemoState = DemoState(
    jobDescription: string,
    companyName: string,
    resume: string,
    samples: seq<WritingSample>,
    newTitle: string,
    newContent: string,
    isLoading: bool,
    summary: Option<JDSummary>,
    emailDraft: Option<EmailDraft>,
    error: string)

  /** `addWritingSample`: blank inputs only set the error; otherwise the sample is appended
      with its title as typed (not trimmed), and the form and the error are cleared. */
  function AddWritingSample(s: DemoState, now: string): (r: DemoState)
    ensures IsBlank(s.newTitle) || IsBlank(s.newContent) ==> r == s.(error := SampleInputsRequired)
    ensures !IsBlank(s.newTitle) && !IsBlank(s.newContent) ==>
              && r.samples == s.samples + [WritingSample(now, s.newTitle, s.newContent, WordCount(s.newContent))]
              && r.newTitle == "" && r.newContent == "" && r.error == ""
              && r == s.(samples := r.samples, newTitle := "", newContent := "", error := "")
  {
    if IsBlank(s.newTitle) || IsBlank(s.newContent) then
      s.(error := SampleInputsRequired)
    else
      var x := WritingSample(now, s.newTitle, s.newContent, WordCount(s.newContent));
      s.(samples := s.samples + [x], newTitle := "", newContent := "", error := "")
  }

  /** `removeSample`. */
  function RemoveSample(s: DemoState, id: string): (r: DemoState)
    ensures forall k :: 0 <= k < |r.samples| ==> r.samples[k].id != id
    ensures r == s.(samples := r.samples)
  {
    s.(samples := Without(s.samples, id))
  }

  /** Every stored sample has a non-empty title and content. */
  predicate SamplesFilled(samples: seq<WritingSample>)
  {
    forall k :: 0 <= k < |samples| ==> samples[k].title != "" && samples[k].content != ""
  }

  /** The form's guard keeps every stored sample filled. */
  lemma AddKeepsSamplesFilled(s: DemoState, now: string)
    requires SamplesFilled(s.samples)
    ensures SamplesFilled(AddWritingSample(s, now).samples)
  {
    var added := AddWritingSample(s, now).samples;
    if !IsBlank(s.newTitle) && !IsBlank(s.newContent) {
      NotBlankIsNonEmpty(s.newTitle);
      NotBlankIsNonEmpty(s.newContent);
      assert added == s.samples + [WritingSample(now, s.newTitle, s.newContent, WordCount(s.newContent))];
      forall k | 0 <= k < |added|
        ensures added[k].title != "" && added[k].content != ""
      {
        if k < |s.samples| {
          assert added[k] == s.samples[k];
        }
      }
    } else {
      assert added == s.samples;
    }
  }

  /** Removal keeps every stored sample filled. */
  lemma RemoveKeepsSamplesFilled(s: DemoState, id: string)
    requires SamplesFilled(s.samples)
    ensures SamplesFilled(RemoveSample(s, id).samples)
  {
    var kept := Without(s.samples, id);
    forall k | 0 <= k < |kept|
      ensures kept[k].title != "" && kept[k].content != ""
    {
      WithoutMembers(s.samples, id, kept[k]);
      var j :| 0 <= j < |s.samples| && s.samples[j] == kept[k];
    }
  }

  /** The guards of lines 48-61, in the order they run. */
  function SubmitChecks(s: DemoState): (r: seq<Check>)
    ensures |r| == 3
  {
    [ Check(!IsBlank(s.jobDescription), JobDescriptionMissing),
      Check(!IsBlank(s.companyName), CompanyNameMissing),
      Check(|s.samples| > 0, SamplesMissing) ]
  }

  /** Passing the guards leaves non-empty texts and at least one sample. */
  lemma SubmitChecksPass(s: DemoState)
    requires FirstFailure(SubmitChecks(s)).None?
    ensures s.jobDescription != "" && s.companyName != "" && |s.samples| > 0
  {
    assert SubmitChecks(s)[0].ok && SubmitChecks(s)[1].ok && SubmitChecks(s)[2].ok;
    NotBlankIsNonEmpty(s.jobDescription);
    NotBlankIsNonEmpty(s.companyName);
  }

  /** The two requests the page can send. */
  datatype Request = ToSummarize(body: map<string, JValue>) | ToDraft(body: map<string, JValue>)

  /** What the draft endpoint answers to a request body. */
  type DraftService = map<string, JValue> -> Fetched<EmailDraft>

  function SummarizeBody(s: DemoState): map<string, JValue>
  {
    map[JobDescriptionKey := JStr(s.jobDescription)]
  }

  /** The draft request of lines 87-95, which has no `resume` member. */
  function DraftBodyAsWritten(s: DemoState, summary: JDSummary): map<string, JValue>
  {
    map[
      JobDescriptionKey := JStr(s.jobDescription),
      CompanyNameKey := JStr(s.companyName),
      SummaryKey := SummaryJson(summary),
      SamplesKey := SamplesJson(s.samples)]
  }

  /** The draft request with the resume the draft route requires. */
  function DraftBody(s: DemoState, summary: JDSummary): map<string, JValue>
  {
    DraftBodyAsWritten(s, summary)[ResumeKey := JStr(s.resume)]
  }

  lemma DraftBodyMembers(s: DemoState, summary: JDSummary)
    ensures Get(DraftBody(s, summary), JobDescriptionKey) == Some(JStr(s.jobDescription))
    ensures Get(DraftBody(s, summary), CompanyNameKey) == Some(JStr(s.companyName))
    ensures Get(DraftBody(s, summary), ResumeKey) == Some(JStr(s.resume))
    ensures Get(DraftBody(s, summary), SummaryKey) == Some(SummaryJson(summary))
    ensures Get(DraftBody(s, summary), SamplesKey) == Some(SamplesJson(s.samples))
    ensures Get(DraftBodyAsWritten(s, summary), JobDescriptionKey) == Some(JStr(s.jobDescription))
    ensures Get(DraftBodyAsWritten(s, summary), CompanyNameKey) == Some(JStr(s.companyName))
    ensures Get(DraftBodyAsWritten(s, summary), ResumeKey) == None
  {
    RequestKeysDistinct();
  }

  /** A submission's end state and the requests it sent, in order. */
  datatype SubmitRun = SubmitRun(state: DemoState, requests: seq<Request>)

  /** `handleSubmit`, parameterised by how the draft request body is built. */
  function SubmitWith(s: DemoState, summaryReply: Fetched<JDSummary>, draftService: DraftService,
                      draftBody: JDSummary -> map<string, JValue>): (r: SubmitRun)
    ensures FirstFailure(SubmitChecks(s)).Some? ==>
              r == SubmitRun(s.(error := FirstFailure(SubmitChecks(s)).value), [])
    ensures FirstFailure(SubmitChecks(s)).None? ==>
              && !r.state.isLoading
              && 1 <= |r.requests| <= 2
              && r.requests[0] == ToSummarize(SummarizeBody(s))
              && r.state.jobDescription == s.jobDescription && r.state.companyName == s.companyName
              && r.state.samples == s.samples
              && r.state == s.(isLoading := false, error := r.state.error,
                               summary := r.state.summary, emailDraft := r.state.emailDraft)
              && (|r.requests| == 2 <==> Succeeded(summaryReply))
              && (r.state.emailDraft.Some? <==> r.state.error == "")
    ensures FirstFailure(SubmitChecks(s)).None? && !Succeeded(summaryReply) ==>
              r.state.summary == None && r.state.emailDraft == None && r.state.error == SubmitError
    ensures FirstFailure(SubmitChecks(s)).None? && Succeeded(summaryReply) ==>
              var body := draftBody(summaryReply.response.value);
              && r.state.summary == Some(summaryReply.response.value)
              && r.requests[1] == ToDraft(body)
              && (Succeeded(draftService(body)) ==> r.state.emailDraft == Some(draftService(body).response.value))
              && (!Succeeded(draftService(body)) ==> r.state.emailDraft == None && r.state.error == SubmitError)
  {
    match FirstFailure(SubmitChecks(s))
    case Some(m) => SubmitRun(s.(error := m), [])
    case None =>
      var started := s.(isLoading := true, error := "", summary := None, emailDraft := None);
      var asked := [ToSummarize(SummarizeBody(s))];
      match summaryReply
      case Answered(Success(v)) =>
        var withSummary := started.(summary := Some(v));
        var body := draftBody(v);
        var settled := match draftService(body)
          case Answered(Success(d)) => withSummary.(emailDraft := Some(d), isLoading := false)
          case _ => withSummary.(error := SubmitError, isLoading := false);
        SubmitRun(settled, asked + [ToDraft(body)])
      case _ =>
        SubmitRun(started.(error := SubmitError, isLoading := false), asked)
  }

  /** `handleSubmit` as written. */
  function SubmitAsWritten(s: DemoState, summaryReply: Fetched<JDSummary>, draftService: DraftService): SubmitRun
  {
    SubmitWith(s, summaryReply, draftService, v => DraftBodyAsWritten(s, v))
  }

  /** `handleSubmit` sending the resume along. */
  function Submit(s: DemoState, summaryReply: Fetched<JDSummary>, draftService: DraftService): SubmitRun
  {
    SubmitWith(s, summaryReply, draftService, v => DraftBody(s, v))
  }

  /** The draft route of the same application as the draft endpoint. */
  function RouteService(reply: ModelReply, parse: Parser): DraftService
  {
    body => Answered(DraftRoute.HandleDraft(Body(body), reply, parse).response)
  }

  /** A guard decides the outcome when the guards before it pass: its message is shown
      and no request is sent. */
  lemma SubmitGuardPrecedence(s: DemoState, i: nat, summaryReply: Fetched<JDSummary>, draftService: DraftService)
    requires i < 3 && !SubmitChecks(s)[i].ok
    requires forall k :: 0 <= k < i ==> SubmitChecks(s)[k].ok
    ensures Submit(s, summaryReply, draftService) == SubmitRun(s.(error := SubmitChecks(s)[i].message), [])
  {
    assert FirstFailingIndex(SubmitChecks(s)) == i;
  }

  /** The draft request as written, after the page's own guards pass, is refused by the
      draft route at its third guard, whatever the model would have replied. */
  lemma DraftBodyAsWrittenRejected(s: DemoState, summary: JDSummary, reply: ModelReply, parse: Parser)
    requires FirstFailure(SubmitChecks(s)).None?
    ensures DraftRoute.HandleDraft(Body(DraftBodyAsWritten(s, summary)), reply, parse)
            == DraftRoute.DraftExchange(ErrorStatus(400, DraftRoute.ResumeRequired), None)
  {
    SubmitChecksPass(s);
    DraftBodyMembers(s, summary);
    var f := DraftBodyAsWritten(s, summary);
    DraftRoute.RejectsMissingResume(f, reply, parse);
  }

  /** Run against its own draft route, the page as written never obtains a draft: every
      submission that passes its guards ends with the generic error. */
  lemma SubmitAsWrittenNeverDrafts(s: DemoState, summaryReply: Fetched<JDSummary>, reply: ModelReply, parse: Parser)
    requires FirstFailure(SubmitChecks(s)).None?
    ensures SubmitAsWritten(s, summaryReply, RouteService(reply, parse)).state.emailDraft == None
    ensures SubmitAsWritten(s, summaryReply, RouteService(reply, parse)).state.error == SubmitError
  {
    if Succeeded(summaryReply) {
      DraftBodyAsWrittenRejected(s, summaryReply.response.value, reply, parse);
    }
  }

  /** With the resume sent, a submission whose guards pass, with a non-empty resume, a
      summary with a non-empty role summary and filled samples, passes every guard of the
      draft route, which hands the drafter the page's own inputs. */
  lemma DraftBodyAccepted(s: DemoState, summary: JDSummary)
    requires FirstFailure(SubmitChecks(s)).None?
    requires s.resume != "" && summary.summary != "" && SamplesFilled(s.samples)
    ensures DraftRoute.ValidateDraft(Body(DraftBody(s, summary))) ==
              Accepted(DraftRoute.DraftInputs(s.jobDescription, s.companyName, s.resume,
                                              SummaryJson(summary), DraftRoute.SampleInputs(s.samples)))
  {
    SubmitChecksPass(s);
    DraftBodyMembers(s, summary);
    var f := DraftBody(s, summary);
    DraftRoute.AcceptsWellFormedRequest(f, s.jobDescription, s.companyName, s.resume, summary, s.samples);
  }

  /** With the resume sent, the page shows exactly the draft the drafter produced for its
      inputs, and the generic error only when the drafter failed. */
  lemma SubmitDraftsThroughRoute(s: DemoState, summary: JDSummary, reply: ModelReply, parse: Parser)
    requires FirstFailure(SubmitChecks(s)).None?
    requires s.resume != "" && summary.summary != "" && SamplesFilled(s.samples)
    ensures var run := Drafter.DraftEmail(s.jobDescription, s.companyName, s.resume, SummaryJson(summary),
                                          DraftRoute.SampleInputs(s.samples), reply, parse);
            var page := Submit(s, Answered(Success(summary)), RouteService(reply, parse)).state;
            && (run.result.Ok? ==> page.emailDraft == Some(run.result.value) && page.error == "")
            && (run.result.Err? ==> page.emailDraft == None && page.error == SubmitError)
  {
    DraftBodyAccepted(s, summary);
  }
}
