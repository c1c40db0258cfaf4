# VP Agent Demo — a Dafny model of the job-application pipeline

This project models the deterministic core of a small job-application assistant. The
pipeline has five stages:

1. A page collects a job description, a resume and writing samples.
2. A summariser turns the job description into a `JDSummary` through a language model.
3. A drafter writes an introduction email in the user's style, also through a language model.
4. A publisher writes the artifacts into a `submissions/{slug}/{timestamp}` folder.
5. The publisher then pushes them as a branch and pull request with the `git` and `gh` command-line tools.

Every effect is a parameter of the model:

- **Language model:** its reply is a `ModelReply`.
- **`JSON.parse`:** an abstract `Parser`.
- **Filesystem and CLI steps:** each step of the publisher reads its `Outcome` from a script.
- **Clock:** the current time is an ISO string in the `Environment`.
- **`Date.now()` ids:** passed in as `now`.
- **Page fetches:** each fetch outcome is a `Fetched` value.

Everything else is pure functions over immutable datatypes.

Modules follow the source files:

| module | models |
|---|---|
| `Results`, `Json`, `Llm`, `Http`, `Types`, `Text` | shared vocabulary. Covers JSON values and JavaScript truthiness, and the greedy `/\{[\s\S]*\}/` span extraction. Also the request body after `request.json()`, route responses and fetch outcomes. Also the records of `frontend/types/index.ts`, `trim` and the `\s` class. |
| `Slug`, `Publisher` | `frontend/lib/agents/github-publisher.ts` |
| `Drafter` | `adi-vp-agent-demo/lib/agents/email-drafter.ts` |
| `Summarizer` | `frontend/lib/agents/jd-summarizer.ts` |
| `DraftRoute`, `PublishRoute`, `SummarizeRoute` | the three `POST` handlers |
| `Samples` | the writing-sample list shared by both pages: word count and removal by id |
| `Wizard` | the five-step page `frontend/app/page.tsx` |
| `DemoPage` | the single-screen page `adi-vp-agent-demo/app/page.tsx` |

The routes are connected to the pages. The pages' request bodies are shown to pass the
routes' guards. The demo page is also composed with the model of its own draft route.
That composition shows the finding below.

Behaviour of the code that is easy to misread:

- **Edge hyphens survive in `slugify`.** Its final `.trim()` removes whitespace only. By then every whitespace run has become `-`, so `" Acme "` gives `"-acme-"` (`Slug.SlugifyKeepsEdgeHyphens`, `Slug.SlugifyTrimIsNoOp`).
- **`slugify` keeps `_`.** It keeps `\w`, which includes `_`, not just `[a-z0-9]`.
- **An empty staged status is not fatal.** It throws inside the `try`, so the caller sees the degraded result, not an error (`Publisher.GitPhaseNothingToCommit`).
- **The failure path never checks out `main`.** Only the success path runs `git checkout main`. After a caught failure, `main` is checked out only if the failure came after that step (`Publisher.GitFailureRestoresMainOnlyLate`).
- **Materialization is not all-or-nothing.** A failed write leaves the earlier files on disk (`Publisher.AfterAuthMaterializeFailure`).
- **The summariser accepts any number of requirements, including none.** The "5-7" appears only in a schema description (`Summarizer.ValidateSummaryRoundTrip`).

## Model

| member | source | states |
|---|---|---|
| Slug.Slugify | frontend/lib/agents/github-publisher.ts:9-16 | the slug contains only `[a-z0-9_-]`, has no whitespace and never two hyphens in a row |
| Slug.SlugifyIdempotent | frontend/lib/agents/github-publisher.ts:9-16 | slugifying a slug gives it back |
| Slug.SlugifyFixesSlugs | frontend/lib/agents/github-publisher.ts:9-16 | every string of slug characters without a double hyphen is a fixed point |
| Slug.SlugifyTrimIsNoOp | frontend/lib/agents/github-publisher.ts:15 | the final `.trim()` never changes the result |
| Slug.SlugifyDropsPunctuation | frontend/lib/agents/github-publisher.ts:9-16 | `"TechCorp Inc."` becomes `"techcorp-inc"` |
| Slug.SlugifyKeepsEdgeHyphens | frontend/lib/agents/github-publisher.ts:9-16 | `" Acme "` becomes `"-acme-"`: surrounding whitespace turns into edge hyphens |
| Slug.SlugifyLeadingSpace | frontend/lib/agents/github-publisher.ts:9-16 | a name starting with whitespace gives a slug starting with `-` |
| Slug.SlugifyTrailingSpace | frontend/lib/agents/github-publisher.ts:9-16 | a name ending with whitespace gives a slug ending with `-` |
| Slug.StripDisallowed | frontend/lib/agents/github-publisher.ts:12 | every surviving character was in the input and is a word character, whitespace or `-` |
| Slug.SpaceRunsToHyphen | frontend/lib/agents/github-publisher.ts:13 | no whitespace is left, and every character of the result is a non-whitespace input character or `-` |
| Slug.SpaceRunsKeepLetters | frontend/lib/agents/github-publisher.ts:13 | the characters other than whitespace and `-` come through unchanged and in order |
| Slug.SpaceRunsMarkSpace | frontend/lib/agents/github-publisher.ts:13 | whitespace anywhere in the input leaves a `-` in the result |
| Slug.SpaceRunsAfterWord | frontend/lib/agents/github-publisher.ts:13 | a leading run without whitespace is copied unchanged in front of the rest's result |
| Slug.SpaceRunCollapses | frontend/lib/agents/github-publisher.ts:13 | a maximal whitespace run becomes exactly one `-`; with `SpaceRunsAfterWord` this fixes the result on every input |
| Slug.SqueezeHyphens | frontend/lib/agents/github-publisher.ts:14 | no two hyphens in a row remain. Emptiness and the first character are kept, and the result has exactly the input's characters |
| Slug.SqueezeKeepsLetters | frontend/lib/agents/github-publisher.ts:14 | the characters other than whitespace and `-` come through unchanged and in order |
| Slug.HyphenRunCollapses | frontend/lib/agents/github-publisher.ts:14 | a maximal run of hyphens becomes exactly one `-` |
| Slug.SqueezeKeepsOther | frontend/lib/agents/github-publisher.ts:14 | a character other than `-` is copied in front of the rest's result; with `HyphenRunCollapses` this fixes the result on every input |
| Publisher.TimestampToken | frontend/lib/agents/github-publisher.ts:41 | the token has five characters fewer than the ISO string, with `:` and `.` turned into `-` position by position; it contains neither |
| Publisher.TimestampOfIsoInstant | frontend/lib/agents/github-publisher.ts:41 | for `YYYY-MM-DDTHH:MM:SS.mmmZ` the token is the first 19 characters with both time colons as `-` |
| Publisher.TimestampTokenIdentifiesSecond | frontend/lib/agents/github-publisher.ts:41 | two instants share a token exactly when they agree up to the second |
| Publisher.ArtifactPathsDistinct | frontend/lib/agents/github-publisher.ts:45-116 | `files_created` has four entries, all in `submissions/{slug}/{timestamp}/`, and no two are the same |
| Publisher.BranchNameIdentifiesSubmission | frontend/lib/agents/github-publisher.ts:129 | with timestamps of one width, the branch `submit/{slug}-{timestamp}` determines slug and timestamp |
| Publisher.Materialization | frontend/lib/agents/github-publisher.ts:47-116 | seven steps: mkdir, then each artifact rendered and written. They all write into the one submission folder, run no git or gh command, and write `resume.txt` verbatim |
| Publisher.GitSteps | frontend/lib/agents/github-publisher.ts:119-186 | eleven steps from `chdir` to `chdir`, none writing to disk. Only `git status` has its outcome reinterpreted |
| Publisher.RunSteps | frontend/lib/agents/github-publisher.ts:47-186 | sequential `await`s: either every step succeeded with its output, or the run stopped at the first failing step with its message |
| Publisher.PublishAfterAuth | frontend/lib/agents/github-publisher.ts:25-43 | off Vercel, with `gh auth status` passing, the run is the rest of the workflow for this company's submission folder |
| Publisher.Publish | frontend/lib/agents/github-publisher.ts:25-36 | on Vercel the result is an error and nothing happens. A failed `gh auth status` gives the auth message after that one command. Every write goes to this company's folder, and a result lists its four paths |
| Publisher.AfterAuth | frontend/lib/agents/github-publisher.ts:38-210 | all writes go to the submission folder. A result implies the seven materialization steps ran first, in order, and lists the four paths |
| Publisher.GitPhase | frontend/lib/agents/github-publisher.ts:119-210 | no git step writes a file. The phase always ends by changing back to the app directory, and a result lists the four paths |
| Publisher.PublishOkWroteEverything | frontend/lib/agents/github-publisher.ts:47-116 | a publish that returns a result wrote all four artifacts in order, `resume.txt` with the resume unchanged |
| Publisher.MaterializationCompletes | frontend/lib/agents/github-publisher.ts:47-116 | when mkdir, the renders and the writes succeed, the run is the materialization followed by the git phase |
| Publisher.GitPhaseSucceeds | frontend/lib/agents/github-publisher.ts:119-193 | if every git step succeeds and something is staged, the result is the trimmed repo URL, the trimmed PR URL, the first seven characters of the trimmed HEAD, and the four paths |
| Publisher.GitPhaseFails | frontend/lib/agents/github-publisher.ts:195-209 | a failure at git step `k` ends with the steps up to `k` and a `chdir` back. The result is degraded unless that `chdir` itself throws |
| Publisher.GitFailureRestoresMainOnlyLate | frontend/lib/agents/github-publisher.ts:183-209 | when git step `k` is the first to fail, the phase's trace holds `git checkout main` exactly when `k` is at or after that checkout: the catch block never runs it |
| Publisher.GitPhaseNothingToCommit | frontend/lib/agents/github-publisher.ts:138-142 | a blank `git status` gives the degraded result, and nothing is committed, pushed or opened |
| Publisher.AfterAuthHappyPath | frontend/lib/agents/github-publisher.ts:38-193 | the whole successful run: its trace and its result |
| Publisher.AfterAuthGitFailureDegrades | frontend/lib/agents/github-publisher.ts:119-209 | once the files are written, a failing git or gh step yields the degraded result with the four paths, not an error |
| Publisher.AfterAuthMaterializeFailure | frontend/lib/agents/github-publisher.ts:47-116 | a failing mkdir, render or write propagates its message before any git or gh command; the earlier steps stay in the trace |
| Publisher.AfterAuthUnrenderableSummary | frontend/lib/agents/github-publisher.ts:54-69 | a summary whose `key_requirements` is not an array throws after the mkdir and before any file is written |
| Json.StringsOf | frontend/lib/agents/jd-summarizer.ts:8 | `Some` exactly when every element is a string, and then the strings are the elements in order |
| Json.StringsOfJStrings | frontend/lib/agents/jd-summarizer.ts:8 | a list of strings written as JSON reads back as the same list |
| Json.BraceSpan | adi-vp-agent-demo/lib/agents/email-drafter.ts:79 | a span exists exactly when some `{` precedes some `}`. It starts at the first `{` and ends at the last `}` |
| Json.ExtractJson | adi-vp-agent-demo/lib/agents/email-drafter.ts:79-83 | the match exists exactly when some `{` precedes some `}`, and it starts with `{` and ends with `}` |
| Json.ExtractJsonIsGreedy | frontend/lib/agents/jd-summarizer.ts:45-49 | for brace-free prose around `{body}`, the match is exactly `{body}`, inner braces included |
| Llm.ParsedReply | adi-vp-agent-demo/lib/agents/email-drafter.ts:72-85 | an object is obtained exactly when the model replied, the reply has a brace span, and that span parses |
| Drafter.SampleBlocks | adi-vp-agent-demo/lib/agents/email-drafter.ts:22-23 | one block per sample, in order, the `i`-th numbered `i + 1` |
| Drafter.SamplesTextSnoc | adi-vp-agent-demo/lib/agents/email-drafter.ts:22-24 | one more sample appends its block, numbered after the others, behind `\n\n---\n\n` |
| Drafter.RequirementsLineSnoc | adi-vp-agent-demo/lib/agents/email-drafter.ts:55 | requirements appear in list order, separated by `", "` |
| Drafter.BuildPrompt | adi-vp-agent-demo/lib/agents/email-drafter.ts:22-55 | a prompt exists exactly when `key_requirements` is an array, otherwise the TypeError escapes. The prompt carries the resume, the samples text, the company, the role summary and the job description |
| Drafter.PromptOfSummary | adi-vp-agent-demo/lib/agents/email-drafter.ts:54-55 | a summarised job always yields a prompt whose requirements line is its requirements joined in order |
| Drafter.Confidence | adi-vp-agent-demo/lib/agents/email-drafter.ts:93-95 | a numeric `confidence_score` is kept, anything else becomes 0.85 |
| Drafter.DraftFromFields | adi-vp-agent-demo/lib/agents/email-drafter.ts:88-101 | a draft exists exactly when `subject` and `email_body` are truthy. It carries those two values and the confidence; otherwise the one failure message |
| Drafter.DraftFieldsRoundTrip | adi-vp-agent-demo/lib/agents/email-drafter.ts:93-101 | a draft read back from its own three members is unchanged, whatever its score: no clamping |
| Drafter.DraftIgnoresOtherMembers | adi-vp-agent-demo/lib/agents/email-drafter.ts:97-101 | members other than the three never change the outcome |
| Drafter.DraftEmail | adi-vp-agent-demo/lib/agents/email-drafter.ts:71-105 | the prompt error escapes with no invocation. Otherwise the model is invoked once, and any failure is "Failed to draft email" |
| Drafter.DraftFromReply | adi-vp-agent-demo/lib/agents/email-drafter.ts:77-101 | a reply carrying an object with truthy subject and body yields that draft |
| Drafter.DraftWithoutBraces | adi-vp-agent-demo/lib/agents/email-drafter.ts:79-83 | a reply without a brace pair fails with the one message after exactly one invocation |
| Summarizer.ValidateSummary | frontend/lib/agents/jd-summarizer.ts:5-10 | a summary exists exactly when the four members have the schema's types, and its fields are those members |
| Summarizer.ValidateSummaryRoundTrip | frontend/lib/agents/jd-summarizer.ts:5-10 | any summary, even with no requirements, is accepted and read back unchanged |
| Summarizer.ValidateIgnoresOtherMembers | frontend/lib/agents/jd-summarizer.ts:54 | members outside the schema never change validation |
| Summarizer.SummarizeJD | frontend/lib/agents/jd-summarizer.ts:38-60 | the model is invoked once with the job text. Success means the reply parsed and matched the schema; every failure is "Failed to parse job description summary" |
| Summarizer.SummarizeReadsReply | frontend/lib/agents/jd-summarizer.ts:43-56 | a reply carrying a summary's JSON between brace-free prose yields that summary |
| Http.FirstFailingIndex | adi-vp-agent-demo/app/api/draft/route.ts:15-48 | the guards before the index pass and the one at it fails |
| Http.FirstFailure | frontend/app/api/publish/route.ts:10-36 | no message exactly when every guard passes; otherwise the message of the first failing guard |
| DraftRoute.FirstBadSample | adi-vp-agent-demo/app/api/draft/route.ts:51-54 | `every` stops at the first `null` or malformed element, after only well-formed ones |
| DraftRoute.SamplesOf | adi-vp-agent-demo/app/api/draft/route.ts:51-69 | well-formed elements are read into samples one for one, in order |
| DraftRoute.ScanSamples | adi-vp-agent-demo/app/api/draft/route.ts:51-61 | well-formed exactly when every element is, with the samples read in order. A crash exactly when a `null` comes before any other offender |
| DraftRoute.ValidateDraft | adi-vp-agent-demo/app/api/draft/route.ts:12-61 | an unreadable body crashes. Otherwise the first failing guard gives its message, then the sample scan decides. Accepted inputs are non-empty strings, a summary with a truthy `summary`, and at least one sample |
| DraftRoute.HandleDraft | adi-vp-agent-demo/app/api/draft/route.ts:10-78 | the drafter runs exactly when validation accepts, and its draft is returned unchanged. A rejection is a 400 with its message. An unreadable body, a crashing sample scan and a drafter failure each give a 500 "Failed to draft email" |
| DraftRoute.DraftGuardPrecedence | adi-vp-agent-demo/app/api/draft/route.ts:15-48 | the first failing guard's 400 is the answer, whatever later members hold, and the drafter is not called |
| DraftRoute.RejectsMissingResume | adi-vp-agent-demo/app/api/draft/route.ts:29-34 | with a job description and a company but no usable resume, the answer is 400 "Resume is required" |
| DraftRoute.SamplesJsonWellFormed | adi-vp-agent-demo/app/api/draft/route.ts:51-61 | filled samples sent as the pages send them pass the scan and arrive unchanged |
| DraftRoute.AcceptsWellFormedRequest | adi-vp-agent-demo/app/api/draft/route.ts:12-69 | a request with non-empty texts, a summary and filled samples reaches the drafter with exactly those inputs |
| DraftRoute.NullSampleCrashes | adi-vp-agent-demo/app/api/draft/route.ts:51-54 | a `null` first sample throws and gives the 500 |
| DraftRoute.DrafterErrorsBecomeRouteFailure | adi-vp-agent-demo/app/api/draft/route.ts:63-77 | the drafter's unwrapped TypeError also becomes the route's 500, with no model invocation |
| PublishRoute.ValidatePublish | frontend/app/api/publish/route.ts:7-36 | an unreadable body crashes. Otherwise a rejection carries the first failing guard's message. Accepted inputs are the body's non-empty company and resume, and a summary and draft with truthy `summary` and `email_body` |
| PublishRoute.FailureMessage | frontend/app/api/publish/route.ts:49 | the publisher's message if non-empty, else "Failed to publish to GitHub" |
| PublishRoute.HandlePublish | frontend/app/api/publish/route.ts:5-52 | the publisher runs exactly when validation accepts, with the validated inputs. Its result, degraded or not, is returned as-is; its error is a 500 with its own message |
| PublishRoute.PublishGuardPrecedence | frontend/app/api/publish/route.ts:10-36 | the first failing guard's 400 is the answer, and nothing is published |
| PublishRoute.PublishOnVercel | frontend/app/api/publish/route.ts:38-51 | on Vercel an accepted request gets a 500 with the Vercel message, and nothing was done |
| PublishRoute.PublishDegradedIsSuccess | frontend/app/api/publish/route.ts:38-45 | a publisher result is a 200 whose files are the four artifact paths |
| SummarizeRoute.ValidateSummarize | adi-vp-agent-demo/app/api/summarize/route.ts:6-13 | rejected exactly when `jobDescription` is not a non-empty string; accepted text is that string |
| SummarizeRoute.HandleSummarize | adi-vp-agent-demo/app/api/summarize/route.ts:4-24 | the summariser runs exactly when the guard passes, with the same text, and its summary is returned unchanged. An unreadable body and a summariser failure each give a 500 "Failed to summarize job description" |
| SummarizeRoute.SummarizeRequestRoundTrip | adi-vp-agent-demo/app/api/summarize/route.ts:6-17 | a page's request with a summary-carrying reply comes back as that summary, after one invocation with the page's text |
| Samples.FirstSpace | frontend/app/page.tsx:129 | the first whitespace position, with none before it |
| Samples.SpaceRunEnd | frontend/app/page.tsx:129 | the end of the maximal whitespace run |
| Samples.SplitOnSpace | frontend/app/page.tsx:129 | `split(/\s+/)` gives at least one piece, and no piece contains whitespace |
| Samples.TrimKeepsWords | frontend/app/page.tsx:129 | trimming does not change the number of words |
| Samples.SplitCountsWords | frontend/app/page.tsx:129 | on a string without edge whitespace, `split(/\s+/)` yields exactly one piece per maximal non-whitespace run |
| Samples.WordCountCountsWords | frontend/app/page.tsx:129 | `wordCount` is the number of maximal non-whitespace runs for non-blank content, and 1 for blank content |
| Samples.Without | frontend/app/page.tsx:139-141 | nothing with the id remains, and the list does not grow |
| Samples.WithoutMembers | frontend/app/page.tsx:139-141 | a sample survives exactly when it was present and has another id |
| Samples.WithoutAppend | frontend/app/page.tsx:139-141 | filtering distributes over concatenation, so the survivors keep their order |
| Samples.WithoutAbsentId | frontend/app/page.tsx:139-141 | removing an id nobody has changes nothing |
| Samples.AddThenRemove | frontend/app/page.tsx:128-141 | appending a sample under a fresh id and removing that id restores the list |
| Samples.WithoutIdempotent | adi-vp-agent-demo/app/page.tsx:43-45 | removing an id twice is removing it once |
| Wizard.AnalyzeJD | frontend/app/page.tsx:32-57 | success sets the summary and company name and moves to step 2; failure keeps the step and sets the analyze error. Loading ends false, and the other fields are kept |
| Wizard.GenerateEmail | frontend/app/page.tsx:60-93 | success stores the draft and moves to step 4; failure keeps the step and sets the generate error. Loading ends false |
| Wizard.PublishErrorMessage | frontend/app/page.tsx:112-121 | the route's `error`, or "Failed to publish". For a failed fetch, its message or "Error publishing to GitHub" |
| Wizard.Publish | frontend/app/page.tsx:96-125 | only the result, the error and the publishing flag change, and publishing ends false. Success stores the result; failure keeps the old one and sets the error |
| Wizard.NewSample | frontend/app/page.tsx:128-135 | the title is trimmed, or `Sample {n+1}` when blank, and never empty. The content is kept; the word count is `WordCount` |
| Wizard.AddWritingSample | frontend/app/page.tsx:128-137 | the new sample is appended behind the unchanged others; nothing else changes |
| Wizard.RemoveSample | frontend/app/page.tsx:139-141 | no sample with the id remains; nothing else changes |
| Wizard.AddThenRemoveSample | frontend/app/page.tsx:128-141 | adding under a fresh id and removing it leaves the page as it was |
| Wizard.ScreenOf | frontend/app/page.tsx:143-190 | every control belongs to one of the five screens |
| Wizard.StepAdvancesOnlyOnSuccess | frontend/app/page.tsx:32-190 | from its own screen an event advances the step by one exactly when it is a successful analyze or generate, or one of the two "next" buttons |
| Wizard.DeliverKeepsConsistent | frontend/app/page.tsx:143-190 | one event keeps the step in 1..5, with a summary from step 2 and a draft from step 4 |
| Wizard.RunKeepsConsistent | frontend/app/page.tsx:143-190 | any sequence of events keeps that invariant |
| Wizard.ReachableIsConsistent | frontend/app/page.tsx:18-29 | every state reachable from the initial one satisfies it |
| Wizard.RequestMembers | frontend/app/page.tsx:65-109 | the generate and publish bodies carry the page's fields under the routes' member names |
| Wizard.AnalyzeRequestAccepted | frontend/app/page.tsx:37-41 | the analyze request passes the summarise guard exactly when the job description is non-empty, and carries that text |
| Wizard.DraftRequestAccepted | frontend/app/page.tsx:65-78 | with non-empty inputs, a summary and filled samples, the generate request passes every draft guard and carries the page's samples |
| Wizard.PublishRequestAccepted | frontend/app/page.tsx:101-110 | with a company, resume, summary and draft body, the publish request passes every publish guard and carries the page's values |
| DemoPage.AddWritingSample | adi-vp-agent-demo/app/page.tsx:23-41 | a blank title or content leaves the list alone and sets the error. Otherwise the sample is appended and both inputs and the error are cleared |
| DemoPage.RemoveSample | adi-vp-agent-demo/app/page.tsx:43-45 | no sample with the id remains; nothing else changes |
| DemoPage.AddKeepsSamplesFilled | adi-vp-agent-demo/app/page.tsx:23-41 | the form's guard keeps every stored title and content non-empty |
| DemoPage.RemoveKeepsSamplesFilled | adi-vp-agent-demo/app/page.tsx:43-45 | removal keeps every stored title and content non-empty |
| DemoPage.SubmitChecksPass | adi-vp-agent-demo/app/page.tsx:48-61 | passing the page's guards means non-empty texts and at least one sample |
| DemoPage.DraftBodyMembers | adi-vp-agent-demo/app/page.tsx:84-95 | the draft body carries the page's fields, and the body as written has no `resume` |
| DemoPage.SubmitWith | adi-vp-agent-demo/app/page.tsx:47-110 | a failing guard sets its message and sends nothing. Otherwise the summary is requested first and the draft only after a successful summary. Any failure gives the generic error and no draft. Only loading, the error, the summary and the draft change, and loading ends false |
| DemoPage.SubmitGuardPrecedence | adi-vp-agent-demo/app/page.tsx:48-61 | the first failing guard's message is shown and no request is sent |
| DemoPage.DraftBodyAsWrittenRejected | adi-vp-agent-demo/app/page.tsx:84-95 | the page's draft request is always refused by its draft route with "Resume is required" |
| DemoPage.SubmitAsWrittenNeverDrafts | adi-vp-agent-demo/app/page.tsx:84-106 | against its own draft route the page as written never gets a draft and always ends with the generic error |
| DemoPage.DraftBodyAccepted | adi-vp-agent-demo/app/api/draft/route.ts:12-69 | with the resume sent, the page's draft request passes every guard with the page's own inputs |
| DemoPage.SubmitDraftsThroughRoute | adi-vp-agent-demo/app/page.tsx:84-103 | with the resume sent, the page shows exactly the drafter's draft, and the generic error only when the drafter failed |

## Findings

| source | as written | input that shows it | evidently intended | confidence | as-written member | corrected member |
|---|---|---|---|---|---|---|
| adi-vp-agent-demo/app/page.tsx:84-95 | `handleSubmit` posts `{ jobDescription, companyName, jdSummary, writingSamples }` to `/api/draft`. That body has no `resume`, but the same application's draft route refuses it at adi-vp-agent-demo/app/api/draft/route.ts:29-34 | any submission that passes the page's guards, e.g. job description "JD", company "Acme", one sample `{title: "t", content: "c"}`, with the summary request succeeding | the request carries the user's resume (the page has no resume field; the corrected model adds one), so the route accepts it and the drafter runs | not executed | DemoPage.SubmitAsWrittenNeverDrafts | DemoPage.SubmitDraftsThroughRoute |

`DemoPage.DraftBodyAsWrittenRejected` shows the route's 400 for the body as written.
`DemoPage.DraftBodyAccepted` shows that the corrected body reaches the drafter with the
page's own inputs.

## Left out

- **Process, network and clock effects:** `exec` of `gh` and `git`, `fs` writes, `process.chdir`/`cwd`, `fetch`, `Date`. Each becomes a scripted outcome or a parameter. Console logging is not modelled.
- **Foreign libraries:** the language model, `JSON.parse` and zod's internals are abstract inputs. A parse is a function from text to an optional object.
- **`request.json()` on a non-object:** a body that is valid JSON but not an object destructures to no members. A `null` body or invalid JSON is `Unreadable`.
- **Template text and formatting:** the markdown of the four artifacts, the commit message and the pull-request body, `toLocaleString`/`toLocaleDateString`/`toLocaleTimeString` and `toFixed` are kept as the values they are rendered from. Shell quoting of interpolated names is not modelled.
- **Concurrent runs** sharing one git working tree are not modelled.
- **React rendering and the step components:** the wizard frame and the step screens are left out. Their button guards act as preconditions; for example, `Wizard.AddWritingSample` accepts any title and content.
- **Context files not modelled:** `adi-vp-agent-demo/lib/agents/github-publisher.ts` is a stub returning fixed values, and `test-wizard-flow.js` prints sample data. `frontend/types/index.ts` appears only as the datatypes of `Types`.
- **The wizard page's own draft and summarise routes** are not part of this model. The two routes modelled here stand in for them, and the five-step page is connected to those.
- **Non-JSON error bodies:** the wizard's `handlePublish` calls `response.json()` on an error response. A body that is not JSON there is not modelled; the route always answers JSON.
- Slug.Slugify: lower-cases ASCII letters only, because full Unicode `toLowerCase` is not modelled. `\w` is the ASCII word class, as in JavaScript.
- Publisher.Publish: a render failure carries the stand-in message `RenderErrorMessage` instead of the engine's TypeError text. Only a missing or non-array `key_requirements` and a `null` draft are treated as throwing. Other property reads on odd JSON values are taken as rendering.
- Drafter.BuildPrompt: when some requirement is not a string, the joined line is `None` rather than JavaScript's string conversion of that value. The TypeError message of a non-array is a stand-in.
- Drafter.DraftEmail: `subject` and `email_body` are kept as the JSON values the model produced, because the code never checks their types.
- Samples.SplitOnSpace: `IsSpace` is JavaScript's `\s` class written out as a predicate, not derived from the Unicode tables.
