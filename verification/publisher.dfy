/** `publishToGitHub` (frontend/lib/agents/github-publisher.ts) as a pure function over a
    scripted list of outcomes, one per step it performs: the `gh auth status` preflight,
    creating the submission directory, rendering and writing the four artifacts, and the
    git/gh sequence whose failures are caught and turned into the degraded "local" result. */
module Publisher {
  import opened Results
  import opened Text
  import opened Json
  import opened Types
  import Slug

  const VercelMessage := "GitHub publishing on Vercel requires GITHUB_TOKEN and Octokit implementation"
  const AuthMessage := "GitHub CLI not authenticated. Run: gh auth login"
  const NoChangesMessage := "No changes to commit"
  /** Stands for the engine's TypeError text when a template reads through a missing value. */
  const RenderErrorMessage := "TypeError: cannot render artifact"

  /** The deployment flag and the clock reading the publisher takes from its process. */
  datatype Environment = Environment(vercel: Option<string>, nowIso: string)

  /** `process.env.VERCEL === '1'` */
  predicate IsVercel(env: Environment)
  {
    env.vercel == Some("1")
  }

  // ---------------------------------------------------------------- naming

  function Dashify(c: char): char
  {
    if c == ':' || c == '.' then '-' else c
  }

  /** `toISOString().replace(/[:.]/g, '-').slice(0, -5)` */
  function TimestampToken(iso: string): (t: string)
    ensures |t| == if |iso| >= 5 then |iso| - 5 else 0
    ensures forall i :: 0 <= i < |t| ==> t[i] == Dashify(iso[i])
    ensures ':' !in t && '.' !in t
  {
    var dashed := seq(|iso|, i requires 0 <= i < |iso| => Dashify(iso[i]));
    dashed[..if |iso| >= 5 then |iso| - 5 else 0]
  }

  /** The shape `toISOString` produces for years 0000-9999: `YYYY-MM-DDTHH:MM:SS.mmmZ`. */
  predicate IsIsoInstant(iso: string)
  {
    && |iso| == 24
    && (forall i :: 0 <= i < 24 && i !in {4, 7, 10, 13, 16, 19, 23} ==> IsDigit(iso[i]))
    && iso[4] == '-' && iso[7] == '-' && iso[10] == 'T'
    && iso[13] == ':' && iso[16] == ':' && iso[19] == '.' && iso[23] == 'Z'
  }

  /** For an ISO instant the token is its first 19 characters, the date kept and the two
      time separators turned into `-`: `YYYY-MM-DDTHH-MM-SS`. */
  lemma TimestampOfIsoInstant(iso: string)
    requires IsIsoInstant(iso)
    ensures TimestampToken(iso) == iso[..13] + "-" + iso[14..16] + "-" + iso[17..19]
    ensures |TimestampToken(iso)| == 19 && TimestampToken(iso)[10] == 'T'
  {
    var t := TimestampToken(iso);
    var expected := iso[..13] + "-" + iso[14..16] + "-" + iso[17..19];
    assert |t| == |expected| == 19;
    forall i | 0 <= i < 19 ensures t[i] == expected[i] {
      if i < 13 {
        assert IsDigit(iso[i]) || iso[i] == '-' || iso[i] == 'T';
      } else if 13 < i < 16 {
        assert IsDigit(iso[i]);
      } else if 16 < i {
        assert IsDigit(iso[i]);
      }
    }
  }

  /** Two instants give the same token exactly when they agree up to the second: the
      milliseconds are dropped, and nothing else is lost. */
  lemma TimestampTokenIdentifiesSecond(a: string, b: string)
    requires IsIsoInstant(a) && IsIsoInstant(b)
    ensures TimestampToken(a) == TimestampToken(b) <==> a[..19] == b[..19]
  {
    TimestampOfIsoInstant(a);
    TimestampOfIsoInstant(b);
    if TimestampToken(a) == TimestampToken(b) {
      forall i | 0 <= i < 19 ensures a[i] == b[i] {
        assert TimestampToken(a)[i] == TimestampToken(b)[i];
        if i != 13 && i != 16 {
          assert a[i] == TimestampToken(a)[i] && b[i] == TimestampToken(b)[i];
        }
      }
    }
  }

  /** The folder one publish writes to, `submissions/{slug}/{timestamp}`. */
  datatype Submission = Submission(slug: string, ts: string)

  function SubmissionFor(company: string, env: Environment): Submission
  {
    Submission(Slug.Slugify(company), TimestampToken(env.nowIso))
  }

  function SubmissionDir(sub: Submission): string
  {
    "submissions/" + sub.slug + "/" + sub.ts
  }

  datatype Artifact = RoleSummaryFile | IntroEmailFile | ResumeFile | ReadmeFile

  function FileName(file: Artifact): string
  {
    match file
    case RoleSummaryFile => "role_summary.md"
    case IntroEmailFile => "intro_email.md"
    case ResumeFile => "resume.txt"
    case ReadmeFile => "README.md"
  }

  function ArtifactPath(sub: Submission, file: Artifact): string
  {
    SubmissionDir(sub) + "/" + FileName(file)
  }

  /** `files_created`: the artifact paths in the order they are written. */
  function ArtifactPaths(sub: Submission): seq<string>
  {
    [ ArtifactPath(sub, RoleSummaryFile), ArtifactPath(sub, IntroEmailFile),
      ArtifactPath(sub, ResumeFile), ArtifactPath(sub, ReadmeFile) ]
  }

  lemma PrefixKeepsDistinct(p: string, a: string, b: string)
    requires a != b
    ensures p + a != p + b
  {
    assert a == (p + a)[|p|..] && b == (p + b)[|p|..];
  }

  /** The four reported paths lie in the submission folder and name four different files. */
  lemma ArtifactPathsDistinct(sub: Submission)
    ensures |ArtifactPaths(sub)| == 4
    ensures forall i :: 0 <= i < 4 ==> SubmissionDir(sub) + "/" <= ArtifactPaths(sub)[i]
    ensures forall i, j :: 0 <= i < j < 4 ==> ArtifactPaths(sub)[i] != ArtifactPaths(sub)[j]
  {
    var paths := ArtifactPaths(sub);
    var dir := SubmissionDir(sub) + "/";
    var names := ["role_summary.md", "intro_email.md", "resume.txt", "README.md"];
    forall i | 0 <= i < 4 ensures paths[i] == dir + names[i] {
    }
    forall i, j | 0 <= i < j < 4 ensures paths[i] != paths[j] {
      assert names[i][0] != names[j][0] || names[i][1] != names[j][1];
      PrefixKeepsDistinct(dir, names[i], names[j]);
    }
  }

  function BranchName(sub: Submission): string
  {
    "submit/" + sub.slug + "-" + sub.ts
  }

  /** With timestamps of one fixed width (19 characters for ISO instants) the branch
      name determines the submission it was created for. */
  lemma BranchNameIdentifiesSubmission(a: Submission, b: Submission)
    requires |a.ts| == |b.ts|
    requires BranchName(a) == BranchName(b)
    ensures a == b
  {
    var x := BranchName(a);
    assert |a.slug| == |b.slug|;
    assert a.slug == x[7..7 + |a.slug|] == b.slug;
    assert a.ts == x[|x| - |a.ts|..] == b.ts;
  }

  // ---------------------------------------------------------------- steps

  /** An artifact's content. The markdown documents are kept as what they are rendered
      from; their template prose and locale-formatted dates are not modelled. */
  datatype Content =
    | Verbatim(text: string)
    | RoleSummaryDoc(company: string, summary: JValue)
    | IntroEmailDoc(company: string, draft: JValue)
    | FolderReadme(company: string)

  datatype WorkingDir = RepositoryRoot | FrontendDir

  /** The steps `publishToGitHub` performs, in the order it may perform them. Branch,
      paths and titles are carried symbolically: the branch is `BranchName(sub)`, the pull
      request is titled `Application: {company}`, lists `ArtifactPaths(sub)` and targets `main`. */
  datatype Action =
    | CheckAuth                                    // gh auth status
    | MakeDirectory(sub: Submission)               // mkdir -p
    | Render(doc: Content)                         // evaluating an artifact's template
    | WriteFile(file: Artifact, sub: Submission, content: Content)
    | ChangeDirectory(into: WorkingDir)            // process.chdir
    | ViewRepoUrl                                  // gh repo view --json url -q .url
    | CreateBranch(sub: Submission)                // git checkout -b
    | StageSubmissions                             // git add -f submissions/
    | StagedStatus                                 // git status --porcelain submissions/
    | Commit(company: string)                      // git commit -m
    | PushBranch(sub: Submission)                  // git push origin
    | OpenPullRequest(company: string, sub: Submission)  // gh pr create
    | ReadHead                                     // git rev-parse HEAD
    | CheckoutMain                                 // git checkout main

  /** A step that touches the filesystem. */
  predicate WritesToDisk(a: Action)
  {
    a.MakeDirectory? || a.WriteFile?
  }

  /** A step that runs `git` or `gh` against the repository (the auth check aside). */
  predicate IsVcsCommand(a: Action)
  {
    || a.ViewRepoUrl? || a.CreateBranch? || a.StageSubmissions? || a.StagedStatus?
    || a.Commit? || a.PushBranch? || a.OpenPullRequest? || a.ReadHead? || a.CheckoutMain?
  }

  /** What the outside world did for one step: success with the command's stdout, or a
      thrown error with its message. */
  datatype Outcome = Done(stdout: string) | Failed(message: string)

  /** The outcome scripted for the `k`-th step; steps beyond the script succeed silently. */
  function OutcomeAt(script: seq<Outcome>, k: nat): Outcome
  {
    if k < |script| then script[k] else Done("")
  }

  /** Rendering needs `jdSummary.key_requirements.map` and `emailDraft.subject`. */
  predicate Renders(doc: Content)
  {
    match doc
    case RoleSummaryDoc(_, summary) => Member(summary, "key_requirements").Some? && Member(summary, "key_requirements").value.JArr?
    case IntroEmailDoc(_, draft) => !draft.JNull?
    case _ => true
  }

  /** A step whose outcome the code takes as it comes. */
  predicate TakenAsIs(a: Action)
  {
    !a.Render? && !a.StagedStatus?
  }

  /** How the code sees a step's outcome: a render is decided by its document (its script
      entry is unused), and a `git status` that prints only whitespace is thrown as
      "No changes to commit". */
  function Observed(a: Action, o: Outcome): Outcome
  {
    match a
    case Render(doc) => if Renders(doc) then Done("") else Failed(RenderErrorMessage)
    case StagedStatus => if o.Done? && IsBlank(o.stdout) then Failed(NoChangesMessage) else o
    case _ => o
  }

  datatype StepsRun = Completed(outputs: seq<string>) | Stopped(at: nat, message: string)

  /** Runs `steps` in order against the script from position `base`, stopping at the
      first step whose observed outcome is a failure. */
  function RunSteps(steps: seq<Action>, script: seq<Outcome>, base: nat): (r: StepsRun)
    ensures r.Completed? ==> |r.outputs| == |steps|
    ensures r.Completed? ==>
              forall i :: 0 <= i < |steps| ==> Observed(steps[i], OutcomeAt(script, base + i)) == Done(r.outputs[i])
    ensures r.Stopped? ==> r.at < |steps|
    ensures r.Stopped? ==>
              forall i :: 0 <= i < r.at ==> Observed(steps[i], OutcomeAt(script, base + i)).Done?
    ensures r.Stopped? ==> Observed(steps[r.at], OutcomeAt(script, base + r.at)) == Failed(r.message)
    decreases |steps|
  {
    if |steps| == 0 then Completed([])
    else
      match Observed(steps[0], OutcomeAt(script, base))
      case Failed(m) => Stopped(0, m)
      case Done(out) =>
        match RunSteps(steps[1..], script, base + 1)
        case Completed(outs) => Completed([out] + outs)
        case Stopped(at, m) => Stopped(at + 1, m)
  }

  /** `mkdir`, then each artifact rendered and written in order. */
  function Materialization(company: string, jdSummary: JValue, emailDraft: JValue, resume: string,
                           sub: Submission): (r: seq<Action>)
    ensures |r| == 7
    ensures forall a :: a in r && WritesToDisk(a) ==> a.sub == sub
    ensures forall a :: a in r ==> !IsVcsCommand(a)
    ensures WriteFile(ResumeFile, sub, Verbatim(resume)) in r
  {
    [ MakeDirectory(sub),
      Render(RoleSummaryDoc(company, jdSummary)),
      WriteFile(RoleSummaryFile, sub, RoleSummaryDoc(company, jdSummary)),
      Render(IntroEmailDoc(company, emailDraft)),
      WriteFile(IntroEmailFile, sub, IntroEmailDoc(company, emailDraft)),
      WriteFile(ResumeFile, sub, Verbatim(resume)),
      WriteFile(ReadmeFile, sub, FolderReadme(company)) ]
  }

  /** The body of the `try`: every command whose failure is caught. */
  function GitSteps(company: string, sub: Submission): (r: seq<Action>)
    ensures |r| == 11
    ensures forall a :: a in r ==> !WritesToDisk(a)
    ensures r[StatusStep] == StagedStatus
    ensures forall i :: 0 <= i < |r| && i != StatusStep ==> TakenAsIs(r[i])
  {
    [ ChangeDirectory(RepositoryRoot),
      ViewRepoUrl,
      CreateBranch(sub),
      StageSubmissions,
      StagedStatus,
      Commit(company),
      PushBranch(sub),
      OpenPullRequest(company, sub),
      ReadHead,
      CheckoutMain,
      ChangeDirectory(FrontendDir) ]
  }

  // Script positions of the steps.
  const MaterializeBase: nat := 1
  const GitBase: nat := 8
  const RepoUrlStep: nat := 1
  const StatusStep: nat := 4
  const PullRequestStep: nat := 7
  const HeadStep: nat := 8
  const CheckoutMainStep: nat := 9

  /** The degraded result: files are on disk, nothing reached the remote. */
  function Degraded(files: seq<string>): GitHubResult
  {
    GitHubResult("local", "local-only", "local", files)
  }

  datatype PublishRun = PublishRun(result: Result<GitHubResult>, trace: seq<Action>)

  function Publish(company: string, jdSummary: JValue, emailDraft: JValue, resume: string,
                   env: Environment, script: seq<Outcome>): (r: PublishRun)
    ensures IsVercel(env) ==> r == PublishRun(Err(VercelMessage), [])
    ensures !IsVercel(env) && OutcomeAt(script, 0).Failed? ==> r == PublishRun(Err(AuthMessage), [CheckAuth])
    ensures forall a :: a in r.trace && a.WriteFile? ==> a.sub == SubmissionFor(company, env)
    ensures r.result.Ok? ==> r.result.value.files_created == ArtifactPaths(SubmissionFor(company, env))
  {
    if IsVercel(env) then PublishRun(Err(VercelMessage), [])
    else if OutcomeAt(script, 0).Failed? then PublishRun(Err(AuthMessage), [CheckAuth])
    else AfterAuth(company, jdSummary, emailDraft, resume, SubmissionFor(company, env), script)
  }

  /** Everything after a successful auth check: materialize the artifacts, then the git
      phase. A failure while materializing escapes, and the files already written stay. */
  function AfterAuth(company: string, jdSummary: JValue, emailDraft: JValue, resume: string,
                     sub: Submission, script: seq<Outcome>): (r: PublishRun)
    ensures |r.trace| > 0 && r.trace[0] == CheckAuth
    ensures forall a :: a in r.trace && WritesToDisk(a) ==> a.sub == sub
    ensures r.result.Ok? ==> r.result.value.files_created == ArtifactPaths(sub)
    ensures r.result.Ok? ==> |r.trace| > 8 && r.trace[1..8] == Materialization(company, jdSummary, emailDraft, resume, sub)
  {
    var mat := Materialization(company, jdSummary, emailDraft, resume, sub);
    match RunSteps(mat, script, MaterializeBase)
    case Stopped(at, m) =>
      PublishRun(Err(m), [CheckAuth] + mat[..at + 1])
    case Completed(_) =>
      var g := GitPhase(company, sub, script);
      PublishRun(g.result, [CheckAuth] + mat + g.trace)
  }

  /** The `try` block and its `catch`: a failure at any step is logged and, once the
      working directory is restored, answered with the degraded result. */
  function GitPhase(company: string, sub: Submission, script: seq<Outcome>): (r: PublishRun)
    ensures forall a :: a in r.trace ==> !WritesToDisk(a)
    ensures |r.trace| > 0 && r.trace[|r.trace| - 1] == ChangeDirectory(FrontendDir)
    ensures r.result.Ok? ==> r.result.value.files_created == ArtifactPaths(sub)
  {
    var git := GitSteps(company, sub);
    match RunSteps(git, script, GitBase)
    case Completed(out) =>
      PublishRun(Ok(GitHubResult(Trim(out[RepoUrlStep]), Trim(out[PullRequestStep]),
                                 Take(Trim(out[HeadStep]), 7), ArtifactPaths(sub))), git)
    case Stopped(at, _) =>
      var trace := git[..at + 1] + [ChangeDirectory(FrontendDir)];
      match OutcomeAt(script, GitBase + at + 1)
      case Failed(m) => PublishRun(Err(m), trace)
      case Done(_) => PublishRun(Ok(Degraded(ArtifactPaths(sub))), trace)
  }

  // ---------------------------------------------------------------- properties

  predicate ScriptSucceeds(script: seq<Outcome>, from: nat, to: nat)
  {
    forall i :: from <= i < to ==> OutcomeAt(script, i).Done?
  }

  /** Whatever happens after the auth check, a run that returns a result wrote all four
      artifacts, in order, into this company's submission folder first. */
  lemma PublishOkWroteEverything(company: string, jdSummary: JValue, emailDraft: JValue,
                                 resume: string, env: Environment, script: seq<Outcome>)
    requires Publish(company, jdSummary, emailDraft, resume, env, script).result.Ok?
    ensures |Publish(company, jdSummary, emailDraft, resume, env, script).trace| > 8
    ensures Publish(company, jdSummary, emailDraft, resume, env, script).trace[1..8]
              == Materialization(company, jdSummary, emailDraft, resume, SubmissionFor(company, env))
    ensures WriteFile(ResumeFile, SubmissionFor(company, env), Verbatim(resume))
              in Publish(company, jdSummary, emailDraft, resume, env, script).trace
  {
    var r := Publish(company, jdSummary, emailDraft, resume, env, script);
    var mat := Materialization(company, jdSummary, emailDraft, resume, SubmissionFor(company, env));
    assert r.trace[6] == mat[5];
  }

  /** After the preflight checks the run is `AfterAuth` for this company's submission. */
  lemma PublishAfterAuth(company: string, jdSummary: JValue, emailDraft: JValue, resume: string,
                         env: Environment, script: seq<Outcome>)
    requires !IsVercel(env) && OutcomeAt(script, 0).Done?
    ensures Publish(company, jdSummary, emailDraft, resume, env, script)
              == AfterAuth(company, jdSummary, emailDraft, resume, SubmissionFor(company, env), script)
  {
  }

  lemma MaterializationCompletes(company: string, jdSummary: JValue, emailDraft: JValue, resume: string,
                                 sub: Submission, script: seq<Outcome>)
    requires ScriptSucceeds(script, MaterializeBase, GitBase)
    requires Renders(RoleSummaryDoc(company, jdSummary)) && Renders(IntroEmailDoc(company, emailDraft))
    ensures AfterAuth(company, jdSummary, emailDraft, resume, sub, script) ==
              PublishRun(GitPhase(company, sub, script).result,
                         [CheckAuth] + Materialization(company, jdSummary, emailDraft, resume, sub)
                         + GitPhase(company, sub, script).trace)
  {
    var mat := Materialization(company, jdSummary, emailDraft, resume, sub);
    forall i | 0 <= i < 7 ensures Observed(mat[i], OutcomeAt(script, MaterializeBase + i)).Done? {
      assert OutcomeAt(script, MaterializeBase + i).Done?;
    }
    assert RunSteps(mat, script, MaterializeBase).Completed?;
  }

  lemma ObservedTakenAsIs(a: Action, o: Outcome)
    requires TakenAsIs(a)
    ensures Observed(a, o) == o
  {
  }

  lemma ObservedStatusWithChanges(o: Outcome)
    requires o.Done? && !IsBlank(o.stdout)
    ensures Observed(StagedStatus, o) == o
  {
  }

  /** Steps whose observed outcomes are their scripted successes complete, each output
      being the scripted stdout. */
  lemma RunStepsAsScripted(steps: seq<Action>, script: seq<Outcome>, base: nat)
    requires ScriptSucceeds(script, base, base + |steps|)
    requires forall i :: 0 <= i < |steps| ==> Observed(steps[i], OutcomeAt(script, base + i)) == OutcomeAt(script, base + i)
    ensures RunSteps(steps, script, base).Completed?
    ensures forall i :: 0 <= i < |steps| ==> RunSteps(steps, script, base).outputs[i] == OutcomeAt(script, base + i).stdout
  {
  }

  /** With a non-blank status every git step's outcome is taken as scripted. */
  lemma GitStepsTakenAsScripted(company: string, sub: Submission, script: seq<Outcome>)
    requires OutcomeAt(script, GitBase + StatusStep).Done?
    requires !IsBlank(OutcomeAt(script, GitBase + StatusStep).stdout)
    ensures forall i :: 0 <= i < 11 ==>
              Observed(GitSteps(company, sub)[i], OutcomeAt(script, GitBase + i)) == OutcomeAt(script, GitBase + i)
  {
    var git := GitSteps(company, sub);
    forall i | 0 <= i < 11
      ensures Observed(git[i], OutcomeAt(script, GitBase + i)) == OutcomeAt(script, GitBase + i)
    {
      if i == StatusStep {
        ObservedStatusWithChanges(OutcomeAt(script, GitBase + i));
      } else {
        ObservedTakenAsIs(git[i], OutcomeAt(script, GitBase + i));
      }
    }
  }

  lemma GitStepsRunClean(company: string, sub: Submission, script: seq<Outcome>)
    requires ScriptSucceeds(script, GitBase, GitBase + 11)
    requires !IsBlank(OutcomeAt(script, GitBase + StatusStep).stdout)
    ensures RunSteps(GitSteps(company, sub), script, GitBase).Completed?
    ensures forall i :: 0 <= i < 11 ==>
              RunSteps(GitSteps(company, sub), script, GitBase).outputs[i] == OutcomeAt(script, GitBase + i).stdout
  {
    assert OutcomeAt(script, GitBase + StatusStep).Done?;
    GitStepsTakenAsScripted(company, sub, script);
    RunStepsAsScripted(GitSteps(company, sub), script, GitBase);
  }

  /** When every git and gh step succeeds and there is something to commit, the result
      carries the trimmed repository URL, the trimmed PR URL and the first seven characters
      of the head commit, and the run goes back to `main` and to the app directory. */
  lemma GitPhaseSucceeds(company: string, sub: Submission, script: seq<Outcome>)
    requires ScriptSucceeds(script, GitBase, GitBase + 11)
    requires !IsBlank(OutcomeAt(script, GitBase + StatusStep).stdout)
    ensures GitPhase(company, sub, script).result ==
              Ok(GitHubResult(Trim(OutcomeAt(script, GitBase + RepoUrlStep).stdout),
                              Trim(OutcomeAt(script, GitBase + PullRequestStep).stdout),
                              Take(Trim(OutcomeAt(script, GitBase + HeadStep).stdout), 7),
                              ArtifactPaths(sub)))
    ensures GitPhase(company, sub, script).trace == GitSteps(company, sub)
  {
    GitStepsRunClean(company, sub, script);
  }

  /** A failure at git step `k` is caught: the working directory goes back to the app and
      the degraded result is returned, unless that last `chdir` itself throws. */
  lemma GitPhaseFails(company: string, sub: Submission, script: seq<Outcome>, k: nat)
    requires k < 11
    requires forall i :: 0 <= i < k ==> Observed(GitSteps(company, sub)[i], OutcomeAt(script, GitBase + i)).Done?
    requires Observed(GitSteps(company, sub)[k], OutcomeAt(script, GitBase + k)).Failed?
    ensures GitPhase(company, sub, script).trace == GitSteps(company, sub)[..k + 1] + [ChangeDirectory(FrontendDir)]
    ensures GitPhase(company, sub, script).result ==
              match OutcomeAt(script, GitBase + k + 1)
              case Done(_) => Ok(Degraded(ArtifactPaths(sub)))
              case Failed(m) => Err(m)
  {
    var run := RunSteps(GitSteps(company, sub), script, GitBase);
    assert run.Stopped?;
    assert run.at == k by {
      assert !(run.at < k);
      assert !(k < run.at);
    }
  }

  /** The catch-path trace after a failure at git step `k` holds the checkout of `main`
      exactly when `k` is at or after that step. */
  lemma CheckoutMainInFailureTrace(company: string, sub: Submission, k: nat)
    requires k < 11
    ensures CheckoutMain in GitSteps(company, sub)[..k + 1] + [ChangeDirectory(FrontendDir)] <==> k >= CheckoutMainStep
  {
    var git := GitSteps(company, sub);
    if k >= CheckoutMainStep {
      assert git[..k + 1][CheckoutMainStep] == CheckoutMain;
    } else {
      forall i | 0 <= i <= k ensures git[i] != CheckoutMain {
      }
    }
  }

  /** After a caught failure at git step `k`, the phase has checked out `main` again
      exactly when the failing step came at or after that checkout: the catch block
      itself never does. */
  lemma GitFailureRestoresMainOnlyLate(company: string, sub: Submission, script: seq<Outcome>, k: nat)
    requires k < 11
    requires forall i :: 0 <= i < k ==> Observed(GitSteps(company, sub)[i], OutcomeAt(script, GitBase + i)).Done?
    requires Observed(GitSteps(company, sub)[k], OutcomeAt(script, GitBase + k)).Failed?
    ensures CheckoutMain in GitPhase(company, sub, script).trace <==> k >= CheckoutMainStep
  {
    GitPhaseFails(company, sub, script, k);
    CheckoutMainInFailureTrace(company, sub, k);
  }

  /** A `git status` that prints only whitespace means "No changes to commit": nothing is
      committed, pushed or opened, and the degraded result is returned. */
  lemma GitPhaseNothingToCommit(company: string, sub: Submission, script: seq<Outcome>)
    requires ScriptSucceeds(script, GitBase, GitBase + StatusStep + 2)
    requires IsBlank(OutcomeAt(script, GitBase + StatusStep).stdout)
    ensures GitPhase(company, sub, script).result == Ok(Degraded(ArtifactPaths(sub)))
    ensures forall a :: a in GitPhase(company, sub, script).trace ==> !a.Commit? && !a.PushBranch? && !a.OpenPullRequest?
  {
    GitStepsBeforeStatusSucceed(company, sub, script);
    assert OutcomeAt(script, GitBase + StatusStep + 1).Done?;
    GitPhaseFails(company, sub, script, StatusStep);
    NothingPublishedUpToStatus(company, sub);
  }

  lemma GitStepsBeforeStatusSucceed(company: string, sub: Submission, script: seq<Outcome>)
    requires ScriptSucceeds(script, GitBase, GitBase + StatusStep)
    ensures forall i :: 0 <= i < StatusStep ==> Observed(GitSteps(company, sub)[i], OutcomeAt(script, GitBase + i)).Done?
  {
    var git := GitSteps(company, sub);
    forall i | 0 <= i < StatusStep ensures Observed(git[i], OutcomeAt(script, GitBase + i)).Done? {
      ObservedTakenAsIs(git[i], OutcomeAt(script, GitBase + i));
    }
  }

  lemma NothingPublishedUpToStatus(company: string, sub: Submission)
    ensures forall a :: a in GitSteps(company, sub)[..StatusStep + 1] + [ChangeDirectory(FrontendDir)] ==>
              !a.Commit? && !a.PushBranch? && !a.OpenPullRequest?
  {
  }

  /** The whole run when every step succeeds and there is something to commit. */
  lemma AfterAuthHappyPath(company: string, jdSummary: JValue, emailDraft: JValue, resume: string,
                           sub: Submission, script: seq<Outcome>)
    requires ScriptSucceeds(script, MaterializeBase, GitBase + 11)
    requires Renders(RoleSummaryDoc(company, jdSummary)) && Renders(IntroEmailDoc(company, emailDraft))
    requires !IsBlank(OutcomeAt(script, GitBase + StatusStep).stdout)
    ensures AfterAuth(company, jdSummary, emailDraft, resume, sub, script).result ==
              Ok(GitHubResult(Trim(OutcomeAt(script, GitBase + RepoUrlStep).stdout),
                              Trim(OutcomeAt(script, GitBase + PullRequestStep).stdout),
                              Take(Trim(OutcomeAt(script, GitBase + HeadStep).stdout), 7),
                              ArtifactPaths(sub)))
    ensures AfterAuth(company, jdSummary, emailDraft, resume, sub, script).trace ==
              [CheckAuth] + Materialization(company, jdSummary, emailDraft, resume, sub) + GitSteps(company, sub)
  {
    MaterializationCompletes(company, jdSummary, emailDraft, resume, sub, script);
    GitPhaseSucceeds(company, sub, script);
  }

  /** A failing git or gh step does not fail the publish once the files are written: the
      run stops at that step, goes back to the app directory and returns the degraded result. */
  lemma AfterAuthGitFailureDegrades(company: string, jdSummary: JValue, emailDraft: JValue, resume: string,
                                    sub: Submission, script: seq<Outcome>, k: nat)
    requires ScriptSucceeds(script, MaterializeBase, GitBase)
    requires Renders(RoleSummaryDoc(company, jdSummary)) && Renders(IntroEmailDoc(company, emailDraft))
    requires k < 11
    requires forall i :: 0 <= i < k ==> Observed(GitSteps(company, sub)[i], OutcomeAt(script, GitBase + i)).Done?
    requires Observed(GitSteps(company, sub)[k], OutcomeAt(script, GitBase + k)).Failed?
    requires OutcomeAt(script, GitBase + k + 1).Done?
    ensures AfterAuth(company, jdSummary, emailDraft, resume, sub, script).result == Ok(Degraded(ArtifactPaths(sub)))
    ensures AfterAuth(company, jdSummary, emailDraft, resume, sub, script).trace ==
              [CheckAuth] + Materialization(company, jdSummary, emailDraft, resume, sub)
              + (GitSteps(company, sub)[..k + 1] + [ChangeDirectory(FrontendDir)])
  {
    MaterializationCompletes(company, jdSummary, emailDraft, resume, sub, script);
    GitPhaseFails(company, sub, script, k);
  }

  /** A failure while creating the folder, rendering or writing an artifact escapes with
      its own message before any git or gh command; what was written stays written. */
  lemma AfterAuthMaterializeFailure(company: string, jdSummary: JValue, emailDraft: JValue, resume: string,
                                    sub: Submission, script: seq<Outcome>, k: nat, m: string)
    requires k < 7
    requires forall i :: 0 <= i < k ==>
               Observed(Materialization(company, jdSummary, emailDraft, resume, sub)[i], OutcomeAt(script, MaterializeBase + i)).Done?
    requires Observed(Materialization(company, jdSummary, emailDraft, resume, sub)[k], OutcomeAt(script, MaterializeBase + k)) == Failed(m)
    ensures AfterAuth(company, jdSummary, emailDraft, resume, sub, script) ==
              PublishRun(Err(m), [CheckAuth] + Materialization(company, jdSummary, emailDraft, resume, sub)[..k + 1])
    ensures forall a :: a in AfterAuth(company, jdSummary, emailDraft, resume, sub, script).trace ==> !IsVcsCommand(a)
  {
    var mat := Materialization(company, jdSummary, emailDraft, resume, sub);
    var run := RunSteps(mat, script, MaterializeBase);
    assert run.Stopped?;
    assert run.at == k by {
      assert !(run.at < k);
      assert !(k < run.at);
    }
    assert forall a :: a in mat[..k + 1] ==> a in mat;
  }

  /** A job summary whose `key_requirements` is not an array makes the role-summary template
      throw once the folder exists and before any file is written. */
  lemma AfterAuthUnrenderableSummary(company: string, jdSummary: JValue, emailDraft: JValue, resume: string,
                                     sub: Submission, script: seq<Outcome>)
    requires OutcomeAt(script, MaterializeBase).Done?
    requires !Renders(RoleSummaryDoc(company, jdSummary))
    ensures AfterAuth(company, jdSummary, emailDraft, resume, sub, script).result == Err(RenderErrorMessage)
    ensures AfterAuth(company, jdSummary, emailDraft, resume, sub, script).trace ==
              [CheckAuth, MakeDirectory(sub), Render(RoleSummaryDoc(company, jdSummary))]
  {
    var mat := Materialization(company, jdSummary, emailDraft, resume, sub);
    AfterAuthMaterializeFailure(company, jdSummary, emailDraft, resume, sub, script, 1, RenderErrorMessage);
    assert mat[..2] == [mat[0], mat[1]];
  }
}
