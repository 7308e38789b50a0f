/**
 * The phase handlers `runPre`, `runMain` and `runPost` (src/main.ts). Each
 * builds a fresh context, checks that the resolved stage is legal for the
 * phase, drives the deployment client, saves the execution state once the
 * remote calls succeeded, and turns every thrown error into a failed phase.
 *
 * `XStage` methods are the bodies of the handlers after `getContext`, on any
 * context; `RunX` methods are the whole handlers. Both are specified by the
 * step functions of the same names.
 */
module Phases {
  import opened Results
  import opened Runtime
  import opened ActionContext
  import opened Deployment

  function PreStageMismatch(stage: string): string {
    "Unexpected execution stage \"" + stage + "\" when executing pre stage."
  }

  function MainStageMismatch(stage: string): string {
    "Unexpected execution stage \"" + stage + "\" when executing main stage"
  }

  /** `core.setFailed(`${error}`)` in the catch-all of each handler. */
  function Report(o: Outcome<Error>): Outcome<string> {
    if o.Pass? then Pass else Fail(Describe(o.error))
  }

  function PreStageStep(c: ContextRecord, w: World): Step {
    if c.executionStage != "pre" then Step(c, w, Fail(Thrown(PreStageMismatch(c.executionStage))))
    else
      var s := if c.skipPreAction then Step(c, w, Pass) else CreateDeploymentStep(c, w);
      if s.outcome.Fail? then s else Persist(s)
  }

  function MainStageStep(c: ContextRecord, w: World): Step {
    var s :=
      if !c.skipPreAction then Step(c, w, Pass)
      else if c.executionStage !in ["pre", "main"] then Step(c, w, Fail(Thrown(MainStageMismatch(c.executionStage))))
      else CreateDeploymentStep(c.(executionStage := "main"), w);
    if s.outcome.Fail? then s
    else if s.ctx.executionStage != "main" then Step(s.ctx, s.world, Fail(Thrown(MainStageMismatch(s.ctx.executionStage))))
    else
      var s2 := SetDeploymentInProgressStep(s.ctx, s.world);
      if s2.outcome.Fail? then s2 else Persist(s2)
  }

  function PostStageStep(c: ContextRecord, w: World): Step {
    if !HasDeploymentId(c.deploymentId) then Step(c, w, Pass)
    else
      var c1 := if c.executionStage != "post" then c.(jobStatus := "inactive") else c;
      var s := SetDeploymentEndedStep(c1, w);
      if s.outcome.Fail? then s else Persist(s)
  }

  /** `runPre()`: build the context from the world's state, run the pre stage, report any error. */
  function RunPreStep(inputs: map<string, string>, env: map<string, string>, w: World): (World, Outcome<string>) {
    match GetContext(inputs, env, w.state)
    case Failure(e) => (w, Fail(Describe(e)))
    case Success(c) => var s := PreStageStep(c, w); (s.world, Report(s.outcome))
  }

  /** `runMain()`. */
  function RunMainStep(inputs: map<string, string>, env: map<string, string>, w: World): (World, Outcome<string>) {
    match GetContext(inputs, env, w.state)
    case Failure(e) => (w, Fail(Describe(e)))
    case Success(c) => var s := MainStageStep(c, w); (s.world, Report(s.outcome))
  }

  /** `runPost()`. */
  function RunPostStep(inputs: map<string, string>, env: map<string, string>, w: World): (World, Outcome<string>) {
    match GetContext(inputs, env, w.state)
    case Failure(e) => (w, Fail(Describe(e)))
    case Success(c) => var s := PostStageStep(c, w); (s.world, Report(s.outcome))
  }

  // ---------------------------------------------------------------- pre

  /** The pre handler refuses any other stage, with no request and no state write. */
  lemma PreRefusesOtherStages(c: ContextRecord, w: World)
    requires c.executionStage != "pre"
    ensures PreStageStep(c, w) == Step(c, w, Fail(Thrown(PreStageMismatch(c.executionStage))))
  {
  }

  /** With the pre-action skipped, the pre handler only saves `preHasRun` (and a deployment id the context already had). */
  lemma PreSkippedOnlySaves(c: ContextRecord, w: World)
    requires c.executionStage == "pre" && c.skipPreAction
    ensures PreStageStep(c, w) == Step(c, w.(state := SavedState(w.state, "pre", c.deploymentId)), Pass)
  {
  }

  /**
   * Otherwise the pre handler creates the deployment and saves again: the
   * create and `pending` requests are sent, and the store holds the flags of
   * the pre stage and the new id, as after a single save.
   */
  lemma PreCreatesDeployment(c: ContextRecord, w: World, id: nat)
    requires c.executionStage == "pre" && !c.skipPreAction
    requires Answer(w.replies) == Success(id) && id != 0
    requires Answer(Later(w.replies)).Success?
    ensures var s := PreStageStep(c, w);
      && s.outcome == Pass
      && s.ctx.deploymentId == Some(id)
      && s.world.state == SavedState(w.state, "pre", Some(id))
      && s.world.sent == w.sent + [CreateRequest(c),
           DeploymentStatusRequest(c.repo.owner, c.repo.name, id, "pending", Some(c.logUrl), None, PREVIEWS)]
  {
    CreateDeploymentOrder(c, w, id);
    SavedStateIdempotent(w.state, "pre", Some(id));
  }

  /** A failed remote call in the pre handler skips its trailing save. */
  lemma PreFailureSkipsSave(c: ContextRecord, w: World)
    requires c.executionStage == "pre" && !c.skipPreAction
    requires CreateDeploymentStep(c, w).outcome.Fail?
    ensures PreStageStep(c, w) == CreateDeploymentStep(c, w)
  {
  }

  // ---------------------------------------------------------------- main

  /** Without the skip flag, the main handler requires the main stage. */
  lemma MainRequiresMainStage(c: ContextRecord, w: World)
    requires !c.skipPreAction && c.executionStage != "main"
    ensures MainStageStep(c, w) == Step(c, w, Fail(Thrown(MainStageMismatch(c.executionStage))))
  {
  }

  /** With the skip flag, the main handler accepts only the pre and main stages. */
  lemma MainSkippedRequiresPreOrMain(c: ContextRecord, w: World)
    requires c.skipPreAction && c.executionStage !in ["pre", "main"]
    ensures MainStageStep(c, w) == Step(c, w, Fail(Thrown(MainStageMismatch(c.executionStage))))
  {
  }

  /** Without the skip flag, the main handler sends `in_progress` and only then saves the main stage. */
  lemma MainMarksInProgress(c: ContextRecord, w: World)
    requires !c.skipPreAction && c.executionStage == "main" && HasDeploymentId(c.deploymentId)
    ensures var s := MainStageStep(c, w);
      && s.world.sent == w.sent + [DeploymentStatusRequest(c.repo.owner, c.repo.name, c.deploymentId.value,
                                                            "in_progress", None, None, PREVIEWS)]
      && s.outcome == Completion(Answer(w.replies))
      && s.world.state == (if Answer(w.replies).Success? then SavedState(w.state, "main", c.deploymentId) else w.state)
  {
  }

  /**
   * With the skip flag, the main handler creates the deployment as the main
   * stage: `preHasRun`, `mainHasRun` and the id are saved before the
   * `in_progress` status is sent, whether or not that status succeeds.
   */
  lemma MainSkippedCreatesDeployment(c: ContextRecord, w: World, id: nat)
    requires c.skipPreAction && c.executionStage in ["pre", "main"]
    requires Answer(w.replies) == Success(id) && id != 0
    requires Answer(Later(w.replies)).Success?
    ensures var s := MainStageStep(c, w);
      var c1 := c.(executionStage := "main", deploymentId := Some(id));
      && s.ctx == c1
      && s.world.state == SavedState(w.state, "main", Some(id))
      && s.world.sent == w.sent + [CreateRequest(c.(executionStage := "main")),
           DeploymentStatusRequest(c.repo.owner, c.repo.name, id, "pending", Some(c.logUrl), None, PREVIEWS),
           DeploymentStatusRequest(c.repo.owner, c.repo.name, id, "in_progress", None, None, PREVIEWS)]
      && s.outcome == Completion(Answer(Later(Later(w.replies))))
  {
    var cm := c.(executionStage := "main");
    CreateDeploymentOrder(cm, w, id);
    SavedStateIdempotent(w.state, "main", Some(id));
  }

  // ---------------------------------------------------------------- post

  /** Without a deployment id the post handler warns and returns: not failed, nothing sent, nothing saved. */
  lemma PostWithoutDeploymentId(c: ContextRecord, w: World)
    requires !HasDeploymentId(c.deploymentId)
    ensures PostStageStep(c, w) == Step(c, w, Pass)
  {
  }

  /**
   * The post handler ends the deployment with the job's status in the post
   * stage, and with `inactive` whatever the job status when main did not run;
   * the state is saved only after the status was accepted.
   */
  lemma PostEndsDeployment(c: ContextRecord, w: World)
    requires HasDeploymentId(c.deploymentId)
    ensures var s := PostStageStep(c, w);
      var posted := if c.executionStage == "post" then EndedState(c.jobStatus) else "inactive";
      && |s.world.sent| == |w.sent| + 1
      && s.world.sent[..|w.sent|] == w.sent
      && s.world.sent[|w.sent|].DeploymentStatusRequest?
      && s.world.sent[|w.sent|].state == posted
      && s.world.sent[|w.sent|].deploymentId == c.deploymentId.value
      && s.ctx.jobStatus == (if c.executionStage == "post" then c.jobStatus else "inactive")
      && s.outcome == Completion(Answer(w.replies))
      && s.world.state == (if Answer(w.replies).Success? then SavedState(w.state, c.executionStage, c.deploymentId) else w.state)
  {
    var c1 := if c.executionStage != "post" then c.(jobStatus := "inactive") else c;
    StatusPostsOnce(c1, w);
  }

  // ---------------------------------------------------------------- handlers

  /** Every handler reports a context that cannot be built as a failure, changing nothing. */
  lemma HandlersReportContextErrors(inputs: map<string, string>, env: map<string, string>, w: World)
    requires GetContext(inputs, env, w.state).Failure?
    ensures var msg := Describe(GetContext(inputs, env, w.state).error);
      && RunPreStep(inputs, env, w) == (w, Fail(msg))
      && RunMainStep(inputs, env, w) == (w, Fail(msg))
      && RunPostStep(inputs, env, w) == (w, Fail(msg))
  {
  }

  /** A rejected create in `runPre` is reported as `${error}`; only the create request was sent and nothing was saved. */
  lemma RunPreReportsCreateError(inputs: map<string, string>, env: map<string, string>, w: World)
    requires GetContext(inputs, env, w.state).Success? && ExecutionStage(w.state) == "pre"
    requires Answer(w.replies).Failure?
    ensures RunPreStep(inputs, env, w)
      == (w.(sent := w.sent + [CreateRequest(GetContext(inputs, env, w.state).value)], replies := Later(w.replies)),
          Fail(Describe(Answer(w.replies).error)))
  {
    GetContextFields(inputs, env, w.state);
    CreateDeploymentRejected(GetContext(inputs, env, w.state).value, w);
  }

  /** A thrown error is reported as `Error: <message>`. */
  lemma ReportShowsError(message: string)
    requires message != ""
    ensures Report(Fail(Thrown(message))) == Fail("Error: " + message)
  {
    assert "Error" + ": " + message == "Error: " + message;
  }

  /** The repository every context of a job is built with: it is read from the environment alone. */
  function JobRepo(env: map<string, string>): Repository {
    ParseRepository(Lookup(env, "GITHUB_REPOSITORY"))
  }

  /** The status request a handler sends for deployment `id`, as built from the job's inputs and environment. */
  function JobStatusRequest(env: map<string, string>, id: nat, state: string, logUrl: Option<string>,
                            environmentUrl: Option<string>): Request {
    DeploymentStatusRequest(JobRepo(env).owner, JobRepo(env).name, id, state, logUrl, environmentUrl, PREVIEWS)
  }

  /** The `environment_url` input, present only when non-empty. */
  function JobEnvironmentUrl(inputs: map<string, string>): Option<string> {
    if Input(inputs, "environment_url") != "" then Some(Input(inputs, "environment_url")) else None
  }

  /** The pre handler of a fresh job creates the deployment and records the pre stage and the id. */
  lemma RunPreFresh(inputs: map<string, string>, env: map<string, string>, w: World, id: nat)
    requires GetContext(inputs, env, w.state).Success? && ExecutionStage(w.state) == "pre"
    requires Answer(w.replies) == Success(id) && id != 0
    requires Answer(Later(w.replies)).Success?
    ensures var (w', o) := RunPreStep(inputs, env, w);
      && o == Pass
      && w'.state == SavedState(w.state, "pre", Some(id))
      && w'.sent == w.sent + [CreateRequest(GetContext(inputs, env, w.state).value),
           JobStatusRequest(env, id, "pending", Some(CreateLogUrl(Lookup(env, "GITHUB_REPOSITORY"), Lookup(env, "GITHUB_RUN_ID"))), None)]
      && w'.replies == Later(Later(w.replies))
      && ExecutionStage(w'.state) == "main" && StoredDeploymentId(w'.state) == Some(id)
  {
    GetContextFields(inputs, env, w.state);
    var c := GetContext(inputs, env, w.state).value;
    PreCreatesDeployment(c, w, id);
    CreateDeploymentOrder(c, w, id);
    StageAfterSave(w.state, Some(id));
    DeploymentIdPersists(w.state, "pre", Some(id));
  }

  /** After the pre stage ran, the main handler marks the stored deployment in progress and records the main stage. */
  lemma RunMainAfterPre(inputs: map<string, string>, env: map<string, string>, w: World)
    requires GetContext(inputs, env, w.state).Success? && ExecutionStage(w.state) == "main"
    requires HasDeploymentId(StoredDeploymentId(w.state))
    requires Answer(w.replies).Success?
    ensures var (w', o) := RunMainStep(inputs, env, w);
      && o == Pass
      && w'.state == SavedState(w.state, "main", StoredDeploymentId(w.state))
      && w'.sent == w.sent + [JobStatusRequest(env, StoredDeploymentId(w.state).value, "in_progress", None, None)]
      && w'.replies == Later(w.replies)
      && ExecutionStage(w'.state) == "post" && StoredDeploymentId(w'.state) == StoredDeploymentId(w.state)
  {
    GetContextFields(inputs, env, w.state);
    var c := GetContext(inputs, env, w.state).value;
    MainMarksInProgress(c, w);
    StageAfterSave(w.state, c.deploymentId);
    DeploymentIdPersists(w.state, "main", c.deploymentId);
  }

  /** After the main stage ran, the post handler ends the stored deployment with the job's status. */
  lemma RunPostAfterMain(inputs: map<string, string>, env: map<string, string>, w: World)
    requires GetContext(inputs, env, w.state).Success? && ExecutionStage(w.state) == "post"
    requires HasDeploymentId(StoredDeploymentId(w.state))
    requires Answer(w.replies).Success?
    ensures var (w', o) := RunPostStep(inputs, env, w);
      && o == Pass
      && w'.state == SavedState(w.state, "post", StoredDeploymentId(w.state))
      && w'.sent == w.sent + [JobStatusRequest(env, StoredDeploymentId(w.state).value,
                                               EndedState(Input(inputs, "job_status")), None, JobEnvironmentUrl(inputs))]
      && w'.replies == Later(w.replies)
      && ExecutionStage(w'.state) == "post" && StoredDeploymentId(w'.state) == StoredDeploymentId(w.state)
  {
    GetContextFields(inputs, env, w.state);
    var c := GetContext(inputs, env, w.state).value;
    assert EnvironmentUrl(c) == JobEnvironmentUrl(inputs);
    StageNeverRegresses(w.state, "post", c.deploymentId);
    DeploymentIdPersists(w.state, "post", c.deploymentId);
  }

  /**
   * A job of pre, then main, then post on a fresh store, with every remote
   * call accepted, walks one deployment through `pending`, `in_progress`
   * and the job's final state, each process reading the stage and the id the
   * previous one saved.
   */
  lemma PreMainPost(inputs: map<string, string>, env: map<string, string>, w0: World, id: nat)
    requires GetContext(inputs, env, w0.state).Success? && ExecutionStage(w0.state) == "pre"
    requires id != 0 && |w0.replies| >= 4 && w0.replies[0] == Success(id)
    requires w0.replies[1].Success? && w0.replies[2].Success? && w0.replies[3].Success?
    ensures var (w1, o1) := RunPreStep(inputs, env, w0);
      var (w2, o2) := RunMainStep(inputs, env, w1);
      var (w3, o3) := RunPostStep(inputs, env, w2);
      && o1 == Pass && o2 == Pass && o3 == Pass
      && w3.sent == w0.sent + [
           CreateRequest(GetContext(inputs, env, w0.state).value),
           JobStatusRequest(env, id, "pending", Some(CreateLogUrl(Lookup(env, "GITHUB_REPOSITORY"), Lookup(env, "GITHUB_RUN_ID"))), None),
           JobStatusRequest(env, id, "in_progress", None, None),
           JobStatusRequest(env, id, EndedState(Input(inputs, "job_status")), None, JobEnvironmentUrl(inputs))]
      && w3.replies == w0.replies[4..]
      && ExecutionStage(w3.state) == "post" && StoredDeploymentId(w3.state) == Some(id)
  {
    RunPreFresh(inputs, env, w0, id);
    var (w1, o1) := RunPreStep(inputs, env, w0);
    GetContextFailures(inputs, env, w0.state);
    GetContextFailures(inputs, env, w1.state);
    RunMainAfterPre(inputs, env, w1);
    assert w1.replies == w0.replies[2..];
    var (w2, o2) := RunMainStep(inputs, env, w1);
    assert w2.replies == w0.replies[3..] && Answer(w2.replies) == w0.replies[3];
    GetContextFailures(inputs, env, w2.state);
    RunPostAfterMain(inputs, env, w2);
    assert Later(w2.replies) == w0.replies[4..];
  }

  // ---------------------------------------------------------------- methods

  /** The body of `runPre` after `getContext`. */
  method PreStage(ctx: Context, host: Runner) returns (outcome: Outcome<Error>)
    modifies ctx, host
    ensures Step(ctx.Record(), host.View(), outcome) == PreStageStep(old(ctx.Record()), old(host.View()))
  {
    if ctx.executionStage != "pre" {
      return Fail(Thrown(PreStageMismatch(ctx.executionStage)));
    }
    if !ctx.skipPreAction {
      outcome := CreateDeployment(ctx, host);
      if outcome.Fail? {
        return;
      }
    }
    SaveExecutionState(ctx, host);
    outcome := Pass;
  }

  /** The body of `runMain` after `getContext`. */
  method MainStage(ctx: Context, host: Runner) returns (outcome: Outcome<Error>)
    modifies ctx, host
    ensures Step(ctx.Record(), host.View(), outcome) == MainStageStep(old(ctx.Record()), old(host.View()))
  {
    if ctx.skipPreAction {
      if ctx.executionStage !in ["pre", "main"] {
        return Fail(Thrown(MainStageMismatch(ctx.executionStage)));
      }
      ctx.executionStage := "main";
      outcome := CreateDeployment(ctx, host);
      if outcome.Fail? {
        return;
      }
    }
    if ctx.executionStage != "main" {
      return Fail(Thrown(MainStageMismatch(ctx.executionStage)));
    }
    outcome := SetDeploymentInProgress(ctx, host);
    if outcome.Fail? {
      return;
    }
    SaveExecutionState(ctx, host);
  }

  /** The body of `runPost` after `getContext`. */
  method PostStage(ctx: Context, host: Runner) returns (outcome: Outcome<Error>)
    modifies ctx, host
    ensures Step(ctx.Record(), host.View(), outcome) == PostStageStep(old(ctx.Record()), old(host.View()))
  {
    if !HasDeploymentId(ctx.deploymentId) {
      return Pass;
    }
    if ctx.executionStage != "post" {
      ctx.jobStatus := "inactive";
    }
    outcome := SetDeploymentEnded(ctx, host);
    if outcome.Fail? {
      return;
    }
    SaveExecutionState(ctx, host);
  }

  /** `runPre()`. */
  method RunPre(inputs: map<string, string>, env: map<string, string>, host: Runner) returns (outcome: Outcome<string>)
    modifies host
    ensures (host.View(), outcome) == RunPreStep(inputs, env, old(host.View()))
  {
    var r := GetContext(inputs, env, host.state);
    if r.Failure? {
      return Fail(Describe(r.error));
    }
    var ctx := new Context(r.value);
    var o := PreStage(ctx, host);
    outcome := Report(o);
  }

  /** `runMain()`. */
  method RunMain(inputs: map<string, string>, env: map<string, string>, host: Runner) returns (outcome: Outcome<string>)
    modifies host
    ensures (host.View(), outcome) == RunMainStep(inputs, env, old(host.View()))
  {
    var r := GetContext(inputs, env, host.state);
    if r.Failure? {
      return Fail(Describe(r.error));
    }
    var ctx := new Context(r.value);
    var o := MainStage(ctx, host);
    outcome := Report(o);
  }

  /** `runPost()`. */
  method RunPost(inputs: map<string, string>, env: map<string, string>, host: Runner) returns (outcome: Outcome<string>)
    modifies host
    ensures (host.View(), outcome) == RunPostStep(inputs, env, old(host.View()))
  {
    var r := GetContext(inputs, env, host.state);
    if r.Failure? {
      return Fail(Describe(r.error));
    }
    var ctx := new Context(r.value);
    var o := PostStage(ctx, host);
    outcome := Report(o);
  }
}
