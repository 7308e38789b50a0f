/**
 * The deployment client (src/deployment.ts): the requests it sends to the
 * deployments API, built from the context, and the effects of each call.
 * Each method is specified by the "step" function of the same name, which
 * maps the context and the world before the call to the context, the world
 * and the completion after it.
 */
module Deployment {
  import opened Results
  import opened Runtime
  import opened ActionContext

  /** The context, the world and the completion after an operation; `Fail` stands for a thrown error. */
  datatype Step = Step(ctx: ContextRecord, world: World, outcome: Outcome<Error>)

  const MISSING_DEPLOYMENT_ID := "Deployment ID not available to set deployment status. This is a bug in the action!"

  /** An awaited remote call: a failed reply is thrown. */
  function Completion(reply: Reply): Outcome<Error> {
    if reply.Success? then Pass else Fail(reply.error)
  }

  /** `saveExecutionState(context)` after a step. */
  function Persist(s: Step): Step {
    Step(s.ctx, s.world.(state := SavedState(s.world.state, s.ctx.executionStage, s.ctx.deploymentId)), Pass)
  }

  /** `if (context.version)`: the payload carries a non-empty version only. */
  function PayloadVersion(c: ContextRecord): Option<string> {
    if c.version.Some? && c.version.value != "" then c.version else None
  }

  /** The body of the deployment-create request. */
  function CreateRequest(c: ContextRecord): Request {
    CreateDeploymentRequest(
      owner := c.repo.owner, repo := c.repo.name, ref := c.ref,
      environment := c.environment.name,
      transientEnvironment := c.environment.isTransient,
      productionEnvironment := c.environment.isProduction,
      requiredContexts := c.requiredContexts,
      autoMerge := false,
      payloadVersion := PayloadVersion(c),
      previews := PREVIEWS)
  }

  /** The create request carries the context's ref, environment, classification and required contexts, never auto-merges, and has a version payload only for a set version. */
  lemma CreateRequestFields(c: ContextRecord)
    ensures var r := CreateRequest(c);
      && r.CreateDeploymentRequest?
      && r.owner == c.repo.owner && r.repo == c.repo.name
      && r.ref == c.ref
      && r.environment == c.environment.name
      && r.transientEnvironment == c.environment.isTransient
      && r.productionEnvironment == c.environment.isProduction
      && r.requiredContexts == c.requiredContexts
      && !r.autoMerge
      && r.previews == PREVIEWS
      && (r.payloadVersion.Some? <==> c.version.Some? && c.version.value != "")
      && (r.payloadVersion.Some? ==> r.payloadVersion == c.version)
  {
  }

  function StatusRequest(c: ContextRecord, state: string, logUrl: Option<string>, environmentUrl: Option<string>): Request
    requires c.deploymentId.Some?
  {
    DeploymentStatusRequest(c.repo.owner, c.repo.name, c.deploymentId.value, state, logUrl, environmentUrl, PREVIEWS)
  }

  /** The ended state: the job status when the API accepts it as final, `error` otherwise. */
  function EndedState(jobStatus: string): (state: string)
    ensures state in ["success", "failure", "inactive", "error"]
    ensures state == jobStatus <==> jobStatus in ["success", "failure", "inactive", "error"]
    ensures jobStatus !in ["success", "failure", "inactive"] ==> state == "error"
  {
    if jobStatus in ["success", "failure", "inactive"] then jobStatus else "error"
  }

  /** `if (context.environment.url)`: only a non-empty URL is sent. */
  function EnvironmentUrl(c: ContextRecord): Option<string> {
    var u := c.environment.url;
    if u.Some? && u.value != "" then u else None
  }

  /** Shared guard of the three status updates: a missing or zero deployment id is a bug that throws before any request. */
  function PostStatus(c: ContextRecord, w: World, state: string, logUrl: Option<string>, environmentUrl: Option<string>): Step {
    if !HasDeploymentId(c.deploymentId) then Step(c, w, Fail(Thrown(MISSING_DEPLOYMENT_ID)))
    else
      var (reply, w') := Send(w, StatusRequest(c, state, logUrl, environmentUrl));
      Step(c, w', Completion(reply))
  }

  function SetDeploymentLogUrlStep(c: ContextRecord, w: World): Step {
    PostStatus(c, w, "pending", Some(c.logUrl), None)
  }

  function SetDeploymentInProgressStep(c: ContextRecord, w: World): Step {
    PostStatus(c, w, "in_progress", None, None)
  }

  function SetDeploymentEndedStep(c: ContextRecord, w: World): Step {
    PostStatus(c, w, EndedState(c.jobStatus), None, EnvironmentUrl(c))
  }

  function CreateDeploymentStep(c: ContextRecord, w: World): Step {
    var (reply, w1) := Send(w, CreateRequest(c));
    if reply.Failure? then Step(c, w1, Fail(reply.error))
    else
      var c1 := c.(deploymentId := Some(reply.value));
      SetDeploymentLogUrlStep(c1, w1.(state := SavedState(w1.state, c1.executionStage, c1.deploymentId)))
  }

  /** The status updates throw before any request, and change nothing, when the deployment id is absent or zero. */
  lemma StatusNeedsDeploymentId(c: ContextRecord, w: World)
    requires !HasDeploymentId(c.deploymentId)
    ensures SetDeploymentLogUrlStep(c, w) == Step(c, w, Fail(Thrown(MISSING_DEPLOYMENT_ID)))
    ensures SetDeploymentInProgressStep(c, w) == Step(c, w, Fail(Thrown(MISSING_DEPLOYMENT_ID)))
    ensures SetDeploymentEndedStep(c, w) == Step(c, w, Fail(Thrown(MISSING_DEPLOYMENT_ID)))
  {
  }

  /** A status update with a deployment id sends exactly one status request for that id and leaves the context and the state store alone. */
  lemma StatusPostsOnce(c: ContextRecord, w: World)
    requires HasDeploymentId(c.deploymentId)
    ensures var s := SetDeploymentInProgressStep(c, w);
      && s.ctx == c && s.world.state == w.state
      && s.world.sent == w.sent + [DeploymentStatusRequest(c.repo.owner, c.repo.name, c.deploymentId.value,
                                                            "in_progress", None, None, PREVIEWS)]
      && s.world.replies == Later(w.replies)
      && s.outcome == Completion(Answer(w.replies))
    ensures var s := SetDeploymentEndedStep(c, w);
      && s.ctx == c && s.world.state == w.state
      && |s.world.sent| == |w.sent| + 1 && s.world.sent[..|w.sent|] == w.sent
      && var r := s.world.sent[|w.sent|];
      && r.DeploymentStatusRequest? && r.deploymentId == c.deploymentId.value
      && r.state == EndedState(c.jobStatus)
      && r.logUrl.None?
      && (r.environmentUrl.Some? <==> c.environment.url.Some? && c.environment.url.value != "")
      && (r.environmentUrl.Some? ==> r.environmentUrl == c.environment.url)
  {
    var s := SetDeploymentEndedStep(c, w);
    assert s.world.sent[..|w.sent|] == w.sent;
  }

  /** A failed create throws its error after the one request, and neither the context nor the store changes. */
  lemma CreateDeploymentRejected(c: ContextRecord, w: World)
    requires Answer(w.replies).Failure?
    ensures CreateDeploymentStep(c, w)
      == Step(c, w.(sent := w.sent + [CreateRequest(c)], replies := Later(w.replies)), Fail(Answer(w.replies).error))
  {
  }

  /**
   * After a successful create the deployment id is set, the state is saved
   * with it, and then the `pending` status carrying the log URL is sent.
   */
  lemma CreateDeploymentOrder(c: ContextRecord, w: World, id: nat)
    requires Answer(w.replies) == Success(id) && id != 0
    ensures var s := CreateDeploymentStep(c, w);
      && s.ctx == c.(deploymentId := Some(id))
      && s.world.state == SavedState(w.state, c.executionStage, Some(id))
      && s.world.sent == w.sent + [CreateRequest(c),
           DeploymentStatusRequest(c.repo.owner, c.repo.name, id, "pending", Some(c.logUrl), None, PREVIEWS)]
      && s.world.replies == Later(Later(w.replies))
      && s.outcome == Completion(Answer(Later(w.replies)))
  {
  }

  /** A create answered with id 0 saves the stage without an id and throws before the `pending` status: 0 is falsy. */
  lemma CreateDeploymentZeroId(c: ContextRecord, w: World)
    requires Answer(w.replies) == Success(0)
    ensures var s := CreateDeploymentStep(c, w);
      && s.world.state == SavedState(w.state, c.executionStage, None)
      && s.world.sent == w.sent + [CreateRequest(c)]
      && s.outcome == Fail(Thrown(MISSING_DEPLOYMENT_ID))
  {
  }

  /** Creating from the pre stage persists exactly `preHasRun` and the new deployment id. */
  lemma CreateDeploymentInPreStage(c: ContextRecord, w: World, id: nat)
    requires c.executionStage == "pre"
    requires Answer(w.replies) == Success(id) && id != 0
    ensures var st := CreateDeploymentStep(c, w).world.state;
      && st.Keys == w.state.Keys + {PRE_HAS_RUN, DEPLOYMENT_ID}
      && st[PRE_HAS_RUN] == "true"
      && StoredDeploymentId(st) == Some(id)
      && forall k :: k in w.state && k != PRE_HAS_RUN && k != DEPLOYMENT_ID ==> st[k] == w.state[k]
  {
    CreateDeploymentOrder(c, w, id);
    SavedStateWrites(w.state, "pre", Some(id));
    DeploymentIdPersists(w.state, "pre", Some(id));
  }

  /** `createDeployment(context)`. */
  method CreateDeployment(ctx: Context, host: Runner) returns (outcome: Outcome<Error>)
    modifies ctx, host
    ensures Step(ctx.Record(), host.View(), outcome) == CreateDeploymentStep(old(ctx.Record()), old(host.View()))
  {
    var payloadVersion: Option<string> := None;
    if ctx.version.Some? && ctx.version.value != "" {
      payloadVersion := ctx.version;
    }
    var reply := host.Call(CreateDeploymentRequest(
      owner := ctx.repo.owner, repo := ctx.repo.name, ref := ctx.ref,
      environment := ctx.environment.name,
      transientEnvironment := ctx.environment.isTransient,
      productionEnvironment := ctx.environment.isProduction,
      requiredContexts := ctx.requiredContexts,
      autoMerge := false,
      payloadVersion := payloadVersion,
      previews := PREVIEWS));
    if reply.Failure? {
      return Fail(reply.error);
    }
    ctx.deploymentId := Some(reply.value);
    SaveExecutionState(ctx, host);
    outcome := SetDeploymentLogUrl(ctx, host);
  }

  /** `setDeploymentLogUrl(context)`: the `pending` status with the log URL. */
  method SetDeploymentLogUrl(ctx: Context, host: Runner) returns (outcome: Outcome<Error>)
    modifies host
    ensures Step(ctx.Record(), host.View(), outcome) == SetDeploymentLogUrlStep(ctx.Record(), old(host.View()))
  {
    if !HasDeploymentId(ctx.deploymentId) {
      return Fail(Thrown(MISSING_DEPLOYMENT_ID));
    }
    var reply := host.Call(DeploymentStatusRequest(
      ctx.repo.owner, ctx.repo.name, ctx.deploymentId.value, "pending", Some(ctx.logUrl), None, PREVIEWS));
    outcome := Completion(reply);
  }

  /** `setDeploymentInProgress(context)`. */
  method SetDeploymentInProgress(ctx: Context, host: Runner) returns (outcome: Outcome<Error>)
    modifies host
    ensures Step(ctx.Record(), host.View(), outcome) == SetDeploymentInProgressStep(ctx.Record(), old(host.View()))
  {
    if !HasDeploymentId(ctx.deploymentId) {
      return Fail(Thrown(MISSING_DEPLOYMENT_ID));
    }
    var reply := host.Call(DeploymentStatusRequest(
      ctx.repo.owner, ctx.repo.name, ctx.deploymentId.value, "in_progress", None, None, PREVIEWS));
    outcome := Completion(reply);
  }

  /** `setDeploymentEnded(context)`. */
  method SetDeploymentEnded(ctx: Context, host: Runner) returns (outcome: Outcome<Error>)
    modifies host
    ensures Step(ctx.Record(), host.View(), outcome) == SetDeploymentEndedStep(ctx.Record(), old(host.View()))
  {
    if !HasDeploymentId(ctx.deploymentId) {
      return Fail(Thrown(MISSING_DEPLOYMENT_ID));
    }
    var validJobStatus := ctx.jobStatus in ["success", "failure", "inactive"];
    var state := if validJobStatus then ctx.jobStatus else "error";
    var environmentUrl: Option<string> := None;
    if ctx.environment.url.Some? && ctx.environment.url.value != "" {
      environmentUrl := ctx.environment.url;
    }
    var reply := host.Call(DeploymentStatusRequest(
      ctx.repo.owner, ctx.repo.name, ctx.deploymentId.value, state, None, environmentUrl, PREVIEWS));
    outcome := Completion(reply);
  }
}
