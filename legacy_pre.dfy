/**
 * The standalone pre entry point (src/pre.ts): it refuses any stage but pre,
 * always creates the deployment, saves the execution state, and reports a
 * thrown error by its message alone.
 */
module LegacyPre {
  import opened Results
  import opened Runtime
  import opened ActionContext
  import opened Deployment
  import opened Phases

  function LegacyPreStageStep(c: ContextRecord, w: World): Step {
    if c.executionStage != "pre" then Step(c, w, Fail(Thrown(PreStageMismatch(c.executionStage))))
    else
      var s := CreateDeploymentStep(c, w);
      if s.outcome.Fail? then s else Persist(s)
  }

  /** `core.setFailed(error.message)`. */
  function ReportMessage(o: Outcome<Error>): Outcome<string> {
    if o.Pass? then Pass else Fail(o.error.message)
  }

  function RunLegacyPreStep(inputs: map<string, string>, env: map<string, string>, w: World): (World, Outcome<string>) {
    match GetContext(inputs, env, w.state)
    case Failure(e) => (w, Fail(e.message))
    case Success(c) => var s := LegacyPreStageStep(c, w); (s.world, ReportMessage(s.outcome))
  }

  /** Outside the pre stage nothing is sent or saved, and the stage is named in the failure. */
  lemma LegacyPreRefusesOtherStages(inputs: map<string, string>, env: map<string, string>, w: World)
    requires GetContext(inputs, env, w.state).Success? && ExecutionStage(w.state) != "pre"
    ensures RunLegacyPreStep(inputs, env, w) == (w, Fail(PreStageMismatch(ExecutionStage(w.state))))
  {
    GetContextFields(inputs, env, w.state);
  }

  /**
   * The deployment is created whatever the skip flag says, and the trailing
   * save leaves the store as a single save of the pre stage and the new id.
   */
  lemma LegacyPreCreatesDeployment(c: ContextRecord, w: World, id: nat)
    requires c.executionStage == "pre"
    requires Answer(w.replies) == Success(id) && id != 0
    requires Answer(Later(w.replies)).Success?
    ensures var s := LegacyPreStageStep(c, w);
      && s.outcome == Pass
      && s.ctx.deploymentId == Some(id)
      && s.world.state == SavedState(w.state, "pre", Some(id))
      && s.world.sent == w.sent + [CreateRequest(c),
           DeploymentStatusRequest(c.repo.owner, c.repo.name, id, "pending", Some(c.logUrl), None, PREVIEWS)]
  {
    CreateDeploymentOrder(c, w, id);
    SavedStateIdempotent(w.state, "pre", Some(id));
  }

  /** A rejected create is reported by its message; only the create request was sent and nothing was saved. */
  lemma LegacyPreReportsCreateError(inputs: map<string, string>, env: map<string, string>, w: World)
    requires GetContext(inputs, env, w.state).Success? && ExecutionStage(w.state) == "pre"
    requires Answer(w.replies).Failure?
    ensures RunLegacyPreStep(inputs, env, w)
      == (w.(sent := w.sent + [CreateRequest(GetContext(inputs, env, w.state).value)], replies := Later(w.replies)),
          Fail(Answer(w.replies).error.message))
  {
    GetContextFields(inputs, env, w.state);
    CreateDeploymentRejected(GetContext(inputs, env, w.state).value, w);
  }

  /** On a context that resolves to the pre stage, the standalone entry point does what `runPre` does without the skip flag. */
  lemma LegacyPreAgreesWithRunPre(c: ContextRecord, w: World)
    requires !c.skipPreAction
    ensures LegacyPreStageStep(c, w) == PreStageStep(c, w)
  {
  }

  /** A thrown error is reported by its message, without the `Error: ` prefix that `runPre` adds. */
  lemma LegacyReportDropsName(message: string)
    requires message != ""
    ensures ReportMessage(Fail(Thrown(message))) == Fail(message)
    ensures Report(Fail(Thrown(message))) != ReportMessage(Fail(Thrown(message)))
  {
    assert |Describe(Thrown(message))| > |message|;
  }

  /** `run()` of src/pre.ts, after `getContext`. */
  method LegacyPreStage(ctx: Context, host: Runner) returns (outcome: Outcome<Error>)
    modifies ctx, host
    ensures Step(ctx.Record(), host.View(), outcome) == LegacyPreStageStep(old(ctx.Record()), old(host.View()))
  {
    if ctx.executionStage != "pre" {
      return Fail(Thrown(PreStageMismatch(ctx.executionStage)));
    }
    outcome := CreateDeployment(ctx, host);
    if outcome.Fail? {
      return;
    }
    SaveExecutionState(ctx, host);
  }

  /** `run()` of src/pre.ts. */
  method RunLegacyPre(inputs: map<string, string>, env: map<string, string>, host: Runner) returns (outcome: Outcome<string>)
    modifies host
    ensures (host.View(), outcome) == RunLegacyPreStep(inputs, env, old(host.View()))
  {
    var r := GetContext(inputs, env, host.state);
    if r.Failure? {
      return Fail(r.error.message);
    }
    var ctx := new Context(r.value);
    var o := LegacyPreStage(ctx, host);
    outcome := ReportMessage(o);
  }
}
