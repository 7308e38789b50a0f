/**
 * The standalone post entry point (src/post.ts): it ends the deployment with
 * status `error` when main did not run, has no guard for a missing
 * deployment id, and reports a thrown error by its message alone.
 */
module LegacyPost {
  import opened Results
  import opened Runtime
  import opened ActionContext
  import opened Deployment
  import opened LegacyPre

  function LegacyPostStageStep(c: ContextRecord, w: World): Step {
    var c1 := if c.executionStage != "post" then c.(jobStatus := "error") else c;
    var s := SetDeploymentEndedStep(c1, w);
    if s.outcome.Fail? then s else Persist(s)
  }

  function RunLegacyPostStep(inputs: map<string, string>, env: map<string, string>, w: World): (World, Outcome<string>) {
    match GetContext(inputs, env, w.state)
    case Failure(e) => (w, Fail(e.message))
    case Success(c) => var s := LegacyPostStageStep(c, w); (s.world, ReportMessage(s.outcome))
  }

  /**
   * With a deployment id, exactly one status is sent: the job's status in
   * the post stage and `error` otherwise; the state is saved only after the
   * status was accepted.
   */
  lemma LegacyPostEndsDeployment(c: ContextRecord, w: World)
    requires HasDeploymentId(c.deploymentId)
    ensures var s := LegacyPostStageStep(c, w);
      && |s.world.sent| == |w.sent| + 1
      && s.world.sent[..|w.sent|] == w.sent
      && s.world.sent[|w.sent|].DeploymentStatusRequest?
      && s.world.sent[|w.sent|].deploymentId == c.deploymentId.value
      && s.world.sent[|w.sent|].state == (if c.executionStage == "post" then EndedState(c.jobStatus) else "error")
      && s.outcome == Completion(Answer(w.replies))
      && s.world.state == (if Answer(w.replies).Success? then SavedState(w.state, c.executionStage, c.deploymentId) else w.state)
  {
    var c1 := if c.executionStage != "post" then c.(jobStatus := "error") else c;
    StatusPostsOnce(c1, w);
  }

  /** Without a deployment id the status call throws: the phase fails and nothing is sent or saved. */
  lemma LegacyPostWithoutDeploymentId(c: ContextRecord, w: World)
    requires !HasDeploymentId(c.deploymentId)
    ensures var s := LegacyPostStageStep(c, w);
      && s.world == w
      && s.outcome == Fail(Thrown(MISSING_DEPLOYMENT_ID))
  {
    var c1 := if c.executionStage != "post" then c.(jobStatus := "error") else c;
    StatusNeedsDeploymentId(c1, w);
  }

  /** `run()` of src/post.ts, after `getContext`. */
  method LegacyPostStage(ctx: Context, host: Runner) returns (outcome: Outcome<Error>)
    modifies ctx, host
    ensures Step(ctx.Record(), host.View(), outcome) == LegacyPostStageStep(old(ctx.Record()), old(host.View()))
  {
    if ctx.executionStage != "post" {
      ctx.jobStatus := "error";
    }
    outcome := SetDeploymentEnded(ctx, host);
    if outcome.Fail? {
      return;
    }
    SaveExecutionState(ctx, host);
  }

  /** `run()` of src/post.ts. */
  method RunLegacyPost(inputs: map<string, string>, env: map<string, string>, host: Runner) returns (outcome: Outcome<string>)
    modifies host
    ensures (host.View(), outcome) == RunLegacyPostStep(inputs, env, old(host.View()))
  {
    var r := GetContext(inputs, env, host.state);
    if r.Failure? {
      return Fail(r.error.message);
    }
    var ctx := new Context(r.value);
    var o := LegacyPostStage(ctx, host);
    outcome := ReportMessage(o);
  }
}
