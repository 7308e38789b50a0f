/**
 * The execution context of one phase (src/context.ts): which stage is running,
 * derived from the flags earlier phases persisted; the persistence of those
 * flags and of the deployment id; and the construction of the context from
 * the action's inputs, the process environment and the state store.
 */
module ActionContext {
  import opened Results
  import opened Text
  import opened Runtime

  const PRE_HAS_RUN := "preHasRun"
  const MAIN_HAS_RUN := "mainHasRun"
  const DEPLOYMENT_ID := "deploymentId"

  /** A read of a string map where a missing key reads as the empty string (both are falsy in JavaScript). */
  function Lookup(m: map<string, string>, key: string): string {
    if key in m then m[key] else ""
  }

  /** The link to the log of workflow run `runId` of repository `repository` ("owner/name"). */
  function CreateLogUrl(repository: string, runId: string): string {
    "https://github.com/" + repository + "/actions/runs/" + runId
  }

  /** `!!process.env['STATE_' + key]`: the flag was persisted by an earlier phase with a non-empty value. */
  predicate Flag(state: map<string, string>, key: string) {
    Lookup(state, key) != ""
  }

  predicate IsStage(stage: string) {
    stage == "pre" || stage == "main" || stage == "post"
  }

  /** The stage of the running phase, a total function of the two persisted flags. */
  function ExecutionStage(state: map<string, string>): (stage: string)
    ensures IsStage(stage)
    ensures stage == "pre" <==> !Flag(state, PRE_HAS_RUN) && !Flag(state, MAIN_HAS_RUN)
    ensures stage == "main" <==> Flag(state, PRE_HAS_RUN) && !Flag(state, MAIN_HAS_RUN)
    ensures stage == "post" <==> Flag(state, MAIN_HAS_RUN)
  {
    var isMain := Flag(state, PRE_HAS_RUN);
    var isPost := Flag(state, MAIN_HAS_RUN);
    if !isMain && !isPost then "pre"
    else if isMain && !isPost then "main"
    else if isPost then "post"
    else assert false; "post"
  }

  /** The truthiness of `context.deploymentId`: `undefined`, `NaN` (both `None`) and `0` are false. */
  predicate HasDeploymentId(id: Option<nat>) {
    id.Some? && id.value != 0
  }

  /** The state store after `saveExecutionState` of a context with this stage and deployment id. */
  function SavedState(m: map<string, string>, stage: string, id: Option<nat>): map<string, string> {
    var m1 := if stage in ["pre", "main", "post"] then m[PRE_HAS_RUN := "true"] else m;
    var m2 := if stage in ["main", "post"] then m1[MAIN_HAS_RUN := "true"] else m1;
    if HasDeploymentId(id) then m2[DEPLOYMENT_ID := NatToString(id.value)] else m2
  }

  /** The keys `saveExecutionState` writes. */
  function WrittenKeys(stage: string, id: Option<nat>): set<string> {
    (if stage == "pre" then {PRE_HAS_RUN} else {})
    + (if stage == "main" || stage == "post" then {PRE_HAS_RUN, MAIN_HAS_RUN} else {})
    + (if HasDeploymentId(id) then {DEPLOYMENT_ID} else {})
  }

  /** Exactly the flags of the stage and a non-zero deployment id are written, with their values, and nothing else changes. */
  lemma SavedStateWrites(m: map<string, string>, stage: string, id: Option<nat>)
    ensures SavedState(m, stage, id).Keys == m.Keys + WrittenKeys(stage, id)
    ensures forall k :: k in m && k !in WrittenKeys(stage, id) ==> SavedState(m, stage, id)[k] == m[k]
    ensures PRE_HAS_RUN in WrittenKeys(stage, id) <==> IsStage(stage)
    ensures MAIN_HAS_RUN in WrittenKeys(stage, id) <==> stage == "main" || stage == "post"
    ensures DEPLOYMENT_ID in WrittenKeys(stage, id) <==> HasDeploymentId(id)
    ensures IsStage(stage) ==> SavedState(m, stage, id)[PRE_HAS_RUN] == "true"
    ensures stage == "main" || stage == "post" ==> SavedState(m, stage, id)[MAIN_HAS_RUN] == "true"
    ensures HasDeploymentId(id) ==> SavedState(m, stage, id)[DEPLOYMENT_ID] == NatToString(id.value)
  {
  }

  /** Saving the same context twice leaves the same store as saving it once. */
  lemma SavedStateIdempotent(m: map<string, string>, stage: string, id: Option<nat>)
    ensures SavedState(SavedState(m, stage, id), stage, id) == SavedState(m, stage, id)
  {
    var once := SavedState(m, stage, id);
    var twice := SavedState(once, stage, id);
    SavedStateWrites(m, stage, id);
    SavedStateWrites(once, stage, id);
    assert twice.Keys == once.Keys;
  }

  function NextStage(stage: string): string {
    if stage == "pre" then "main" else "post"
  }

  function StageRank(stage: string): nat {
    if stage == "pre" then 0 else if stage == "main" then 1 else 2
  }

  /** The stage a later phase resolves after the current phase saved its state: pre, then main, then post. */
  lemma StageAfterSave(m: map<string, string>, id: Option<nat>)
    ensures ExecutionStage(SavedState(m, ExecutionStage(m), id)) == NextStage(ExecutionStage(m))
  {
    SavedStateWrites(m, ExecutionStage(m), id);
  }

  /** Whatever stage string is saved, the resolved stage never moves back. */
  lemma StageNeverRegresses(m: map<string, string>, stage: string, id: Option<nat>)
    ensures StageRank(ExecutionStage(SavedState(m, stage, id))) >= StageRank(ExecutionStage(m))
  {
    SavedStateWrites(m, stage, id);
    var m' := SavedState(m, stage, id);
    assert Flag(m, PRE_HAS_RUN) ==> Flag(m', PRE_HAS_RUN);
    assert Flag(m, MAIN_HAS_RUN) ==> Flag(m', MAIN_HAS_RUN);
  }

  datatype Repository = Repository(owner: string, name: string)

  datatype Environment = Environment(name: string, isProduction: bool, isTransient: bool, url: Option<string>)

  /** The fields of a `Context` object. */
  datatype ContextRecord = ContextRecord(
    executionStage: string,
    token: string,
    jobStatus: string,
    logUrl: string,
    environment: Environment,
    repo: Repository,
    ref: string,
    version: Option<string>,
    requiredContexts: seq<string>,
    deploymentId: Option<nat>,
    skipPreAction: bool)

  /**
   * The context object a phase handler works on. The phase handlers update
   * `executionStage` and `jobStatus`, deployment creation sets `deploymentId`;
   * the other fields keep the values `getContext` gave them.
   */
  class Context {
    var executionStage: string
    var jobStatus: string
    var deploymentId: Option<nat>
    const token: string
    const logUrl: string
    const environment: Environment
    const repo: Repository
    const ref: string
    const version: Option<string>
    const requiredContexts: seq<string>
    const skipPreAction: bool

    constructor (c: ContextRecord)
      ensures Record() == c
    {
      executionStage, jobStatus, deploymentId := c.executionStage, c.jobStatus, c.deploymentId;
      token, logUrl, environment, repo, ref := c.token, c.logUrl, c.environment, c.repo, c.ref;
      version, requiredContexts, skipPreAction := c.version, c.requiredContexts, c.skipPreAction;
    }

    function Record(): ContextRecord
      reads this
    {
      ContextRecord(executionStage, token, jobStatus, logUrl, environment, repo, ref,
                    version, requiredContexts, deploymentId, skipPreAction)
    }
  }

  /** `saveExecutionState(context)`: up to three writes to the state store, in sequence. */
  method SaveExecutionState(ctx: Context, host: Runner)
    modifies host
    ensures host.View() == old(host.View()).(state := SavedState(old(host.state), ctx.executionStage, ctx.deploymentId))
  {
    if ctx.executionStage in ["pre", "main", "post"] {
      host.Save(PRE_HAS_RUN, "true");
    }
    if ctx.executionStage in ["main", "post"] {
      host.Save(MAIN_HAS_RUN, "true");
    }
    if HasDeploymentId(ctx.deploymentId) {
      host.Save(DEPLOYMENT_ID, NatToString(ctx.deploymentId.value));
    }
  }

  /** The values `toBoolean` accepts, compared without regard to ASCII case. */
  const TRUTHY: seq<string> := ["true", "1", "on", "yes"]

  /** `toBoolean(value)`: the regular expression `^(true|1|on|yes)$` with the `i` flag, tested on `value.trim()`. */
  function ToBoolean(value: string): bool {
    Lower(Trim(value)) in TRUTHY
  }

  lemma LowerMatches(t: string, w: string)
    requires forall i :: 0 <= i < |w| ==> LowerAscii(w[i]) == w[i]
    ensures Lower(t) == w <==> EqualsIgnoreCase(t, w)
  {
    if EqualsIgnoreCase(t, w) {
      assert forall i :: 0 <= i < |w| ==> Lower(t)[i] == w[i];
    }
  }

  /** `toBoolean(value)` holds exactly when the trimmed value equals one of the accepted words up to case. */
  lemma ToBooleanMeaning(value: string)
    ensures ToBoolean(value) <==> exists i :: 0 <= i < |TRUTHY| && EqualsIgnoreCase(Trim(value), TRUTHY[i])
  {
    var t := Trim(value);
    forall i | 0 <= i < |TRUTHY|
      ensures Lower(t) == TRUTHY[i] <==> EqualsIgnoreCase(t, TRUTHY[i])
    {
      LowerMatches(t, TRUTHY[i]);
    }
  }

  /** Surrounding whitespace and upper case do not matter. */
  lemma ToBooleanAcceptsPadded()
    ensures ToBoolean(" TRUE\n")
  {
    var t := "TRUE";
    assert !IsSpace(t[0]) && !IsSpace(t[|t| - 1]);
    assert AllSpace(" ") && AllSpace("\n");
    TrimAround(" ", t, "\n");
    assert " " + t + "\n" == " TRUE\n";
    var l := Lower(t);
    assert l[0] == 't' && l[1] == 'r' && l[2] == 'u' && l[3] == 'e';
    assert l == TRUTHY[0];
  }

  /** Other words, and words with inner whitespace, are false. */
  lemma ToBooleanRejects()
    ensures !ToBoolean("false") && !ToBoolean("t rue") && !ToBoolean("")
  {
    TrimOfTrimmed("false");
    TrimOfTrimmed("t rue");
  }

  /** `parseArray(value)`: no entries for a blank value, otherwise `value.trim().split(/\s+/)`. */
  function ParseArray(value: string): seq<string> {
    var t := Trim(value);
    if t == [] then [] else Words(t)
  }

  /** `parseArray` gives an empty list exactly for a blank or whitespace-only value. */
  lemma ParseArrayBlank(value: string)
    ensures ParseArray(value) == [] <==> AllSpace(value)
  {
    var t := Trim(value);
    if t != [] {
      assert !IsSpace(t[0]);
      WordsNonEmpty(t);
    }
  }

  /** The entries of `parseArray(value)` are non-empty, whitespace-free, and together hold every non-whitespace character of `value` in order. */
  lemma ParseArrayContents(value: string)
    ensures forall i :: 0 <= i < |ParseArray(value)| ==> ParseArray(value)[i] != [] && NoSpace(ParseArray(value)[i])
    ensures Concat(ParseArray(value)) == RemoveSpaces(value)
  {
    var t := Trim(value);
    TrimKeepsContent(value);
    if t == [] {
      RemoveSpacesEmpty(value);
    } else {
      WordsContents(t);
    }
  }

  /** `parseArray` is the split of the whole value at whitespace: the blank case and the trim change nothing. */
  lemma ParseArrayIsWords(value: string)
    ensures ParseArray(value) == Words(value)
  {
    WordsOfTrim(value);
    if Trim(value) == [] {
      assert AllSpace(value);
      WordsSkipSpaces(value, []);
      assert value + [] == value;
    }
  }

  /**
   * Entries never span whitespace: a value cut where whitespace begins is
   * parsed as its two parts, one after the other; and a whitespace-free
   * value is a single entry.
   */
  lemma ParseArraySplit(a: string, b: string)
    requires b == [] || IsSpace(b[0])
    ensures ParseArray(a + b) == ParseArray(a) + ParseArray(b)
  {
    ParseArrayIsWords(a + b);
    ParseArrayIsWords(a);
    ParseArrayIsWords(b);
    WordsSplit(a, b);
  }

  lemma ParseArrayOfWord(w: string)
    requires w != [] && NoSpace(w)
    ensures ParseArray(w) == [w]
  {
    ParseArrayIsWords(w);
    WordsOfWord(w);
  }

  /** A list of contexts written space-separated is read back as the same list. */
  lemma ParseArrayOfJoin(ts: seq<string>)
    requires forall i :: 0 <= i < |ts| ==> ts[i] != [] && NoSpace(ts[i])
    ensures ParseArray(JoinWords(ts)) == ts
  {
    JoinWordsEnds(ts);
    TrimOfTrimmed(JoinWords(ts));
    if ts != [] {
      WordsOfJoin(ts);
    }
  }

  /** `name.match(/^kube-prod\d+$/)`. */
  predicate IsKubeProd(name: string) {
    |name| > 9 && name[..9] == "kube-prod" && AllDigits(name[9..])
  }

  /** `githubRepository.split('/')`: the text before the first '/' and the text between it and the next '/'. */
  function ParseRepository(full: string): Repository {
    var i := IndexOf(full, '/');
    var rest := if i < |full| then full[i + 1..] else "";
    Repository(full[..i], rest[..IndexOf(rest, '/')])
  }

  /** An "owner/name" identifier is split back into its owner and name. */
  lemma ParseRepositoryOf(owner: string, name: string)
    requires forall j :: 0 <= j < |owner| ==> owner[j] != '/'
    requires forall j :: 0 <= j < |name| ==> name[j] != '/'
    ensures ParseRepository(owner + "/" + name) == Repository(owner, name)
  {
    var full := owner + "/" + name;
    assert full == owner + ("/" + name);
    IndexOfAfter(owner, "/" + name, '/');
    assert full[..|owner|] == owner;
    assert full[|owner| + 1..] == name;
    IndexOfAfter(name, [], '/');
    assert name + [] == name;
  }

  /** The value of `core.getInput(name)`: an input that was not given reads as empty. */
  function Input(inputs: map<string, string>, name: string): string {
    Lookup(inputs, name)
  }

  /** `core.getState('deploymentId')` followed by `parseInt` when it is non-empty. */
  function StoredDeploymentId(state: map<string, string>): Option<nat> {
    var s := Lookup(state, DEPLOYMENT_ID);
    if s != "" then ParseDecimal(s) else None
  }

  /** A non-zero deployment id that one phase saved is the id the next phase reads. */
  lemma DeploymentIdPersists(m: map<string, string>, stage: string, id: Option<nat>)
    requires HasDeploymentId(id)
    ensures StoredDeploymentId(SavedState(m, stage, id)) == id
  {
    SavedStateWrites(m, stage, id);
    ParseDecimalOfNatToString(id.value);
  }

  const MISSING_REPOSITORY := "Unexpectedly missing Github context GITHUB_REPOSITORY!"
  const MISSING_RUN_ID := "Unexpectedly missing Github context GITHUB_RUN_ID!"
  const MISSING_REF := "No 'ref' input provided and GITHUB_REF not available in the environment!"

  /** Whether an environment counts as production: the explicit flag, the name "production", or a `kube-prod<digits>` name. */
  predicate IsProductionEnvironment(isProductionInput: string, name: string) {
    ToBoolean(isProductionInput) || name == "production" || IsKubeProd(name)
  }

  /** `getContext()`: the context built from the inputs, the environment and the state store, or the error it throws. */
  function GetContext(inputs: map<string, string>, env: map<string, string>, state: map<string, string>): Result<ContextRecord, Error> {
    var stage := ExecutionStage(state);
    var githubRepository := Lookup(env, "GITHUB_REPOSITORY");
    var githubRunId := Lookup(env, "GITHUB_RUN_ID");
    if githubRepository == "" then Failure(Thrown(MISSING_REPOSITORY))
    else if githubRunId == "" then Failure(Thrown(MISSING_RUN_ID))
    else
      var ref := if Input(inputs, "ref") != "" then Input(inputs, "ref") else Lookup(env, "GITHUB_REF");
      if ref == "" then Failure(Thrown(MISSING_REF))
      else
        var version := Input(inputs, "version");
        var environmentName := Input(inputs, "environment_name");
        var isProduction := IsProductionEnvironment(Input(inputs, "is_production"), environmentName);
        var environmentUrl := Input(inputs, "environment_url");
        var environment := Environment(environmentName, isProduction, !isProduction,
                                       if environmentUrl != "" then Some(environmentUrl) else None);
        Success(ContextRecord(
          executionStage := stage,
          token := Input(inputs, "token"),
          jobStatus := Input(inputs, "job_status"),
          logUrl := CreateLogUrl(githubRepository, githubRunId),
          environment := environment,
          repo := ParseRepository(githubRepository),
          ref := ref,
          version := if version != "" then Some(version) else None,
          requiredContexts := ParseArray(Input(inputs, "required_contexts")),
          deploymentId := StoredDeploymentId(state),
          skipPreAction := false))
  }

  /** `getContext` fails first on a missing repository, then on a missing run id, then on a missing ref, and only then. */
  lemma GetContextFailures(inputs: map<string, string>, env: map<string, string>, state: map<string, string>)
    ensures Lookup(env, "GITHUB_REPOSITORY") == "" ==>
      GetContext(inputs, env, state) == Failure(Thrown(MISSING_REPOSITORY))
    ensures Lookup(env, "GITHUB_REPOSITORY") != "" && Lookup(env, "GITHUB_RUN_ID") == "" ==>
      GetContext(inputs, env, state) == Failure(Thrown(MISSING_RUN_ID))
    ensures Lookup(env, "GITHUB_REPOSITORY") != "" && Lookup(env, "GITHUB_RUN_ID") != ""
            && Input(inputs, "ref") == "" && Lookup(env, "GITHUB_REF") == "" ==>
      GetContext(inputs, env, state) == Failure(Thrown(MISSING_REF))
    ensures GetContext(inputs, env, state).Success? <==>
      Lookup(env, "GITHUB_REPOSITORY") != "" && Lookup(env, "GITHUB_RUN_ID") != ""
      && (Input(inputs, "ref") != "" || Lookup(env, "GITHUB_REF") != "")
  {
  }

  /** What a successfully built context holds. */
  lemma GetContextFields(inputs: map<string, string>, env: map<string, string>, state: map<string, string>)
    requires GetContext(inputs, env, state).Success?
    ensures var c := GetContext(inputs, env, state).value;
      && c.executionStage == ExecutionStage(state)
      && c.ref == (if Input(inputs, "ref") != "" then Input(inputs, "ref") else Lookup(env, "GITHUB_REF"))
      && c.ref != ""
      && c.repo == ParseRepository(Lookup(env, "GITHUB_REPOSITORY"))
      && c.logUrl == CreateLogUrl(Lookup(env, "GITHUB_REPOSITORY"), Lookup(env, "GITHUB_RUN_ID"))
      && c.token == Input(inputs, "token")
      && c.jobStatus == Input(inputs, "job_status")
      && c.requiredContexts == ParseArray(Input(inputs, "required_contexts"))
      && c.environment.name == Input(inputs, "environment_name")
      && (c.environment.url.Some? <==> Input(inputs, "environment_url") != "")
      && (c.environment.url.Some? ==> c.environment.url.value == Input(inputs, "environment_url"))
      && (c.version.Some? <==> Input(inputs, "version") != "")
      && (c.version.Some? ==> c.version.value == Input(inputs, "version"))
      && c.deploymentId == StoredDeploymentId(state)
      && !c.skipPreAction
  {
  }

  /** The production classification of a built context, and its transient flag as the negation. */
  lemma GetContextProduction(inputs: map<string, string>, env: map<string, string>, state: map<string, string>)
    requires GetContext(inputs, env, state).Success?
    ensures var e := GetContext(inputs, env, state).value.environment;
      && (e.isProduction <==>
            ToBoolean(Input(inputs, "is_production")) || e.name == "production" || IsKubeProd(e.name))
      && e.isTransient == !e.isProduction
  {
  }

  /** A phase that reads the state saved after a deployment was created sees that deployment's id. */
  lemma NextPhaseReadsDeploymentId(inputs: map<string, string>, env: map<string, string>,
                                   m: map<string, string>, stage: string, id: Option<nat>)
    requires HasDeploymentId(id)
    requires GetContext(inputs, env, SavedState(m, stage, id)).Success?
    ensures GetContext(inputs, env, SavedState(m, stage, id)).value.deploymentId == id
  {
    DeploymentIdPersists(m, stage, id);
  }

  /** The log URL of the run recorded in the tests. */
  lemma LogUrlExample()
    ensures CreateLogUrl("owner/name", "1234") == "https://github.com/owner/name/actions/runs/1234"
  {
  }

  /** Where the trailing run of decimal digits of `s` starts. */
  function DigitsStart(s: string): (k: nat)
    ensures k <= |s|
    ensures AllDigits(s[k..])
    ensures 0 < k ==> !IsDigit(s[k - 1])
  {
    if s != [] && IsDigit(s[|s| - 1]) then
      var k := DigitsStart(s[..|s| - 1]);
      assert s[..|s| - 1][k..] + [s[|s| - 1]] == s[k..];
      k
    else
      |s|
  }

  lemma DigitsStartAfter(x: string, d: string)
    requires x != [] && !IsDigit(x[|x| - 1])
    requires AllDigits(d)
    ensures DigitsStart(x + d) == |x|
  {
    var u := x + d;
    assert forall j :: 0 <= j < |d| ==> u[|x| + j] == d[j];
    assert u[|x| - 1] == x[|x| - 1];
    assert forall j :: |x| <= j < |u| ==> IsDigit(u[j]);
  }

  /** Different runs, identified by decimal run ids, have different log URLs. */
  lemma LogUrlDeterminesRun(r1: string, id1: string, r2: string, id2: string)
    requires AllDigits(id1) && AllDigits(id2)
    requires CreateLogUrl(r1, id1) == CreateLogUrl(r2, id2)
    ensures r1 == r2 && id1 == id2
  {
    var u := CreateLogUrl(r1, id1);
    var sep := "/actions/runs/";
    var p1 := "https://github.com/" + r1;
    var p2 := "https://github.com/" + r2;
    assert u == (p1 + sep) + id1;
    assert u == (p2 + sep) + id2;
    DigitsStartAfter(p1 + sep, id1);
    DigitsStartAfter(p2 + sep, id2);
    assert id1 == u[|p1 + sep|..] == id2;
    assert p1 + sep == u[..|u| - |id1|] == p2 + sep;
    assert p1 == (p1 + sep)[..|p1|];
    assert p2 == (p2 + sep)[..|p2|];
    assert r1 == p1[19..] && r2 == p2[19..];
  }
}
