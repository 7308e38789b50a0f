# create-deployment-action, modelled in Dafny

A GitHub Action that tracks a job as a GitHub Deployment. It runs as three
separate processes, pre, main and post. Each process rebuilds its `Context`
from three sources:

- the action's inputs;
- the environment;
- the key/value state store that earlier processes wrote with `core.saveState`.

The processes then drive one deployment through its statuses: created, then
`pending` (with the run's log URL), then `in_progress`, then the job's final
state.

This project models that core and proves properties of it:

- the stage resolver and the state it persists (`executionStage`,
  `saveExecutionState`);
- the context builder (`getContext`, `toBoolean`, `parseArray`, `createLogUrl`);
- the deployment client (`createDeployment`, `setDeploymentLogUrl`,
  `setDeploymentInProgress`, `setDeploymentEnded`);
- the phase handlers `runPre`, `runMain` and `runPost`, and the older
  standalone entry points of `src/pre.ts` and `src/post.ts`.

How the outside world is modelled (`runtime.dfy`):

- A `Runner` object holds the state store (`map<string, string>`) and the
  log of requests sent to the deployments API.
- It also holds a script of the API's answers, consumed one per request. A
  script that has run out answers with an error.
- Inputs and environment variables are maps. A missing key reads as the
  empty string.
- Thrown errors are values `Error(name, message)`. The handlers of
  `src/main.ts` report them as `${error}`. The standalone entry points
  report `error.message`.

Every operation that changes state is a `method` that takes the `Context`
and `Runner` objects. Each method is specified by a pure step function of the old
record and world, for example
`Step(ctx.Record(), host.View(), outcome) == CreateDeploymentStep(old(ctx.Record()), old(host.View()))`.
The properties of the action are lemmas about those step functions.

Files and modules:

| file | module | models |
|---|---|---|
| `results.dfy` | `Results` | `Option`, `Result` and `Outcome` |
| `text.dfy` | `Text` | JavaScript's `trim`, `split(/\s+/)`, case folding and decimal numbers |
| `runtime.dfy` | `Runtime` | the state store, the API, and errors |
| `context.dfy` | `ActionContext` | `src/context.ts` |
| `deployment.dfy` | `Deployment` | `src/deployment.ts` |
| `phases.dfy` | `Phases` | `src/main.ts` |
| `legacy_pre.dfy` | `LegacyPre` | `src/pre.ts` |
| `legacy_post.dfy` | `LegacyPost` | `src/post.ts` |

Points where the model follows the code as written:

- The tests import `getRef` and `getVersion`, with pull-request head-ref and
  event-file fallbacks. Neither function exists in `src/context.ts`. In the
  code, `ref` is the `ref` input or else `GITHUB_REF`, and `version` is the
  `version` input only.
- The only production name pattern is `kube-prod` followed by digits.
- `src/main.ts` reads `context.skipPreAction`, but `Context` has no such
  field and `getContext` never sets it. The model keeps the field:
  - `GetContext` always leaves it false;
  - the stage methods (`PreStage`, `MainStage`) take any context, so the
    skip branches are modelled and proved as written.

## Model

| member | source | states |
|---|---|---|
| ActionContext.ExecutionStage | src/context.ts:14-25 | The stage is always one of pre, main and post. It is `pre` exactly when neither flag is set, `main` exactly when only `preHasRun` is set, and `post` exactly when `mainHasRun` is set, whatever `preHasRun` says. The final `throw` is unreachable. |
| ActionContext.SavedStateWrites | src/context.ts:27-37 | Saving adds exactly the keys its stage and id call for and keeps every other key. `preHasRun` is written for any of the three stages, `mainHasRun` for main and post, and `deploymentId` (as its decimal string) exactly when the id is present and non-zero. |
| ActionContext.SavedStateIdempotent | src/context.ts:27-37 | Saving the same context twice leaves the same store as saving it once. |
| ActionContext.StageAfterSave | src/context.ts:14-37 | After a phase saves its own stage, the next process resolves the following stage: pre, then main, then post, then post. |
| ActionContext.StageNeverRegresses | src/context.ts:14-37 | No save moves the resolved stage backwards. |
| ActionContext.SaveExecutionState | src/context.ts:27-37 | The store becomes the saved state of the context's stage and id. Nothing else in the world changes. |
| ActionContext.Context.constructor | src/context.ts:60-71 | A context object holds exactly the fields of the record it is built from. |
| ActionContext.ToBooleanMeaning | src/context.ts:73-76 | `toBoolean(v)` holds exactly when `trim(v)` equals one of `true`, `1`, `on`, `yes`, ignoring case. |
| ActionContext.ToBooleanAcceptsPadded | src/context.ts:73-76 | Surrounding whitespace and upper case are accepted, e.g. `" TRUE\n"`. |
| ActionContext.ToBooleanRejects | src/context.ts:73-76 | `false`, `t rue` and the empty string are not true. |
| ActionContext.LowerMatches | src/context.ts:74 | Lower-casing a string yields a lower-case word exactly when the two are equal ignoring case. |
| ActionContext.ParseArrayBlank | src/context.ts:78-81 | `parseArray(v)` is empty exactly when `v` is blank or whitespace only. |
| ActionContext.ParseArrayContents | src/context.ts:78-83 | Every entry is non-empty and free of whitespace. Together, in order, the entries hold exactly the non-whitespace characters of `v`. |
| ActionContext.ParseArrayIsWords | src/context.ts:78-83 | The blank guard and the trim change nothing: `parseArray(v)` is the split of the whole of `v` at whitespace. |
| ActionContext.ParseArraySplit | src/context.ts:78-83 | Entries never span whitespace: a value cut where whitespace begins parses as its first part's entries followed by its second part's. With `ParseArrayOfWord`, every entry is a maximal whitespace-free run. |
| ActionContext.ParseArrayOfWord | src/context.ts:78-83 | A non-empty, whitespace-free value is a single entry. |
| ActionContext.ParseArrayOfJoin | src/context.ts:78-83 | A list of non-empty, whitespace-free contexts written space-separated is read back as the same list. |
| ActionContext.ParseRepositoryOf | src/context.ts:105-109 | Splitting `owner/name` gives back that owner and that name. |
| ActionContext.DeploymentIdPersists | src/context.ts:34-36 | A non-zero deployment id that one phase saved is the id the next phase reads back (`JSON.stringify`, then `parseInt`). Ids are unbounded naturals in the model; see `ActionContext.SavedState` under "## Left out". |
| ActionContext.NextPhaseReadsDeploymentId | src/context.ts:114 | The context built from a store holding a saved id carries that id. |
| ActionContext.GetContextFailures | src/context.ts:88-103 | The context builder fails in a fixed order: first on an empty `GITHUB_REPOSITORY`, then on an empty `GITHUB_RUN_ID`, then when both the `ref` input and `GITHUB_REF` are empty, each with its own message. It succeeds exactly when none of these holds. |
| ActionContext.GetContextFields | src/context.ts:85-150 | Every field of a built context is stated. `ref` is the input if that is non-empty and `GITHUB_REF` otherwise. `url` and `version` are set exactly when their input is non-empty. The deployment id is the stored one. The skip flag is false. |
| ActionContext.GetContextProduction | src/context.ts:117-127 | `isProduction` holds exactly when `is_production` is true, the name is `production`, or the name is `kube-prod` followed by digits. `isTransient` is always its negation. |
| ActionContext.LogUrlExample | src/context.ts:7-12 | `createLogUrl("owner/name", "1234")` is `https://github.com/owner/name/actions/runs/1234`. |
| ActionContext.LogUrlDeterminesRun | src/context.ts:7-12 | Two runs with decimal run ids have the same log URL only if they are the same run of the same repository. |
| ActionContext.CreateLogUrl | src/context.ts:7-12 | No contract of its own; specified by `LogUrlExample` and `LogUrlDeterminesRun`. |
| ActionContext.SavedState | src/context.ts:27-37 | No contract of its own; the store `saveExecutionState` leaves, specified by `SavedStateWrites`, `SavedStateIdempotent`, `StageAfterSave`, `StageNeverRegresses` and `DeploymentIdPersists`. |
| ActionContext.ToBoolean | src/context.ts:73-76 | No contract of its own; specified by `ToBooleanMeaning`, `ToBooleanAcceptsPadded` and `ToBooleanRejects`. |
| ActionContext.ParseArray | src/context.ts:78-83 | No contract of its own; specified by `ParseArrayBlank`, `ParseArrayContents`, `ParseArrayIsWords`, `ParseArraySplit`, `ParseArrayOfWord` and `ParseArrayOfJoin`. |
| ActionContext.ParseRepository | src/context.ts:105-109 | No contract of its own; specified by `ParseRepositoryOf`. |
| ActionContext.StoredDeploymentId | src/context.ts:114-147 | No contract of its own; the id read back from the store (`parseInt` of a non-empty value), specified by `DeploymentIdPersists` and `NextPhaseReadsDeploymentId`. |
| ActionContext.IsKubeProd | src/context.ts:121 | No contract of its own; the `kube-prod` followed by one or more digits test, used by `GetContextProduction`. |
| ActionContext.IsProductionEnvironment | src/context.ts:118-121 | No contract of its own; the three-way production test, specified by `GetContextProduction`. |
| ActionContext.GetContext | src/context.ts:85-150 | No contract of its own; specified by `GetContextFailures`, `GetContextFields`, `GetContextProduction` and `NextPhaseReadsDeploymentId`. |
| Deployment.CreateRequestFields | src/deployment.ts:14-41 | The create request carries the context's owner, name, ref, environment name, transient and production flags and required contexts, `auto_merge = false`, and both previews (`flash`, `ant-man`). `payload.version` is present exactly when the context has a non-empty version. |
| Deployment.EndedState | src/deployment.ts:93-98 | The posted state is the job status when that is `success`, `failure` or `inactive`, and `error` otherwise. |
| Deployment.StatusNeedsDeploymentId | src/deployment.ts:49-53 | Without a non-zero id, each of the three status calls throws before sending any request and changes nothing. |
| Deployment.StatusPostsOnce | src/deployment.ts:67-115 | `in_progress` sends exactly one status for the context's id and writes nothing to the store. The ended status is exactly one request for that id with the coerced state and no log URL; it has an environment URL exactly when the context's URL is non-empty; neither the context nor the store changes. |
| Deployment.CreateDeploymentRejected | src/deployment.ts:28-41 | A rejected create throws its error after the one request; the context and the store are unchanged. |
| Deployment.CreateDeploymentOrder | src/deployment.ts:28-45 | After a successful create, the id is set, the state is saved with it, and then the `pending` status carrying the log URL is sent, in that order. |
| Deployment.CreateDeploymentZeroId | src/deployment.ts:42-53 | A create answered with id 0 saves the stage without an id, then throws before `pending`, because 0 is falsy. |
| Deployment.CreateDeploymentInPreStage | src/deployment.ts:42-44 | Creating from the pre stage adds exactly `preHasRun = "true"` and the new id to the store and keeps every other key. |
| Deployment.CreateDeployment | src/deployment.ts:14-45 | The context and world become those of the create step. |
| Deployment.SetDeploymentLogUrl | src/deployment.ts:47-65 | The world becomes that of the `pending` status step. |
| Deployment.SetDeploymentInProgress | src/deployment.ts:67-84 | The world becomes that of the `in_progress` status step. |
| Deployment.SetDeploymentEnded | src/deployment.ts:86-115 | The world becomes that of the ended status step. |
| Deployment.CreateRequest | src/deployment.ts:14-41 | No contract of its own; specified by `CreateRequestFields`. |
| Deployment.PayloadVersion | src/deployment.ts:17-21 | No contract of its own; the version payload, present only for a non-empty version, specified by `CreateRequestFields`. |
| Deployment.EnvironmentUrl | src/deployment.ts:99-102 | No contract of its own; the environment URL sent only when non-empty, specified by `StatusPostsOnce`. |
| Deployment.PostStatus | src/deployment.ts:47-115 | No contract of its own; the guard and single request shared by the three status updates, specified by `StatusNeedsDeploymentId` and `StatusPostsOnce`. |
| Deployment.SetDeploymentLogUrlStep | src/deployment.ts:47-65 | No contract of its own; specified by `StatusNeedsDeploymentId` and, after a create, `CreateDeploymentOrder`. |
| Deployment.SetDeploymentInProgressStep | src/deployment.ts:67-84 | No contract of its own; specified by `StatusNeedsDeploymentId` and `StatusPostsOnce`. |
| Deployment.SetDeploymentEndedStep | src/deployment.ts:86-115 | No contract of its own; specified by `StatusNeedsDeploymentId`, `StatusPostsOnce` and `EndedState`. |
| Deployment.CreateDeploymentStep | src/deployment.ts:14-45 | No contract of its own; specified by `CreateDeploymentRejected`, `CreateDeploymentOrder`, `CreateDeploymentZeroId` and `CreateDeploymentInPreStage`. |
| Phases.PreRefusesOtherStages | src/main.ts:14-19 | Outside the pre stage, `runPre` fails naming the stage, with no request and no state write. |
| Phases.PreSkippedOnlySaves | src/main.ts:21-28 | With the skip flag, the pre stage only saves state. |
| Phases.PreCreatesDeployment | src/main.ts:21-28 | Without the skip flag, the pre stage sends the create and `pending` requests. The store then holds the pre flag and the new id, as after a single save. |
| Phases.PreFailureSkipsSave | src/main.ts:26-28 | When creation fails, the pre stage's trailing save is not reached. |
| Phases.MainRequiresMainStage | src/main.ts:50-54 | Without the skip flag, `runMain` fails unless the stage is main, and changes nothing. |
| Phases.MainSkippedRequiresPreOrMain | src/main.ts:40-45 | With the skip flag, `runMain` fails unless the stage is pre or main, and changes nothing. |
| Phases.MainMarksInProgress | src/main.ts:50-57 | Without the skip flag, `runMain` sends `in_progress`, then saves the main stage. It saves nothing when that call fails. |
| Phases.MainSkippedCreatesDeployment | src/main.ts:40-57 | With the skip flag, the stage is forced to main before creation. `preHasRun`, `mainHasRun` and the id are then saved before `in_progress` is sent, whether or not that call succeeds. |
| Phases.PostWithoutDeploymentId | src/main.ts:68-73 | Without a deployment id, `runPost` returns unfailed, sending and saving nothing. |
| Phases.PostEndsDeployment | src/main.ts:74-83 | `runPost` ends the deployment with the coerced job status in the post stage. In any other stage it posts `inactive`, whatever the job status. The state is saved only after the status was accepted. |
| Phases.HandlersReportContextErrors | src/main.ts:9-88 | A context that cannot be built makes every handler fail with `${error}` and change nothing. |
| Phases.RunPreReportsCreateError | src/main.ts:21-32 | A rejected create makes `runPre` fail with `${error}`. Only the create request was sent and nothing was saved. |
| Phases.ReportShowsError | src/main.ts:29-32 | A thrown `Error` is reported as `Error: <message>`. |
| Phases.RunPreFresh | src/main.ts:9-33 | In the pre stage with the create and `pending` accepted, `runPre` sends those two requests. It leaves a store from which the next process resolves the main stage and reads the new id. |
| Phases.RunMainAfterPre | src/main.ts:35-62 | In the main stage with a stored id and `in_progress` accepted, `runMain` sends that one status. It leaves a store from which the next process resolves the post stage and reads the same id. |
| Phases.RunPostAfterMain | src/main.ts:64-88 | In the post stage with a stored id and the ended status accepted, `runPost` sends that one status with the coerced job status and saves; the stage stays post and the id stays stored. |
| Phases.PreMainPost | src/main.ts:9-88 | A job of pre, then main, then post on a fresh store, with every remote call accepted, passes in all three phases. It sends, in order, the create request, `pending` with the log URL, `in_progress` and the job's coerced final state, all for the one new deployment id, and ends in the post stage with that id stored. |
| Phases.PreStageStep | src/main.ts:14-28 | No contract of its own; specified by `PreRefusesOtherStages`, `PreSkippedOnlySaves`, `PreCreatesDeployment` and `PreFailureSkipsSave`. |
| Phases.MainStageStep | src/main.ts:40-57 | No contract of its own; specified by `MainRequiresMainStage`, `MainSkippedRequiresPreOrMain`, `MainMarksInProgress` and `MainSkippedCreatesDeployment`. |
| Phases.PostStageStep | src/main.ts:68-83 | No contract of its own; specified by `PostWithoutDeploymentId` and `PostEndsDeployment`. |
| Phases.Report | src/main.ts:29-31 | No contract of its own; the catch-all's `${error}` report, specified by `ReportShowsError`. |
| Phases.RunPreStep | src/main.ts:9-33 | No contract of its own; specified by `HandlersReportContextErrors`, `RunPreReportsCreateError`, `RunPreFresh` and `PreMainPost`. |
| Phases.RunMainStep | src/main.ts:35-62 | No contract of its own; specified by `HandlersReportContextErrors`, `RunMainAfterPre` and `PreMainPost`. |
| Phases.RunPostStep | src/main.ts:64-88 | No contract of its own; specified by `HandlersReportContextErrors`, `RunPostAfterMain` and `PreMainPost`. |
| Phases.PreStage | src/main.ts:14-28 | The context and world become those of the pre stage step. |
| Phases.MainStage | src/main.ts:40-57 | The context and world become those of the main stage step. |
| Phases.PostStage | src/main.ts:68-83 | The context and world become those of the post stage step. |
| Phases.RunPre | src/main.ts:9-33 | The world and the reported outcome are those of the whole pre handler. |
| Phases.RunMain | src/main.ts:35-62 | The world and the reported outcome are those of the whole main handler. |
| Phases.RunPost | src/main.ts:64-88 | The world and the reported outcome are those of the whole post handler. |
| LegacyPre.LegacyPreRefusesOtherStages | src/pre.ts:8-13 | Outside the pre stage, the phase fails naming the stage. No deployment is created and nothing is saved. |
| LegacyPre.LegacyPreCreatesDeployment | src/pre.ts:14-15 | In the pre stage the deployment is created whatever the skip flag says. The trailing save repeats the one inside creation, leaving the pre flag and the id as after a single save. |
| LegacyPre.LegacyPreReportsCreateError | src/pre.ts:14-18 | A rejected create fails the phase with the error's message. Only the create request was sent and nothing was saved. |
| LegacyPre.LegacyPreAgreesWithRunPre | src/pre.ts:8-15 | Without the skip flag, the standalone pre phase does what the pre stage of `runPre` does. |
| LegacyPre.LegacyReportDropsName | src/pre.ts:16-18 | A thrown error is reported by its bare message, unlike `runPre`'s `Error: <message>`. |
| LegacyPre.LegacyPreStageStep | src/pre.ts:8-15 | No contract of its own; specified by `LegacyPreCreatesDeployment` and `LegacyPreAgreesWithRunPre`. |
| LegacyPre.ReportMessage | src/pre.ts:16-18 | No contract of its own; the catch-all's `error.message` report, specified by `LegacyReportDropsName`. |
| LegacyPre.RunLegacyPreStep | src/pre.ts:5-19 | No contract of its own; specified by `LegacyPreRefusesOtherStages` and `LegacyPreReportsCreateError`. |
| LegacyPre.LegacyPreStage | src/pre.ts:8-15 | The context and world become those of the standalone pre step. |
| LegacyPre.RunLegacyPre | src/pre.ts:5-19 | The world and the reported outcome are those of the standalone pre phase. |
| LegacyPost.LegacyPostEndsDeployment | src/post.ts:8-14 | With an id, exactly one status is sent: the coerced job status in the post stage, and `error` otherwise. The state is saved only after that status was accepted. |
| LegacyPost.LegacyPostWithoutDeploymentId | src/post.ts:13-17 | There is no id guard: with no id the ended status throws, so the phase fails and nothing is sent or saved. |
| LegacyPost.LegacyPostStageStep | src/post.ts:8-14 | No contract of its own; specified by `LegacyPostEndsDeployment` and `LegacyPostWithoutDeploymentId`. |
| LegacyPost.RunLegacyPostStep | src/post.ts:5-18 | No contract of its own; the whole standalone post phase, built from `GetContext` and `LegacyPostStageStep` and specified through the lemmas about them. |
| LegacyPost.LegacyPostStage | src/post.ts:8-14 | The context and world become those of the standalone post step. |
| LegacyPost.RunLegacyPost | src/post.ts:5-18 | The world and the reported outcome are those of the standalone post phase. |
| Runtime.Runner.Call | src/deployment.ts:28-41 | One remote call logs its request and consumes the next scripted answer. |
| Runtime.Runner.Save | src/context.ts:29 | One `core.saveState` writes one key. |
| Runtime.Send | src/deployment.ts:28-41 | No contract of its own; one remote call: the request is logged and the next scripted answer is consumed; `Runtime.Runner.Call` is proved to do exactly this. |
| Runtime.Describe | src/main.ts:29-31 | No contract of its own; `${error}` of a thrown error, specified by `Phases.ReportShowsError`. |
| Text.Trim | src/context.ts:75 | The result is no longer than the input, starts and ends with a non-whitespace character, and is empty exactly when the input is all whitespace. |
| Text.TrimKeepsContent | src/context.ts:79-82 | Trimming keeps every non-whitespace character. |
| Text.TrimOfTrimmed | src/context.ts:79-82 | A string with no surrounding whitespace trims to itself. |
| Text.TrimAround | src/context.ts:75 | Trimming a word surrounded by whitespace gives back exactly that word. Together with `Trim`'s own contract and `TrimKeepsContent`, this fixes what `trim` removes. |
| Text.Words | src/context.ts:82 | Every token of `split(/\s+/)` on a trimmed string is non-empty and free of whitespace. |
| Text.WordsContents | src/context.ts:82 | The tokens, in order, hold exactly the string's non-whitespace characters. |
| Text.WordsSplit | src/context.ts:82 | Tokens never span whitespace: the tokens of `a + b`, with `b` empty or starting with whitespace, are those of `a` followed by those of `b`. |
| Text.WordsOfWord | src/context.ts:82 | A non-empty whitespace-free string is one token. |
| Text.WordsOfTrim | src/context.ts:82 | Trimming first does not change the tokens. |
| Text.WordsOfJoin | src/context.ts:82 | Splitting the space-separated join of whitespace-free tokens gives the tokens back. |
| Text.NatToString | src/context.ts:35 | The decimal string of an id (`JSON.stringify`) is non-empty and all digits; with `ParseDecimal` it round-trips by `ParseDecimalOfNatToString`. |
| Text.ParseDecimal | src/context.ts:145-147 | No contract of its own; `parseInt` of a plain decimal string, with `None` for `NaN`; specified by `ParseDecimalOfNatToString` and `DeploymentIdPersists`. |
| Text.ParseDecimalOfNatToString | src/context.ts:35 | Parsing the decimal string of any natural number gives that number back. |

## Left out

- The `@actions/core` primitives (`getInput`, `getState`, `saveState`, `setFailed`, logging) are not modelled as code. Inputs, environment and state are maps, a failed phase is an `Outcome` value, and logging is dropped.
- ActionContext.GetContext: `{required: true}` on the `token` and `job_status` inputs is not modelled. Both are plain input reads, so a missing one reads as empty instead of throwing.
- Octokit, HTTP and authentication with the token are not modelled. The `mediaType` previews are recorded on each request; only the typing of the response is left out. Each remote call sends a recorded request and takes the next scripted answer. For a create, that answer is the new deployment's id.
- ActionContext.SavedState: deployment ids are modelled as unbounded natural numbers written in plain decimal. In JavaScript an id is a double: `JSON.stringify` writes an id of 1e21 or more in exponent form (`"1e+21"`), which the next phase's `parseInt` reads back as 1, and ids above 2^53 are not exact. The save-then-read round trip of `DeploymentIdPersists` holds in JavaScript only for ids below 1e21.
- ActionContext.StoredDeploymentId: `parseInt` is modelled as strict decimal parsing, and a stored value that is not all digits reads as no id. That matches JavaScript for values that give `NaN`. It does not match `parseInt`'s leniency: leading whitespace (`" 7"` gives 7), a sign (`"+7"` gives 7, `"-7"` gives the truthy id -7), and a digit prefix followed by other text are not modelled. The action itself stores `JSON.stringify` of an id, which is a plain decimal string for ids below 1e21.
- ActionContext.ToBoolean: the case-insensitive match uses ASCII case folding. This is exact for the four accepted words, but does not model Unicode case mapping of other characters.
- ActionContext.ParseRepository: on a repository string without a `/`, the name is the empty string, where JavaScript gives `undefined`.
- `async`/`await` and the module-level `run()` calls of `src/pre.ts` and `src/post.ts` are not modelled. The phases run sequentially, each as one call.
- The `getRef`/`getVersion` helpers, the pull-request head-ref fallback and the event-file read that the tests use are not modelled, because `src/context.ts` does not contain them.
