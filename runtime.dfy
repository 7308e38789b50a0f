/**
 * What a phase process sees of the outside world: the key/value state store
 * that `core.saveState` writes (and that later phases read back as `STATE_*`
 * environment variables), and the deployments API, seen as the log of the
 * requests sent to it and a script of the answers it gives, in order.
 */
module Runtime {
  import opened Results

  /** A thrown JavaScript error: its constructor name and its message. */
  datatype Error = Error(name: string, message: string)

  /** An error raised with `new Error(message)`. */
  function Thrown(message: string): Error {
    Error("Error", message)
  }

  /** `${error}`, i.e. `Error.prototype.toString`. */
  function Describe(e: Error): string {
    if e.message == "" then e.name
    else if e.name == "" then e.message
    else e.name + ": " + e.message
  }

  /** `githubPreviews` (src/deployment.ts): the API previews every request asks for. */
  const PREVIEWS: seq<string> := ["flash", "ant-man"]

  /** The body of a request to the deployments API. */
  datatype Request =
    | CreateDeploymentRequest(
        owner: string, repo: string, ref: string, environment: string,
        transientEnvironment: bool, productionEnvironment: bool,
        requiredContexts: seq<string>, autoMerge: bool,
        payloadVersion: Option<string>, previews: seq<string>)
    | DeploymentStatusRequest(
        owner: string, repo: string, deploymentId: nat, state: string,
        logUrl: Option<string>, environmentUrl: Option<string>, previews: seq<string>)

  /** The API's answer to one request: the id of the created deployment (ignored for a status), or the error thrown. */
  type Reply = Result<nat, Error>

  /** The answer at the head of a script; a script that has run out answers with an error. */
  function Answer(replies: seq<Reply>): Reply {
    if replies == [] then Failure(Error("HttpError", "no response")) else replies[0]
  }

  function Later(replies: seq<Reply>): seq<Reply> {
    if replies == [] then [] else replies[1..]
  }

  /** The observable world of a phase process. */
  datatype World = World(state: map<string, string>, sent: seq<Request>, replies: seq<Reply>)

  /** Sending `req`: it is logged, and the next scripted answer is consumed. */
  function Send(w: World, req: Request): (Reply, World) {
    (Answer(w.replies), w.(sent := w.sent + [req], replies := Later(w.replies)))
  }

  /** `core.saveState(key, value)`. */
  function SaveState(w: World, key: string, value: string): World {
    w.(state := w.state[key := value])
  }

  /** The world as a mutable object, shared by everything a phase handler calls. */
  class Runner {
    var state: map<string, string>
    var sent: seq<Request>
    var replies: seq<Reply>

    constructor (w: World)
      ensures View() == w
    {
      state, sent, replies := w.state, w.sent, w.replies;
    }

    function View(): World
      reads this
    {
      World(state, sent, replies)
    }

    /** One remote call. */
    method Call(req: Request) returns (reply: Reply)
      modifies this
      ensures (reply, View()) == Send(old(View()), req)
    {
      reply := Answer(replies);
      sent := sent + [req];
      replies := Later(replies);
    }

    /** One write to the state store. */
    method Save(key: string, value: string)
      modifies this
      ensures View() == SaveState(old(View()), key, value)
    {
      state := state[key := value];
    }
  }
}
