/** The records of the controller, and the few constants they share. */
module Types {
  import opened Timestamps

  datatype Option<+T> = None | Some(value: T)

  datatype StoreError =
    | NotFound
    | KeyTaken
    | AlreadyFinished
    | NotRetryable
    | KeyRequired
    | TokenSpent
    | ServerExists
    | Rejected

  datatype Result<+T> = Ok(value: T) | Err(error: StoreError)

  const LOCAL := "local"
  const AGENT_UPDATE := "agent.update"

  datatype Status = Pending | Running | Success | Failed | Canceled {
    /** The statuses that a batch counts as completed. */
    predicate Terminal() {
      Success? || Failed? || Canceled?
    }
  }

  /** A decoded JSON value as an action sees it. */
  datatype Value = Text(text: string) | Number(number: real) | Switch(on: bool) | Other

  type Args = map<string, Value>

  /** The Go idiom `value, _ := args[key].(string)`. */
  function TextOf(args: Args, key: string): string {
    if key in args && args[key].Text? then args[key].text else ""
  }

  datatype Task = Task(
    id: string,
    serverID: string,
    action: string,
    args: Args,
    status: Status,
    output: string,
    error: string,
    created: Instant,
    started: Option<Instant>,
    finished: Option<Instant>,
    key: string,
    batchID: string,
    digest: string,
    cancelRequested: bool,
    attempt: int,
    retryOf: string)

  type Tasks = map<string, Task>

  datatype Server = Server(
    id: string,
    online: bool,
    agentVersion: string,
    agentFeatures: seq<string>,
    digest: string,
    lastSeen: Instant)

  datatype EnrollmentToken = EnrollmentToken(expires: Instant, used: bool)
}
