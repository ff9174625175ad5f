/** The whole system as a machine: HTTP handlers, local workers behind a counting
    semaphore, remote Agents, a lossy network and controller crashes interleave
    over the store, one atomic store operation at a time.

    A schedule is a list of events. An event that the current state does not allow
    changes nothing, so a theorem about `Run` over every schedule is a theorem about
    every interleaving. Replies that get lost, requests that arrive late and results
    that arrive twice are all schedules. */
module Protocol {
  import opened Timestamps
  import opened Types
  import opened TaskSpec
  import opened Patterns
  import Rollout

  datatype Config = Config(concurrency: nat, failureStopPercent: int)

  /** A request in progress at the controller; a crash forgets it. */
  datatype Handler =
    /** A task about to be stored; the key is looked up first unless it is a batch's. */
    | Drafting(draft: Task, lookupFirst: bool)
    /** A retry that has read the target server but not yet the original task. */
    | Retrying(original: string, key: string, digest: string)
    /** A heartbeat whose sender's record has been read, then stored, then confirmed. */
    | Verified(beat: nat, record: Server)
    | Stored(beat: nat)
    /** `found` records which tasks the confirmation found. */
    | Acknowledged(beat: nat, found: set<string>)

  /** One `executeLocal`; every state but the first holds a semaphore permit. */
  datatype Worker =
    | Waiting(id: string)
    | Holding(id: string)
    | Claimed(id: string)
    | Executing(id: string)
    | Reporting(id: string, success: bool, output: string, problem: string)
  {
    /** Between the claim and the final record. */
    predicate Active() {
      Claimed? || Executing? || Reporting?
    }
  }

  datatype Phase =
    | Idle
    | AwaitingAck(beat: nat)
    /** The heartbeat succeeded; only now does the Agent poll. */
    | Ready(beat: nat, found: set<string>)
    | Given(task: Task)
    /** Past the digest check, with the digest that was seen there. */
    | Cleared(task: Task, seen: Option<string>)

  /** `digest` is the digest of the target's state file, if it can be read. */
  datatype Agent = Agent(version: string, digest: Option<string>, phase: Phase)

  /** A heartbeat in flight; `known` records which tasks existed when it was sent. */
  datatype Beat = Beat(serverID: string, version: string, features: seq<string>, digest: string, known: set<string>)

  datatype Report = Report(serverID: string, taskID: string, success: bool, output: string, problem: string)

  /** An Agent starting a task's command. */
  datatype Execution = Execution(serverID: string, task: Task, seen: Option<string>)

  datatype State = State(
    tasks: Tasks,
    servers: map<string, Server>,
    handlers: map<nat, Handler>,
    workers: map<nat, Worker>,
    agents: map<string, Agent>,
    beats: seq<Beat>,
    reports: seq<Report>,
    /** Local tasks whose wake-up someone still owes: a handler that has just inserted
        one, or the resumption after a start. */
    owed: set<string>,
    // history
    claims: map<string, nat>,
    requeues: map<string, nat>,
    runs: map<string, nat>,
    announced: set<(string, string)>,
    executed: seq<Execution>)

  datatype RequestEvent =
    | StartEnqueue(h: nat, serverID: string, action: string, args: Args, key: string)
    | StartBatch(h: nat, batchID: string, serverID: string, action: string, args: Args)
    | StartRetry(h: nat, id: string, key: string)
    | ReadOriginal(h: nat)
    | LookUpKey(h: nat)
    | Insert(h: nat, id: string, now: Instant)
    | Cancel(id: string, now: Instant)

  datatype WorkerEvent =
    | Spawn(w: nat, id: string)
    | Acquire(w: nat)
    | Claim(w: nat, now: Instant)
    | CheckBatch(w: nat)
    | CommandDone(w: nat, success: bool, output: string, problem: string)
    | Finish(w: nat, now: Instant)

  datatype AdminEvent =
    | Crash(now: Instant)
    | Register(serverID: string, version: string, digest: Option<string>, now: Instant)
    | Revoke(serverID: string)

  datatype BeatEvent =
    | SendBeat(serverID: string, features: seq<string>)
    | GiveUp(serverID: string)
    | VerifyBeat(h: nat, beat: nat)
    | StoreBeat(h: nat, now: Instant)
    | ConfirmBeat(h: nat, when: string -> Instant)
    | AckBeat(h: nat)

  datatype TransferEvent =
    | Poll(serverID: string, order: seq<string>, when: string -> Instant, delivered: bool)
    | Deliver(report: nat, now: Instant)

  datatype AgentEvent =
    | CheckDigest(serverID: string)
    | RunCommand(serverID: string, success: bool, after: Option<string>, output: string, problem: string)
    | SelfUpdate(serverID: string, success: bool, output: string, problem: string)
    | RefuseCommand(serverID: string, problem: string)
    | RestartAgent(serverID: string, version: string)
    | LocalEdit(serverID: string, after: Option<string>)

  datatype Event =
    | ByRequest(request: RequestEvent)
    | ByWorker(worker: WorkerEvent)
    | ByAdmin(admin: AdminEvent)
    | ByBeat(heartbeat: BeatEvent)
    | ByTransfer(transfer: TransferEvent)
    | ByAgent(agent: AgentEvent)

  function Count(m: map<string, nat>, id: string): nat {
    if id in m then m[id] else 0
  }

  function Bump(m: map<string, nat>, id: string): map<string, nat> {
    m[id := Count(m, id) + 1]
  }

  function LocalRecord(now: Instant): Server {
    Server(LOCAL, true, "", [], "", now)
  }

  const START := UTC(1970, 1, 1, 0, 0, 0, 0)

  function Initial(): State {
    State(map[], map[LOCAL := LocalRecord(START)], map[], map[], map[], [], [], {}, map[], map[], map[], {}, [])
  }

  // ---------- requests ----------

  function DoStartEnqueue(s: State, h: nat, serverID: string, action: string, args: Args, key: string): State {
    if h in s.handlers || serverID !in s.servers
       || !Rollout.Eligible(s.servers[serverID], serverID, action, args) then s
    else
      var digest := ExpectedDigest(s.servers[serverID], action);
      s.(handlers := s.handlers[h := Drafting(NewTask("", serverID, action, args, key, "", digest, START), true)])
  }

  /** The second read of a server in the rollout loop, which fixes the digest. */
  function DoStartBatch(s: State, h: nat, batchID: string, serverID: string, action: string, args: Args): State {
    if h in s.handlers || serverID !in s.servers then s
    else
      var batch := "batch_" + batchID;
      var digest := ExpectedDigest(s.servers[serverID], action);
      s.(handlers := s.handlers[h := Drafting(NewTask("", serverID, action, args, batch + "_" + serverID, batch,
                                                      digest, START), false)])
  }

  function DoStartRetry(s: State, h: nat, id: string, key: string): State {
    if h in s.handlers || id !in s.tasks || s.tasks[id].serverID !in s.servers || key == "" then s
    else
      var task := s.tasks[id];
      s.(handlers := s.handlers[h := Retrying(id, key, ExpectedDigest(s.servers[task.serverID], task.action))])
  }

  function DoReadOriginal(s: State, h: nat): State {
    if h !in s.handlers || !s.handlers[h].Retrying? then s
    else
      var r := s.handlers[h];
      s.(handlers :=
           if r.original in s.tasks && Retryable(s.tasks[r.original])
           then s.handlers[h := Drafting(RetryOf(s.tasks[r.original], "", r.key, r.digest, START), true)]
           else s.handlers - {h})
  }

  function DoLookUpKey(s: State, h: nat): State {
    if h !in s.handlers || !s.handlers[h].Drafting? then s
    else
      var draft := s.handlers[h].draft;
      s.(handlers :=
           if draft.key != "" && exists id <- s.tasks :: s.tasks[id].key == draft.key
           then s.handlers - {h}
           else s.handlers[h := Drafting(draft, false)])
  }

  /** The generated identifier is fresh; the unique index still decides the race. */
  function DoInsert(s: State, h: nat, id: string, now: Instant): State {
    if h !in s.handlers || !s.handlers[h].Drafting? || s.handlers[h].lookupFirst || id == "" || id in s.tasks then s
    else
      var put := Put(s.tasks, s.handlers[h].draft.(id := id, created := now));
      s.(handlers := s.handlers - {h}, tasks := if put.Ok? then put.value else s.tasks,
         owed := if put.Ok? && s.handlers[h].draft.serverID == LOCAL then s.owed + {id} else s.owed)
  }

  function DoCancel(s: State, id: string, now: Instant): State {
    if id !in s.tasks || CancelOf(s.tasks[id], now).Err? then s
    else s.(tasks := s.tasks[id := CancelOf(s.tasks[id], now).value])
  }

  // ---------- local workers ----------

  /** Every wake-up: enqueue, batch, retry (also one that returned an existing
      task) and the resumption after a start. */
  function DoSpawn(s: State, w: nat, id: string): State {
    if w in s.workers || id !in s.tasks || s.tasks[id].serverID != LOCAL then s
    else s.(workers := s.workers[w := Waiting(id)], owed := s.owed - {id})
  }

  function Permits(workers: map<nat, Worker>): set<nat> {
    set w <- workers | !workers[w].Waiting?
  }

  function DoAcquire(c: Config, s: State, w: nat): State {
    if w !in s.workers || !s.workers[w].Waiting? || |Permits(s.workers)| >= c.concurrency then s
    else s.(workers := s.workers[w := Holding(s.workers[w].id)])
  }

  function DoClaim(s: State, w: nat, now: Instant): State {
    if w !in s.workers || !s.workers[w].Holding? then s
    else
      var id := s.workers[w].id;
      var won := id in s.tasks && s.tasks[id].status.Pending? && !s.tasks[id].cancelRequested;
      s.(workers := if won then s.workers[w := Claimed(id)] else s.workers - {w},
         tasks := if won then s.tasks[id := Started(s.tasks[id], now)] else s.tasks,
         claims := if won then Bump(s.claims, id) else s.claims)
  }

  function DoCheckBatch(c: Config, s: State, w: nat): State {
    if w !in s.workers || !s.workers[w].Claimed? then s
    else
      var id := s.workers[w].id;
      var stop := id in s.tasks && Halted(s.tasks, s.tasks[id].batchID, c.failureStopPercent);
      var next := if stop then Reporting(id, false, "", BATCH_STOPPED) else Executing(id);
      s.(workers := s.workers[w := next], runs := if stop then s.runs else Bump(s.runs, id))
  }

  function DoCommandDone(s: State, w: nat, success: bool, output: string, problem: string): State {
    if w !in s.workers || !s.workers[w].Executing? then s
    else s.(workers := s.workers[w := Reporting(s.workers[w].id, success, output, problem)])
  }

  /** `finishTask`, and with it the release of the permit. */
  function DoFinish(s: State, w: nat, now: Instant): State {
    if w !in s.workers || !s.workers[w].Reporting? then s
    else
      var r := s.workers[w];
      s.(workers := s.workers - {w},
         tasks := if r.id in s.tasks
                  then s.tasks[r.id := Reported(s.tasks[r.id], r.success, r.output, r.problem, now)] else s.tasks)
  }

  function LocalPending(tasks: Tasks): set<string> {
    set id <- tasks | PendingFor(tasks[id], LOCAL)
  }

  /** The controller stops at any point and starts again on the same database, where it
      is going to resume every pending local task. */
  function DoCrash(s: State, now: Instant): State {
    s.(handlers := map[], workers := map[],
       servers := s.servers[LOCAL := LocalRecord(now)],
       tasks := Recovered(s.tasks),
       owed := LocalPending(Recovered(s.tasks)),
       requeues := map id <- s.tasks ::
         Count(s.requeues, id) + if s.tasks[id].status.Running? then 1 else 0)
  }

  // ---------- servers and heartbeats ----------

  function DoRegister(s: State, serverID: string, version: string, digest: Option<string>, now: Instant): State {
    if serverID == "" || serverID == LOCAL || serverID in s.servers || serverID in s.agents then s
    else
      s.(servers := s.servers[serverID := Server(serverID, true, "", [], "", now)],
         agents := s.agents[serverID := Agent(version, digest, Idle)])
  }

  function DoRevoke(s: State, serverID: string): State {
    if serverID == LOCAL then s else s.(servers := s.servers - {serverID})
  }

  function WithPhase(agents: map<string, Agent>, serverID: string, phase: Phase): map<string, Agent>
    requires serverID in agents
  {
    agents[serverID := agents[serverID].(phase := phase)]
  }

  function DigestText(digest: Option<string>): string {
    if digest.Some? then digest.value else ""
  }

  function DoSendBeat(s: State, serverID: string, features: seq<string>): State {
    if serverID !in s.agents || !s.agents[serverID].phase.Idle? then s
    else
      var a := s.agents[serverID];
      s.(agents := WithPhase(s.agents, serverID, AwaitingAck(|s.beats|)),
         beats := s.beats + [Beat(serverID, a.version, features, DigestText(a.digest), s.tasks.Keys)])
  }

  /** A heartbeat or a poll that failed or timed out at the Agent. */
  function DoGiveUp(s: State, serverID: string): State {
    if serverID !in s.agents || !(s.agents[serverID].phase.AwaitingAck? || s.agents[serverID].phase.Ready?) then s
    else s.(agents := WithPhase(s.agents, serverID, Idle))
  }

  function DoVerifyBeat(s: State, h: nat, beat: nat): State {
    if h in s.handlers || beat >= |s.beats| || s.beats[beat].serverID !in s.servers then s
    else s.(handlers := s.handlers[h := Verified(beat, s.servers[s.beats[beat].serverID])])
  }

  function DoStoreBeat(s: State, h: nat, now: Instant): State {
    if h !in s.handlers || !s.handlers[h].Verified? || s.handlers[h].beat >= |s.beats| then s
    else
      var b := s.beats[s.handlers[h].beat];
      var record := s.handlers[h].record.(agentVersion := b.version, agentFeatures := b.features,
                                          digest := b.digest, online := true, lastSeen := now);
      s.(handlers := s.handlers[h := Stored(s.handlers[h].beat)],
         servers := s.servers[record.id := record],
         announced := s.announced + {(record.id, b.digest)})
  }

  function DoConfirmBeat(s: State, h: nat, when: string -> Instant): State {
    if h !in s.handlers || !s.handlers[h].Stored? || s.handlers[h].beat >= |s.beats| then s
    else
      var b := s.beats[s.handlers[h].beat];
      s.(handlers := s.handlers[h := Acknowledged(s.handlers[h].beat, s.tasks.Keys)],
         tasks := UpdatesConfirmed(s.tasks, b.serverID, b.version, when))
  }

  /** The reply reaches the Agent if it still waits for it. */
  function DoAckBeat(s: State, h: nat): State {
    if h !in s.handlers || !s.handlers[h].Acknowledged? || s.handlers[h].beat >= |s.beats| then s
    else
      var n := s.handlers[h].beat;
      var sv := s.beats[n].serverID;
      s.(handlers := s.handlers - {h},
         agents := if sv in s.agents && s.agents[sv].phase == AwaitingAck(n)
                   then WithPhase(s.agents, sv, Ready(n, s.handlers[h].found))
                   else s.agents)
  }

  // ---------- polling and execution at the Agent ----------

  /** A claim whose reply arrives needs a waiting Agent; one whose reply is lost
      may happen at any time. The server was there when the request was
      authenticated; it may have been revoked since. */
  function DoPoll(c: Config, s: State, serverID: string, order: seq<string>, when: string -> Instant,
                  delivered: bool): State {
    if serverID !in s.agents || !PendingListed(s.tasks, serverID, order)
       || (delivered && !s.agents[serverID].phase.Ready?) then s
    else
      var (tasks, claimed) := Polled(s.tasks, order, c.failureStopPercent, when);
      s.(tasks := tasks,
         claims := if claimed.Some? then Bump(s.claims, claimed.value.id) else s.claims,
         agents := if delivered
                   then WithPhase(s.agents, serverID, if claimed.Some? then Given(claimed.value) else Idle)
                   else s.agents)
  }

  const DRIFT := "state drift detected; refresh the server before retrying"

  const INVALID_VERSION := "invalid Agent update version"

  predicate NeedsDigest(task: Task) {
    task.action != AGENT_UPDATE && task.digest != ""
  }

  function DoCheckDigest(s: State, serverID: string): State {
    if serverID !in s.agents || !s.agents[serverID].phase.Given? then s
    else
      var a := s.agents[serverID];
      var task := a.phase.task;
      var drift := NeedsDigest(task) && a.digest != Some(task.digest);
      s.(agents := WithPhase(s.agents, serverID, if drift then Idle else Cleared(task, a.digest)),
         reports := if drift then s.reports + [Report(serverID, task.id, false, "", DRIFT)] else s.reports)
  }

  function DoRunCommand(s: State, serverID: string, success: bool, after: Option<string>, output: string,
                        problem: string): State {
    if serverID !in s.agents || !s.agents[serverID].phase.Cleared?
       || s.agents[serverID].phase.task.action == AGENT_UPDATE then s
    else
      var a := s.agents[serverID];
      var task := a.phase.task;
      s.(agents := s.agents[serverID := a.(digest := after, phase := Idle)],
         reports := s.reports + [Report(serverID, task.id, success, output, problem)],
         runs := Bump(s.runs, task.id),
         executed := s.executed + [Execution(serverID, task, a.phase.seen)])
  }

  /** The update branch: an invalid version fails, the running version succeeds at
      once, any other is installed and the Agent restarts as it. */
  function DoSelfUpdate(s: State, serverID: string, success: bool, output: string, problem: string): State {
    if serverID !in s.agents || !s.agents[serverID].phase.Cleared?
       || s.agents[serverID].phase.task.action != AGENT_UPDATE then s
    else
      var a := s.agents[serverID];
      var task := a.phase.task;
      var version := TextOf(task.args, "version");
      var valid := ValidVersion(version);
      var install := valid && version != a.version;
      var report :=
        if !valid then Report(serverID, task.id, false, "", INVALID_VERSION + "\n")
        else if !install then Report(serverID, task.id, true, "Agent is already running version " + version, "")
        else Report(serverID, task.id, success, output, problem);
      s.(agents := s.agents[serverID := a.(version := if install && success then version else a.version,
                                           phase := Idle)],
         reports := s.reports + [report],
         runs := if install then Bump(s.runs, task.id) else s.runs,
         executed := if install then s.executed + [Execution(serverID, task, a.phase.seen)] else s.executed)
  }

  /** The Agent's encoder refuses the action: nothing is started. */
  function DoRefuseCommand(s: State, serverID: string, problem: string): State {
    if serverID !in s.agents || !s.agents[serverID].phase.Cleared?
       || s.agents[serverID].phase.task.action == AGENT_UPDATE then s
    else
      s.(agents := WithPhase(s.agents, serverID, Idle),
         reports := s.reports + [Report(serverID, s.agents[serverID].phase.task.id, false, "", problem)])
  }

  /** A restart, perhaps with another version: one that was installed by hand, or by
      an update that replaced the program and then reported an error. */
  function DoRestartAgent(s: State, serverID: string, version: string): State {
    if serverID !in s.agents then s
    else s.(agents := s.agents[serverID := s.agents[serverID].(version := version, phase := Idle)])
  }

  /** Someone changes the target's state outside the controller. */
  function DoLocalEdit(s: State, serverID: string, after: Option<string>): State {
    if serverID !in s.agents then s
    else s.(agents := s.agents[serverID := s.agents[serverID].(digest := after)])
  }

  /** A result arrives: at once, late, or again - even after its server was revoked,
      if it was authenticated before. */
  function DoDeliver(s: State, report: nat, now: Instant): State {
    if report >= |s.reports| then s
    else
      var r := s.reports[report];
      if r.taskID !in s.tasks || s.tasks[r.taskID].serverID != r.serverID then s
      else s.(tasks := s.tasks[r.taskID := Reported(s.tasks[r.taskID], r.success, r.output, r.problem, now)])
  }

  // ---------- runs ----------

  function ApplyRequest(s: State, e: RequestEvent): State {
    match e
    case StartEnqueue(h, serverID, action, args, key) => DoStartEnqueue(s, h, serverID, action, args, key)
    case StartBatch(h, batchID, serverID, action, args) => DoStartBatch(s, h, batchID, serverID, action, args)
    case StartRetry(h, id, key) => DoStartRetry(s, h, id, key)
    case ReadOriginal(h) => DoReadOriginal(s, h)
    case LookUpKey(h) => DoLookUpKey(s, h)
    case Insert(h, id, now) => DoInsert(s, h, id, now)
    case Cancel(id, now) => DoCancel(s, id, now)
  }

  function ApplyWorker(c: Config, s: State, e: WorkerEvent): State {
    match e
    case Spawn(w, id) => DoSpawn(s, w, id)
    case Acquire(w) => DoAcquire(c, s, w)
    case Claim(w, now) => DoClaim(s, w, now)
    case CheckBatch(w) => DoCheckBatch(c, s, w)
    case CommandDone(w, success, output, problem) => DoCommandDone(s, w, success, output, problem)
    case Finish(w, now) => DoFinish(s, w, now)
  }

  function ApplyAdmin(s: State, e: AdminEvent): State {
    match e
    case Crash(now) => DoCrash(s, now)
    case Register(serverID, version, digest, now) => DoRegister(s, serverID, version, digest, now)
    case Revoke(serverID) => DoRevoke(s, serverID)
  }

  function ApplyBeat(s: State, e: BeatEvent): State {
    match e
    case SendBeat(serverID, features) => DoSendBeat(s, serverID, features)
    case GiveUp(serverID) => DoGiveUp(s, serverID)
    case VerifyBeat(h, beat) => DoVerifyBeat(s, h, beat)
    case StoreBeat(h, now) => DoStoreBeat(s, h, now)
    case ConfirmBeat(h, when) => DoConfirmBeat(s, h, when)
    case AckBeat(h) => DoAckBeat(s, h)
  }

  function ApplyTransfer(c: Config, s: State, e: TransferEvent): State {
    match e
    case Poll(serverID, order, when, delivered) => DoPoll(c, s, serverID, order, when, delivered)
    case Deliver(report, now) => DoDeliver(s, report, now)
  }

  function ApplyAgent(s: State, e: AgentEvent): State {
    match e
    case CheckDigest(serverID) => DoCheckDigest(s, serverID)
    case RunCommand(serverID, success, after, output, problem) =>
      DoRunCommand(s, serverID, success, after, output, problem)
    case SelfUpdate(serverID, success, output, problem) => DoSelfUpdate(s, serverID, success, output, problem)
    case RefuseCommand(serverID, problem) => DoRefuseCommand(s, serverID, problem)
    case RestartAgent(serverID, version) => DoRestartAgent(s, serverID, version)
    case LocalEdit(serverID, after) => DoLocalEdit(s, serverID, after)
  }

  function Apply(c: Config, s: State, e: Event): State {
    match e
    case ByRequest(r) => ApplyRequest(s, r)
    case ByWorker(w) => ApplyWorker(c, s, w)
    case ByAdmin(a) => ApplyAdmin(s, a)
    case ByBeat(b) => ApplyBeat(s, b)
    case ByTransfer(t) => ApplyTransfer(c, s, t)
    case ByAgent(a) => ApplyAgent(s, a)
  }

  function Run(c: Config, s: State, es: seq<Event>): State
    decreases |es|
  {
    if es == [] then s else Run(c, Apply(c, s, es[0]), es[1..])
  }

  lemma {:induction false} RunAppend(c: Config, s: State, es: seq<Event>, fs: seq<Event>)
    ensures Run(c, s, es + fs) == Run(c, Run(c, s, es), fs)
    decreases |es|
  {
    if es == [] {
      assert es + fs == fs;
    } else {
      RunAppend(c, Apply(c, s, es[0]), es[1..], fs);
      assert (es + fs)[1..] == es[1..] + fs;
    }
  }

  /** The state of a run from the start after its first `k` events. */
  function At(c: Config, es: seq<Event>, k: nat): State
    requires k <= |es|
  {
    Run(c, Initial(), es[..k])
  }

  lemma AtNext(c: Config, es: seq<Event>, k: nat)
    requires k < |es|
    ensures At(c, es, k + 1) == Apply(c, At(c, es, k), es[k])
  {
    assert es[..k + 1] == es[..k] + [es[k]];
    RunAppend(c, Initial(), es[..k], [es[k]]);
    assert [es[k]][1..] == [];
  }

  /** A run without its last event goes through the same states. */
  lemma AtBefore(c: Config, es: seq<Event>, n: nat)
    requires n <= |es|
    ensures forall k :: 0 <= k <= n ==> At(c, es[..n], k) == At(c, es, k)
    ensures At(c, es, |es|) == Run(c, Initial(), es)
  {
    assert es[..|es|] == es;
    forall k | 0 <= k <= n
      ensures At(c, es[..n], k) == At(c, es, k)
    {
      assert es[..n][..k] == es[..k];
    }
  }

  lemma RunOne(c: Config, s: State, e: Event)
    ensures Run(c, s, [e]) == Apply(c, s, e)
  {
  }

  lemma RunTwo(c: Config, s: State, a: Event, b: Event)
    ensures Run(c, s, [a, b]) == Apply(c, Apply(c, s, a), b)
  {
    RunOne(c, Apply(c, s, a), b);
    assert [a, b][1..] == [b];
    hide Apply;
  }

  lemma RunThree(c: Config, s: State, a: Event, b: Event, d: Event)
    ensures Run(c, s, [a, b, d]) == Apply(c, Apply(c, Apply(c, s, a), b), d)
  {
    RunTwo(c, Apply(c, s, a), b, d);
    assert [a, b, d][1..] == [b, d];
    hide Apply;
  }

  lemma RunFour(c: Config, s: State, a: Event, b: Event, d: Event, e: Event)
    ensures Run(c, s, [a, b, d, e]) == Apply(c, Apply(c, Apply(c, Apply(c, s, a), b), d), e)
  {
    RunThree(c, Apply(c, s, a), b, d, e);
    assert [a, b, d, e][1..] == [b, d, e];
    hide Apply;
  }
}
