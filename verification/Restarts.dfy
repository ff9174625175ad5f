/** How often a task starts between two restarts. What a party holds when a stretch
    without restarts begins decides it: a local task starts at most once; a remote one
    at most once unless its Agent still holds a claim that a restart has put back. */
module Restarts {
  import opened Timestamps
  import opened Types
  import opened TaskSpec
  import opened Patterns
  import opened Protocol
  import opened Evolution
  import opened Invariants
  import opened Pool
  import opened Claims
  import opened Theorems
  import B = Batches

  // ---------- claims in hand ----------

  predicate WorkerHolds(s: State, id: string) {
    exists w <- s.workers :: s.workers[w] == Claimed(id)
  }

  predicate AgentHolds(s: State, id: string) {
    exists a <- s.agents :: B.Holds(s, a, id)
  }

  /** Someone has claimed the task and not started it yet. */
  predicate InHand(s: State, id: string) {
    WorkerHolds(s, id) || AgentHolds(s, id)
  }

  /** Starts and claims in hand grow no faster than claims. */
  predicate Accounted(s: State, t: State, id: string) {
    && Count(s.claims, id) <= Count(t.claims, id)
    && Count(t.runs, id) + B.One(InHand(t, id)) + Count(s.claims, id)
       <= Count(s.runs, id) + B.One(InHand(s, id)) + Count(t.claims, id)
  }

  lemma AccountedTransitively(s: State, t: State, u: State, id: string)
    requires Accounted(s, t, id) && Accounted(t, u, id)
    ensures Accounted(s, u, id)
  {
  }

  /** Nothing starts, nothing is claimed, and nobody new holds the task. */
  lemma QuietAccounted(s: State, t: State, id: string)
    requires t.runs == s.runs && t.claims == s.claims && (InHand(t, id) ==> InHand(s, id))
    ensures Accounted(s, t, id)
  {
  }

  /** One task is claimed; whether it gets into someone's hands does not matter. */
  lemma ClaimAccounted(s: State, t: State, claimed: string, id: string)
    requires t.runs == s.runs && t.claims == Bump(s.claims, claimed)
    requires id != claimed && InHand(t, id) ==> InHand(s, id)
    ensures Accounted(s, t, id)
  {
    BumpGrows(s.claims, claimed);
    hide InHand, Bump, Count;
  }

  /** One holder starts its task, which nobody else holds. */
  lemma StartAccounted(s: State, t: State, started: string, id: string)
    requires t.runs == Bump(s.runs, started) && t.claims == s.claims
    requires InHand(s, started) && !InHand(t, started)
    requires id != started && InHand(t, id) ==> InHand(s, id)
    ensures Accounted(s, t, id)
  {
    BumpGrows(s.runs, started);
    hide InHand, Bump, Count;
  }

  // ---------- every event keeps the account ----------

  lemma RequestAccounted(s: State, e: RequestEvent, id: string)
    ensures Accounted(s, ApplyRequest(s, e), id)
  {
    RequestFrame(s, e);
    hide ApplyRequest;
    QuietAccounted(s, ApplyRequest(s, e), id);
  }

  lemma AdminAccounted(s: State, e: AdminEvent, id: string)
    ensures Accounted(s, ApplyAdmin(s, e), id)
  {
    var t := ApplyAdmin(s, e);
    AdminFrame(s, e);
    hide ApplyAdmin;
    if AgentHolds(t, id) {
      var a :| a in t.agents && B.Holds(t, a, id);
      assert B.Holds(s, a, id);
    }
    QuietAccounted(s, t, id);
  }

  lemma BeatAccounted(s: State, e: BeatEvent, id: string)
    ensures Accounted(s, ApplyBeat(s, e), id)
  {
    var t := ApplyBeat(s, e);
    BeatFrame(s, e);
    BeatGivesNothing(s, e);
    hide ApplyBeat;
    if AgentHolds(t, id) {
      var a :| a in t.agents && B.Holds(t, a, id);
      assert B.Holds(s, a, id);
    }
    QuietAccounted(s, t, id);
  }

  lemma TransferAccounted(c: Config, s: State, e: TransferEvent, id: string)
    requires Keyed(s.tasks)
    ensures Accounted(s, ApplyTransfer(c, s, e), id)
  {
    hide ApplyTransfer, Keyed, Accounted, TransferMoved;
    TransferFrame(c, s, e);
    TransferMoves(c, s, e);
    MovedAccounted(c, s, ApplyTransfer(c, s, e), id);
  }

  lemma MovedAccounted(c: Config, s: State, t: State, id: string)
    requires TransferMoved(c, s, t) && t.workers == s.workers && t.runs == s.runs
    ensures Accounted(s, t, id)
  {
    hide Accounted, GivenTask, Bump, InHand;
    HandedOut(c, s, t, id);
    if t.claims == s.claims {
      BumpGrows(s.claims, id);
      QuietAccounted(s, t, id);
    } else {
      var claimed :| claimed in s.tasks && t.claims == Bump(s.claims, claimed);
      BumpGrows(s.claims, claimed);
      BumpGrows(s.claims, id);
      ClaimAccounted(s, t, claimed, id);
    }
  }

  /** Who holds a task after a poll held it before, or has just claimed it. */
  lemma HandedOut(c: Config, s: State, t: State, id: string)
    requires TransferMoved(c, s, t) && t.workers == s.workers
    ensures InHand(t, id) ==> InHand(s, id) || t.claims == Bump(s.claims, id)
  {
    if AgentHolds(t, id) {
      var a :| a in t.agents && B.Holds(t, a, id);
      assert t.agents[a] == s.agents[a] ==> B.Holds(s, a, id);
    }
    hide Bump;
  }

  lemma AgentAccounted(c: Config, s: State, e: AgentEvent, id: string)
    requires GoodAgents(s) && Owned(s)
    ensures Accounted(s, ApplyAgent(s, e), id)
  {
    var t := ApplyAgent(s, e);
    AgentMoves(s, e);
    hide ApplyAgent, GoodAgents, Owned;
    HoldersStay(s, t, e.serverID, id);
    if CommandStarted(s, t, e.serverID) {
      var started := s.agents[e.serverID].phase.task.id;
      assert B.Holds(s, e.serverID, started);
      StartedLetsGo(s, t, e.serverID);
      hide AgentMoved, B.Holds;
      StartAccounted(s, t, started, id);
    } else {
      QuietAccounted(s, t, id);
    }
  }

  lemma HoldersStay(s: State, t: State, serverID: string, id: string)
    requires AgentMoved(s, t, serverID)
    ensures InHand(t, id) ==> InHand(s, id)
  {
    if AgentHolds(t, id) {
      var a :| a in t.agents && B.Holds(t, a, id);
      assert B.Holds(s, a, id);
    }
    hide CommandStarted;
  }

  lemma StartedLetsGo(s: State, t: State, serverID: string)
    requires AgentMoved(s, t, serverID) && CommandStarted(s, t, serverID) && GoodAgents(s) && Owned(s)
    ensures !InHand(t, s.agents[serverID].phase.task.id)
  {
    OnlyHolder(s, serverID);
    var id := s.agents[serverID].phase.task.id;
    forall w <- s.workers
      ensures s.workers[w] != Claimed(id)
    {
      assert OwnsRunning(s.tasks, s.workers[w]);
    }
    hide GoodAgents, Owned;
  }

  lemma WorkerAccounted(c: Config, s: State, e: WorkerEvent, id: string)
    requires Pooled(c, s) && GoodAgents(s)
    ensures Accounted(s, ApplyWorker(c, s, e), id)
  {
    hide Pooled, GoodAgents, Accounted, Bump, DoSpawn, DoAcquire, DoClaim, DoCheckBatch, DoCommandDone, DoFinish;
    match e {
      case Claim(w, now) => LocalClaimAccounted(s, w, now, id);
      case CheckBatch(w) => CheckAccounted(c, s, w, id);
      case _ => OtherWorkerAccounted(c, s, e, id);
    }
  }

  lemma OtherWorkerAccounted(c: Config, s: State, e: WorkerEvent, id: string)
    requires !e.Claim? && !e.CheckBatch?
    ensures Accounted(s, ApplyWorker(c, s, e), id)
  {
    OthersClaimNothing(c, s, e);
    hide ApplyWorker;
    QuietAccounted(s, ApplyWorker(c, s, e), id);
  }

  lemma LocalClaimAccounted(s: State, w: nat, now: Instant, id: string)
    ensures Accounted(s, DoClaim(s, w, now), id)
  {
    var t := DoClaim(s, w, now);
    hide Bump, Started, Accounted;
    if t.workers == s.workers - {w} || t == s {
      QuietAccounted(s, t, id);
    } else {
      ClaimAccounted(s, t, s.workers[w].id, id);
    }
  }

  lemma CheckAccounted(c: Config, s: State, w: nat, id: string)
    requires Pooled(c, s) && GoodAgents(s)
    ensures Accounted(s, DoCheckBatch(c, s, w), id)
  {
    hide Halted, Bump, Accounted, Pooled, GoodAgents;
    var t := DoCheckBatch(c, s, w);
    if t == s || t.runs == s.runs {
      QuietAccounted(s, t, id);
    } else {
      var started := s.workers[w].id;
      assert s.workers[w] == Claimed(started);
      CheckLetsGo(c, s, t, w);
      StartAccounted(s, t, started, id);
    }
  }

  lemma CheckLetsGo(c: Config, s: State, t: State, w: nat)
    requires Pooled(c, s) && GoodAgents(s) && w in s.workers && s.workers[w].Claimed?
    requires t.workers == s.workers[w := Executing(s.workers[w].id)] && t.agents == s.agents
    ensures !InHand(t, s.workers[w].id)
  {
    var id := s.workers[w].id;
    assert OwnsRunning(s.tasks, s.workers[w]);
    NoAgentHoldsLocal(s, id);
    hide GoodAgents;
  }

  lemma StepAccounted(c: Config, s: State, e: Event, id: string)
    requires Inv(c, s)
    ensures Accounted(s, Apply(c, s, e), id)
  {
    assert GoodAgents(s) && Keyed(s.tasks) && Owned(s) && Pooled(c, s);
    hide Inv, Pooled, GoodAgents, Owned, Keyed, Accounted, ApplyRequest, ApplyWorker, ApplyAdmin, ApplyBeat,
         ApplyTransfer, ApplyAgent;
    match e {
      case ByRequest(r) => RequestAccounted(s, r, id);
      case ByWorker(w) => WorkerAccounted(c, s, w, id);
      case ByAdmin(a) => AdminAccounted(s, a, id);
      case ByBeat(b) => BeatAccounted(s, b, id);
      case ByTransfer(x) => TransferAccounted(c, s, x, id);
      case ByAgent(a) => AgentAccounted(c, s, a, id);
    }
  }

  lemma {:induction false} RunAccounted(c: Config, s: State, es: seq<Event>, id: string)
    requires Inv(c, s)
    ensures Accounted(s, Run(c, s, es), id)
    decreases |es|
  {
    hide Inv, Apply, InHand;
    if es != [] {
      StepAccounted(c, s, es[0], id);
      StepInv(c, s, es[0]);
      RunAccounted(c, Apply(c, s, es[0]), es[1..], id);
      AccountedTransitively(s, Apply(c, s, es[0]), Run(c, s, es), id);
    }
  }

  // ---------- stretches without a restart ----------

  /** A task that leaves the queue for good is not claimed again. */
  lemma {:induction false} FinishedNotClaimed(c: Config, s: State, es: seq<Event>, id: string)
    requires Inv(c, s) && id in s.tasks && s.tasks[id].status.Terminal()
    ensures Count(Run(c, s, es).claims, id) == Count(s.claims, id)
    decreases |es|
  {
    hide Inv, Apply, Count;
    if es != [] {
      StepClaimsPending(c, s, es[0], id);
      StepInv(c, s, es[0]);
      StepEvolves(c, s, es[0]);
      FinishedNotClaimed(c, Apply(c, s, es[0]), es[1..], id);
    }
  }

  /** Only a pending task is claimed. */
  lemma StepClaimsPending(c: Config, s: State, e: Event, id: string)
    requires Inv(c, s) && id in s.tasks && s.tasks[id].status.Terminal()
    ensures Count(Apply(c, s, e).claims, id) == Count(s.claims, id)
  {
    assert Keyed(s.tasks);
    hide Inv, Keyed, ApplyRequest, ApplyWorker, ApplyAdmin, ApplyBeat, ApplyTransfer, ApplyAgent;
    match e {
      case ByRequest(r) => RequestFrame(s, r);
      case ByWorker(w) => WorkerClaimsPending(c, s, w, id);
      case ByAdmin(a) => AdminFrame(s, a);
      case ByBeat(b) => BeatFrame(s, b);
      case ByTransfer(x) => TransferClaimsPending(c, s, x, id);
      case ByAgent(a) => AgentFrame(s, a);
    }
  }

  lemma WorkerClaimsPending(c: Config, s: State, e: WorkerEvent, id: string)
    requires id in s.tasks && s.tasks[id].status.Terminal()
    ensures Count(ApplyWorker(c, s, e).claims, id) == Count(s.claims, id)
  {
    if e.w in s.workers {
      BumpGrows(s.claims, s.workers[e.w].id);
    }
    hide Bump, Count, Halted, Permits, Reported;
  }

  lemma TransferClaimsPending(c: Config, s: State, e: TransferEvent, id: string)
    requires Keyed(s.tasks) && id in s.tasks && s.tasks[id].status.Terminal()
    ensures Count(ApplyTransfer(c, s, e).claims, id) == Count(s.claims, id)
  {
    hide Bump, Count, Polled, Reported;
    if e.Poll? && PendingListed(s.tasks, e.serverID, e.order)
       && Polled(s.tasks, e.order, c.failureStopPercent, e.when).1.Some? {
      PolledTask(s.tasks, e.serverID, e.order, c.failureStopPercent, e.when);
      BumpGrows(s.claims, Polled(s.tasks, e.order, c.failureStopPercent, e.when).1.value.id);
    }
  }

  /** Between two restarts a task is claimed at most once, and not at all if it is
      running or finished when the stretch begins. */
  lemma ClaimedAtMostOnce(c: Config, s: State, fs: seq<Event>, id: string)
    requires Inv(c, s) && NoCrash(fs)
    ensures Count(Run(c, s, fs).claims, id) <= Count(s.claims, id) + 1
    ensures id in s.tasks && !s.tasks[id].status.Pending? ==> Count(Run(c, s, fs).claims, id) == Count(s.claims, id)
  {
    var t := Run(c, s, fs);
    RunInv(c, s, fs);
    NoCrashNoRequeue(c, s, fs);
    RunAccounted(c, s, fs, id);
    RunEvolves(c, s, fs);
    if id in s.tasks && s.tasks[id].status.Terminal() {
      FinishedNotClaimed(c, s, fs, id);
    }
    hide Run;
    BalancedCounts(c, s, id);
    BalancedCounts(c, t, id);
  }

  lemma BalancedCounts(c: Config, s: State, id: string)
    requires Inv(c, s)
    ensures Count(s.requeues, id) <= Count(s.claims, id) <= Count(s.requeues, id) + 1
    ensures id in s.tasks && s.tasks[id].status.Pending? ==> Count(s.claims, id) == Count(s.requeues, id)
    ensures id in s.tasks && s.tasks[id].status.Running? ==> Count(s.claims, id) == Count(s.requeues, id) + 1
  {
    hide Held, Pooled, RunsCovered;
    assert id in s.tasks ==> Balanced(s.tasks[id], Count(s.claims, id), Count(s.requeues, id));
  }

  /** A restart has put the task back into the queue while someone still holds the
      claim that it took back. */
  predicate PutBackInHand(s: State, id: string) {
    id in s.tasks && s.tasks[id].status.Pending? && InHand(s, id)
  }

  /** Without a restart, a task starts at most once more than it has - unless its claim
      was put back in hand; then at most twice. */
  lemma StretchStarts(c: Config, s: State, fs: seq<Event>, id: string)
    requires Inv(c, s) && NoCrash(fs)
    ensures !PutBackInHand(s, id) ==> Count(Run(c, s, fs).runs, id) <= Count(s.runs, id) + 1
    ensures Count(Run(c, s, fs).runs, id) <= Count(s.runs, id) + 2
  {
    RunAccounted(c, s, fs, id);
    ClaimedAtMostOnce(c, s, fs, id);
    if InHand(s, id) {
      HoldersKnow(c, s, id);
    }
    hide Run, Inv, InHand, Count;
  }

  lemma HoldersKnow(c: Config, s: State, id: string)
    requires Inv(c, s) && InHand(s, id)
    ensures id in s.tasks
  {
    assert Owned(s) && GoodAgents(s);
    if WorkerHolds(s, id) {
      var w :| w in s.workers && s.workers[w] == Claimed(id);
      assert OwnsRunning(s.tasks, s.workers[w]);
    } else {
      var a :| a in s.agents && B.Holds(s, a, id);
      assert GoodPhase(s, a, s.agents[a]);
    }
    hide Inv, Owned, GoodAgents;
  }

  /** In every run: what a stretch without a restart can start. */
  lemma StartsBetweenRestarts(c: Config, es: seq<Event>, fs: seq<Event>, id: string)
    requires NoCrash(fs)
    ensures var s := Run(c, Initial(), es); var t := Run(c, s, fs);
            && (!PutBackInHand(s, id) ==> Count(t.runs, id) <= Count(s.runs, id) + 1)
            && Count(t.runs, id) <= Count(s.runs, id) + 2
  {
    hide *;
    ReachableInv(c, es);
    StretchStarts(c, Run(c, Initial(), es), fs, id);
  }

  /** A local task starts at most once between two restarts, however often it is woken
      up: a restart forgets every worker, so no claim of one is ever in hand and put
      back. */
  lemma LocalStartsOnceWithoutRestart(c: Config, es: seq<Event>, fs: seq<Event>, id: string)
    requires NoCrash(fs)
    requires var t := Run(c, Run(c, Initial(), es), fs); id in t.tasks && t.tasks[id].serverID == LOCAL
    ensures var s := Run(c, Initial(), es); var t := Run(c, s, fs);
            Count(t.runs, id) <= Count(s.runs, id) + 1
  {
    ReachableInv(c, es);
    var s := Run(c, Initial(), es);
    StretchStarts(c, s, fs, id);
    RunEvolves(c, s, fs);
    if PutBackInHand(s, id) {
      LocalNeverPutBack(c, s, id);
    }
    hide Run, Inv, PutBackInHand;
  }

  lemma LocalNeverPutBack(c: Config, s: State, id: string)
    requires Inv(c, s) && id in s.tasks && s.tasks[id].serverID == LOCAL
    ensures !PutBackInHand(s, id)
  {
    assert Owned(s) && GoodAgents(s);
    NoAgentHoldsLocal(s, id);
    forall w <- s.workers
      ensures s.workers[w] == Claimed(id) ==> s.tasks[id].status.Running?
    {
      assert OwnsRunning(s.tasks, s.workers[w]);
    }
    hide Inv, Owned, GoodAgents;
  }

  // ---------- a claim put back in hand does start twice ----------

  /** The task is not an update that an Agent of this version would answer without
      installing anything. */
  predicate Startable(task: Task, version: string) {
    task.action == AGENT_UPDATE ==>
      ValidVersion(TextOf(task.args, "version")) && TextOf(task.args, "version") != version
  }

  /** From the check to the report, with the state that the task expects. */
  function Turn(serverID: string, task: Task, ok: bool): seq<Event> {
    [ByAgent(LocalEdit(serverID, Some(task.digest))),
     ByAgent(CheckDigest(serverID)),
     ByAgent(if task.action == AGENT_UPDATE then SelfUpdate(serverID, ok, "", "")
             else RunCommand(serverID, ok, None, "", ""))]
  }

  /** Agents act, and their messages are handled; nothing else happens. */
  predicate RemoteOnly(es: seq<Event>) {
    forall i :: 0 <= i < |es| ==> es[i].ByBeat? || es[i].ByTransfer? || es[i].ByAgent?
  }

  lemma RemoteOnlyStops(es: seq<Event>, id: string)
    requires RemoteOnly(es)
    ensures NoCrash(es) && NoCancel(es, id)
  {
  }

  lemma RemoteAppend(es: seq<Event>, fs: seq<Event>)
    requires RemoteOnly(es) && RemoteOnly(fs)
    ensures RemoteOnly(es + fs)
  {
  }

  predicate HasInHand(a: Agent, task: Task) {
    (a.phase.Given? || a.phase.Cleared?) && a.phase.task == task
  }

  /** What starting a task's command or installation leaves behind. */
  predicate Ran(s: State, t: State, serverID: string, task: Task, ok: bool) {
    && t == s.(agents := t.agents, reports := s.reports + [Report(serverID, task.id, ok, "", "")],
               runs := Bump(s.runs, task.id), executed := t.executed)
    && serverID in s.agents && serverID in t.agents && t.agents[serverID].phase.Idle?
    && (!ok || task.action != AGENT_UPDATE ==> t.agents[serverID].version == s.agents[serverID].version)
  }

  lemma TurnStarts(c: Config, s: State, serverID: string, task: Task, ok: bool)
    requires serverID in s.agents && HasInHand(s.agents[serverID], task) && Startable(task, s.agents[serverID].version)
    ensures Ran(s, Run(c, s, Turn(serverID, task, ok)), serverID, task, ok)
  {
    var es := Turn(serverID, task, ok);
    RunThree(c, s, es[0], es[1], es[2]);
    hide Run;
    var checked := Checked(s, serverID, task);
    CheckPasses(s, serverID, task);
    hide DoLocalEdit, DoCheckDigest, DoRunCommand, DoSelfUpdate, Bump, Startable;
    if task.action == AGENT_UPDATE {
      InstallationRan(checked, serverID, task, ok);
    } else {
      CommandRan(checked, serverID, task, ok);
    }
  }

  function Checked(s: State, serverID: string, task: Task): State {
    DoCheckDigest(DoLocalEdit(s, serverID, Some(task.digest)), serverID)
  }

  lemma CheckPasses(s: State, serverID: string, task: Task)
    requires serverID in s.agents && HasInHand(s.agents[serverID], task)
    ensures var t := Checked(s, serverID, task);
            && t == s.(agents := t.agents) && serverID in t.agents
            && t.agents[serverID].phase.Cleared? && t.agents[serverID].phase.task == task
            && t.agents[serverID].version == s.agents[serverID].version
  {
  }

  lemma CommandRan(s: State, serverID: string, task: Task, ok: bool)
    requires serverID in s.agents && s.agents[serverID].phase.Cleared? && s.agents[serverID].phase.task == task
    requires task.action != AGENT_UPDATE
    ensures Ran(s, DoRunCommand(s, serverID, ok, None, "", ""), serverID, task, ok)
  {
  }

  lemma InstallationRan(s: State, serverID: string, task: Task, ok: bool)
    requires serverID in s.agents && s.agents[serverID].phase.Cleared? && s.agents[serverID].phase.task == task
    requires task.action == AGENT_UPDATE && Startable(task, s.agents[serverID].version)
    ensures Ran(s, DoSelfUpdate(s, serverID, ok, "", ""), serverID, task, ok)
  {
    hide ValidVersion, TextOf, Bump;
    var a, version := s.agents[serverID], TextOf(task.args, "version");
    assert DoSelfUpdate(s, serverID, ok, "", "") ==
           s.(agents := s.agents[serverID := a.(version := if ok then version else a.version, phase := Idle)],
              reports := s.reports + [Report(serverID, task.id, ok, "", "")],
              runs := Bump(s.runs, task.id), executed := s.executed + [Execution(serverID, task, a.phase.seen)]);
  }

  /** A heartbeat that gets through: sent, authenticated, stored, confirmed, answered. */
  function BeatEvents(serverID: string, n: nat, h: nat): seq<Event> {
    [ByBeat(SendBeat(serverID, [])), ByBeat(VerifyBeat(h, n)), ByBeat(StoreBeat(h, START)),
     ByBeat(ConfirmBeat(h, _ => START)), ByBeat(AckBeat(h))]
  }

  /** The Agent is ready to poll, and its updates are confirmed. */
  predicate Beaten(s: State, t: State, serverID: string) {
    && serverID in s.agents && serverID in t.agents
    && t == s.(tasks := t.tasks, servers := t.servers, agents := t.agents, beats := t.beats, announced := t.announced)
    && t.tasks == UpdatesConfirmed(s.tasks, serverID, s.agents[serverID].version, _ => START)
    && t.agents[serverID].phase.Ready? && t.agents[serverID].version == s.agents[serverID].version
    && s.servers.Keys <= t.servers.Keys
  }

  function Sent(s: State, serverID: string): State {
    DoSendBeat(s, serverID, [])
  }

  function StoredBeat(s: State, n: nat, h: nat): State {
    DoStoreBeat(DoVerifyBeat(s, h, n), h, START)
  }

  function Answered(s: State, h: nat): State {
    DoAckBeat(DoConfirmBeat(s, h, _ => START), h)
  }

  lemma BeatIsSent(s: State, serverID: string)
    requires serverID in s.agents && s.agents[serverID].phase.Idle?
    ensures var t := Sent(s, serverID); var a := s.agents[serverID];
            && t == s.(agents := t.agents, beats := t.beats) && |t.beats| == |s.beats| + 1
            && serverID in t.agents && t.agents[serverID] == a.(phase := AwaitingAck(|s.beats|))
            && t.beats[|s.beats|].serverID == serverID && t.beats[|s.beats|].version == a.version
  {
  }

  lemma BeatIsStored(s: State, n: nat, h: nat)
    requires n < |s.beats| && h !in s.handlers && s.beats[n].serverID in s.servers
    ensures var t := StoredBeat(s, n, h);
            && t == s.(handlers := s.handlers[h := Stored(n)], servers := t.servers, announced := t.announced)
            && s.servers.Keys <= t.servers.Keys
  {
  }

  lemma BeatIsAnswered(s: State, n: nat, h: nat, before: map<nat, Handler>)
    requires n < |s.beats| && h !in before && s.handlers == before[h := Stored(n)]
    requires var sv := s.beats[n].serverID; sv in s.agents && s.agents[sv].phase == AwaitingAck(n)
    ensures var t := Answered(s, h); var b := s.beats[n];
            && t == s.(handlers := before, tasks := t.tasks, agents := t.agents)
            && t.tasks == UpdatesConfirmed(s.tasks, b.serverID, b.version, _ => START)
            && b.serverID in t.agents && t.agents[b.serverID].phase.Ready?
            && t.agents[b.serverID].version == s.agents[b.serverID].version
  {
    hide UpdatesConfirmed;
    assert before[h := Acknowledged(n, s.tasks.Keys)] - {h} == before;
    assert before[h := Stored(n)][h := Acknowledged(n, s.tasks.Keys)] == before[h := Acknowledged(n, s.tasks.Keys)];
  }

  lemma BeatGetsThrough(c: Config, s: State, serverID: string, h: nat)
    requires serverID in s.agents && s.agents[serverID].phase.Idle? && serverID in s.servers && h !in s.handlers
    ensures Beaten(s, Run(c, s, BeatEvents(serverID, |s.beats|, h)), serverID)
  {
    var n, es := |s.beats|, BeatEvents(serverID, |s.beats|, h);
    var sent := Sent(s, serverID);
    var stored := StoredBeat(sent, n, h);
    assert es == [es[0], es[1], es[2]] + [es[3], es[4]];
    RunAppend(c, s, [es[0], es[1], es[2]], [es[3], es[4]]);
    RunThree(c, s, es[0], es[1], es[2]);
    RunTwo(c, stored, es[3], es[4]);
    hide Run, DoSendBeat, DoVerifyBeat, DoStoreBeat, DoConfirmBeat, DoAckBeat, UpdatesConfirmed;
    BeatIsSent(s, serverID);
    BeatIsStored(sent, n, h);
    BeatIsAnswered(stored, n, h, s.handlers);
    hide Sent, StoredBeat, Answered;
  }

  // ---------- being served first ----------

  lemma {:induction false} Listed(ids: set<string>) returns (order: seq<string>)
    ensures forall id :: id in order <==> id in ids
    ensures forall i, j :: 0 <= i < j < |order| ==> order[i] != order[j]
    decreases |ids|
  {
    if ids == {} {
      order := [];
    } else {
      var id :| id in ids;
      var rest := Listed(ids - {id});
      order := [id] + rest;
    }
  }

  lemma ListedFirst(tasks: Tasks, serverID: string, id: string) returns (order: seq<string>)
    requires id in tasks && PendingFor(tasks[id], serverID)
    ensures PendingListed(tasks, serverID, order) && order != [] && order[0] == id
  {
    var rest := Listed((set x <- tasks | PendingFor(tasks[x], serverID)) - {id});
    order := [id] + rest;
  }

  lemma PollHandsOut(c: Config, s: State, serverID: string, order: seq<string>)
    requires serverID in s.agents && s.agents[serverID].phase.Ready? && PendingListed(s.tasks, serverID, order)
    requires order != [] && !Halted(s.tasks, s.tasks[order[0]].batchID, c.failureStopPercent)
    ensures var t := DoPoll(c, s, serverID, order, _ => START, true); var task := Started(s.tasks[order[0]], START);
            && t == s.(tasks := s.tasks[order[0] := task], claims := t.claims, agents := t.agents)
            && serverID in t.agents && t.agents[serverID] == s.agents[serverID].(phase := Given(task))
  {
    PolledAt(s.tasks, order, c.failureStopPercent, _ => START, 0);
    hide Halted, Polled, Started, Bump;
  }

  /** Confirming updates can only take a batch further below the threshold. */
  lemma ConfirmationKeepsBelow(tasks: Tasks, serverID: string, version: string, when: string -> Instant,
                               batchID: string, threshold: int)
    requires !Halted(tasks, batchID, threshold)
    ensures !Halted(UpdatesConfirmed(tasks, serverID, version, when), batchID, threshold)
  {
    B.ConfirmationShifts(tasks, serverID, version, when, batchID);
    var failed, completed := |FailedIn(tasks, batchID)|, |CompletedIn(tasks, batchID)|;
    FailedWithinCompleted(tasks, batchID);
    var more := |B.Awaiting(tasks, serverID, version, batchID)|;
    hide UpdatesConfirmed, FailedIn, CompletedIn, B.Awaiting;
    if completed > 0 {
      RateFalls(failed, completed, more);
    }
  }

  lemma RateFalls(failed: nat, completed: nat, more: nat)
    requires completed > 0
    ensures failed * 100 / (completed + more) <= failed * 100 / completed
  {
    var q := failed * 100 / completed;
    assert failed * 100 < (q + 1) * completed;
    Times(completed, completed + more, q + 1);
    assert failed * 100 < (q + 1) * (completed + more);
    if failed * 100 / (completed + more) > q {
      QuotientBounds(failed * 100, completed + more, 0, 0);
      Times(q + 1, failed * 100 / (completed + more), completed + more);
    }
  }

  /** From ready: a poll and the execution. */
  lemma ServedIsStarted(c: Config, s: State, serverID: string, id: string, ok: bool) returns (es: seq<Event>)
    requires Keyed(s.tasks) && serverID in s.agents && s.agents[serverID].phase.Ready?
    requires id in s.tasks && PendingFor(s.tasks[id], serverID) && Startable(s.tasks[id], s.agents[serverID].version)
    requires !Halted(s.tasks, s.tasks[id].batchID, c.failureStopPercent)
    ensures RemoteOnly(es)
    ensures ReportedAs(s, Run(c, s, es), serverID, id, ok)
    ensures Run(c, s, es).tasks == s.tasks[id := Started(s.tasks[id], START)]
  {
    hide Run, DoPoll, Bump, Halted, PendingListed, Ran, Startable, Turn;
    var order := ListedFirst(s.tasks, serverID, id);
    var poll := ByTransfer(Poll(serverID, order, _ => START, true));
    PollHandsOut(c, s, serverID, order);
    var given := DoPoll(c, s, serverID, order, _ => START, true);
    var task := Started(s.tasks[id], START);
    StartableStays(s.tasks[id], s.agents[serverID].version);
    TurnStarts(c, given, serverID, task, ok);
    RanIs(s, given, Run(c, given, Turn(serverID, task, ok)), serverID, task, ok);
    TurnIsRemote(serverID, task, ok);
    es := [poll] + Turn(serverID, task, ok);
    RunAppend(c, s, [poll], Turn(serverID, task, ok));
    RunOne(c, s, poll);
  }

  /** One more start of `id`, with its report; the record is running. */
  predicate ReportedAs(s: State, t: State, serverID: string, id: string, ok: bool) {
    && Count(t.runs, id) == Count(s.runs, id) + 1
    && t.reports == s.reports + [Report(serverID, id, ok, "", "")]
    && id in s.tasks && id in t.tasks && t.tasks[id] == Started(s.tasks[id], START)
  }

  lemma StartableStays(t: Task, version: string)
    ensures Startable(Started(t, START), version) <==> Startable(t, version)
  {
  }

  lemma TurnIsRemote(serverID: string, task: Task, ok: bool)
    ensures RemoteOnly(Turn(serverID, task, ok))
  {
  }

  lemma RanIs(s: State, given: State, t: State, serverID: string, task: Task, ok: bool)
    requires Ran(given, t, serverID, task, ok) && given.runs == s.runs && given.reports == s.reports
    requires task.id in s.tasks && task == Started(s.tasks[task.id], START) && given.tasks == s.tasks[task.id := task]
    ensures ReportedAs(s, t, serverID, task.id, ok) && t.tasks == given.tasks
  {
    BumpGrows(s.runs, task.id);
    hide Bump;
  }

  /** From idle: a heartbeat, a poll, the execution. */
  lemma PendingIsStarted(c: Config, s: State, serverID: string, id: string, ok: bool) returns (es: seq<Event>)
    requires Keyed(s.tasks) && serverID in s.agents && s.agents[serverID].phase.Idle? && serverID in s.servers
    requires id in s.tasks && PendingFor(s.tasks[id], serverID) && Startable(s.tasks[id], s.agents[serverID].version)
    requires !Halted(s.tasks, s.tasks[id].batchID, c.failureStopPercent)
    ensures RemoteOnly(es)
    ensures ReportedAs(s, Run(c, s, es), serverID, id, ok)
    ensures var confirmed := UpdatesConfirmed(s.tasks, serverID, s.agents[serverID].version, _ => START);
            Run(c, s, es).tasks == confirmed[id := Started(s.tasks[id], START)]
  {
    hide Run, UpdatesConfirmed, Halted, Startable, BeatEvents;
    var h := Fresh(s.handlers.Keys);
    var beat := BeatEvents(serverID, |s.beats|, h);
    BeatGetsThrough(c, s, serverID, h);
    var ready := Run(c, s, beat);
    NotConfirmed(s, serverID, id);
    ConfirmationKeepsBelow(s.tasks, serverID, s.agents[serverID].version, _ => START, s.tasks[id].batchID,
                           c.failureStopPercent);
    ConfirmedIsKeyed(s.tasks, serverID, s.agents[serverID].version);
    var rest := ServedIsStarted(c, ready, serverID, id, ok);
    BeatIsRemote(serverID, |s.beats|, h);
    es := beat + rest;
    RunAppend(c, s, beat, rest);
  }

  lemma BeatIsRemote(serverID: string, n: nat, h: nat)
    ensures RemoteOnly(BeatEvents(serverID, n, h))
  {
  }

  lemma ConfirmedIsKeyed(tasks: Tasks, serverID: string, version: string)
    requires Keyed(tasks)
    ensures Keyed(UpdatesConfirmed(tasks, serverID, version, _ => START))
    ensures UpdatesConfirmed(tasks, serverID, version, _ => START).Keys == tasks.Keys
  {
  }

  lemma Fresh(used: set<nat>) returns (h: nat)
    ensures h !in used
  {
    h := if used == {} then 0 else Above(used);
  }

  ghost function Above(used: set<nat>): (h: nat)
    ensures forall x <- used :: x < h
  {
    if used == {} then 0
    else
      var x :| x in used;
      var rest := Above(used - {x});
      assert used == used - {x} + {x};
      if x < rest then rest else x + 1
  }

  lemma NotConfirmed(s: State, serverID: string, id: string)
    requires serverID in s.agents && id in s.tasks && Startable(s.tasks[id], s.agents[serverID].version)
    ensures UpdatesConfirmed(s.tasks, serverID, s.agents[serverID].version, _ => START)[id] == s.tasks[id]
  {
    hide Confirmed, ValidVersion;
  }

  // ---------- exactly when ----------

  /** An Agent that still holds a claim which a restart has put back starts the task,
      and then is handed it and starts it again. */
  lemma HeldStartsTwice(c: Config, s: State, serverID: string, id: string) returns (fs: seq<Event>)
    requires Inv(c, s) && B.Holds(s, serverID, id) && id in s.tasks && s.tasks[id].status.Pending?
             && serverID in s.servers
    requires Startable(s.tasks[id], s.agents[serverID].version)
    requires !Halted(s.tasks, s.tasks[id].batchID, c.failureStopPercent)
    ensures RemoteOnly(fs)
    ensures Count(Run(c, s, fs).runs, id) == Count(s.runs, id) + 2
    ensures Run(c, s, fs).reports ==
            s.reports + [Report(serverID, id, false, "", ""), Report(serverID, id, true, "", "")]
    ensures id in Run(c, s, fs).tasks && Run(c, s, fs).tasks[id] == Started(s.tasks[id], START)
  {
    HolderKnows(c, s, serverID, id);
    hide Inv, Run, Halted, Startable, Turn, Started, B.Holds, InHand, RemoteOnly, UpdatesConfirmed;
    var task := FirstStart(c, s, serverID, id);
    var once := Run(c, s, Turn(serverID, task, false));
    var rest := PendingIsStarted(c, once, serverID, id, true);
    TurnIsRemote(serverID, task, false);
    RemoteAppend(Turn(serverID, task, false), rest);
    fs := Turn(serverID, task, false) + rest;
    RunAppend(c, s, Turn(serverID, task, false), rest);
    TwoReports(s.reports, Report(serverID, id, false, "", ""), Report(serverID, id, true, "", ""));
  }

  lemma FirstStart(c: Config, s: State, serverID: string, id: string) returns (task: Task)
    requires B.Holds(s, serverID, id) && id in s.tasks && SameIdentity(s.agents[serverID].phase.task, s.tasks[id])
    requires Startable(s.tasks[id], s.agents[serverID].version)
    ensures var t := Run(c, s, Turn(serverID, task, false));
            && t.tasks == s.tasks && t.servers == s.servers && t.handlers == s.handlers
            && serverID in t.agents && t.agents[serverID].phase.Idle?
               && t.agents[serverID].version == s.agents[serverID].version
            && Count(t.runs, id) == Count(s.runs, id) + 1
            && t.reports == s.reports + [Report(serverID, id, false, "", "")]
  {
    task := s.agents[serverID].phase.task;
    StartableAlike(task, s.tasks[id], s.agents[serverID].version);
    TurnStarts(c, s, serverID, task, false);
    BumpGrows(s.runs, id);
    hide Run, Turn, Startable, Bump;
  }

  lemma TwoReports(reports: seq<Report>, a: Report, b: Report)
    ensures reports + [a] + [b] == reports + [a, b]
  {
  }

  lemma HolderKnows(c: Config, s: State, serverID: string, id: string)
    requires Inv(c, s) && B.Holds(s, serverID, id)
    ensures id in s.tasks && SameIdentity(s.agents[serverID].phase.task, s.tasks[id])
            && s.tasks[id].serverID == serverID
    ensures Keyed(s.tasks)
  {
    assert GoodPhase(s, serverID, s.agents[serverID]);
  }

  lemma StartableAlike(t: Task, u: Task, version: string)
    requires SameIdentity(t, u)
    ensures Startable(t, version) <==> Startable(u, version)
  {
  }

  /** For a task of a registered Agent whose execution is not ruled out from the start -
      its batch is below the threshold, and it is not an update that the Agent would not
      install: it starts at most once in every stretch without a restart exactly if the
      Agent does not hold, when the stretch begins, a claim that a restart has put back. */
  lemma RemoteStartsOnceExactly(c: Config, es: seq<Event>, serverID: string, id: string)
    requires var s := Run(c, Initial(), es);
             && id in s.tasks && s.tasks[id].serverID == serverID && serverID in s.agents && serverID in s.servers
             && Startable(s.tasks[id], s.agents[serverID].version)
             && !Halted(s.tasks, s.tasks[id].batchID, c.failureStopPercent)
    ensures var s := Run(c, Initial(), es);
            (forall fs :: NoCrash(fs) ==> Count(Run(c, s, fs).runs, id) <= Count(s.runs, id) + 1)
            <==> !(s.tasks[id].status.Pending? && B.Holds(s, serverID, id))
  {
    ReachableInv(c, es);
    var s := Run(c, Initial(), es);
    hide Run, Inv, Halted, Startable, Count, B.Holds;
    if s.tasks[id].status.Pending? && B.Holds(s, serverID, id) {
      var fs := HeldStartsTwice(c, s, serverID, id);
      RemoteOnlyStops(fs, id);
      assert NoCrash(fs) && Count(Run(c, s, fs).runs, id) > Count(s.runs, id) + 1;
    } else {
      OnlyItsAgentHolds(c, s, serverID, id);
      forall fs | NoCrash(fs)
        ensures Count(Run(c, s, fs).runs, id) <= Count(s.runs, id) + 1
      {
        StretchStarts(c, s, fs, id);
      }
    }
  }

  lemma OnlyItsAgentHolds(c: Config, s: State, serverID: string, id: string)
    requires Inv(c, s) && id in s.tasks && s.tasks[id].serverID == serverID && serverID in s.agents
    ensures PutBackInHand(s, id) ==> s.tasks[id].status.Pending? && B.Holds(s, serverID, id)
  {
    hide Inv, B.Holds;
    if PutBackInHand(s, id) {
      if WorkerHolds(s, id) {
        WorkerHoldsRunning(c, s, id);
      } else {
        var a :| a in s.agents && B.Holds(s, a, id);
        HolderKnows(c, s, a, id);
      }
    }
  }

  lemma WorkerHoldsRunning(c: Config, s: State, id: string)
    requires Inv(c, s) && WorkerHolds(s, id)
    ensures id in s.tasks && s.tasks[id].status.Running?
  {
    var w :| w in s.workers && s.workers[w] == Claimed(id);
    assert Owned(s);
    assert OwnsRunning(s.tasks, s.workers[w]);
    hide Inv, Owned;
  }
}
