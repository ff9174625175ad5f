/** Invariants of the machine that concern the stored records and what the parties
    hold of them: every one is kept by every event. */
module Invariants {
  import opened Timestamps
  import opened Types
  import opened TaskSpec
  import opened Patterns
  import opened Protocol
  import opened Evolution
  import Rollout

  // ---------- records ----------

  /** A stored expectation was announced by a heartbeat of the same server. */
  predicate DigestAnnounced(t: Task, announced: set<(string, string)>) {
    t.digest != "" ==> t.action != AGENT_UPDATE && t.serverID != LOCAL && (t.serverID, t.digest) in announced
  }

  predicate BatchKeyed(t: Task) {
    t.batchID != "" ==> t.key == t.batchID + "_" + t.serverID
  }

  /** A retry continues a finished task; a first attempt has number 0. */
  predicate Lineage(tasks: Tasks, t: Task) {
    && t.attempt >= 0
    && (t.retryOf == "" ==> t.attempt == 0)
    && (t.retryOf != "" ==>
          && t.retryOf in tasks
          && tasks[t.retryOf].status.Terminal()
          && tasks[t.retryOf].serverID == t.serverID
          && tasks[t.retryOf].action == t.action
          && tasks[t.retryOf].args == t.args
          && t.attempt == tasks[t.retryOf].attempt + 1
          && t.batchID == "")
  }

  predicate GoodTask(tasks: Tasks, t: Task, announced: set<(string, string)>) {
    && FlagAgrees(t)
    && DigestAnnounced(t, announced)
    && BatchKeyed(t)
    && Lineage(tasks, t)
  }

  predicate GoodTable(tasks: Tasks, announced: set<(string, string)>) {
    && Keyed(tasks)
    && "" !in tasks
    && UniqueKeys(tasks)
    && forall id <- tasks :: GoodTask(tasks, tasks[id], announced)
  }

  lemma LineageKept(a: Tasks, b: Tasks, t: Task, u: Task)
    requires TableEvolves(a, b) && SameIdentity(t, u) && Lineage(a, t)
    ensures Lineage(b, u)
  {
  }

  lemma TableKept(a: Tasks, b: Tasks, announced: set<(string, string)>, more: set<(string, string)>)
    requires GoodTable(a, announced) && TableEvolves(a, b) && a.Keys == b.Keys && announced <= more
    ensures GoodTable(b, more)
  {
    forall id <- b
      ensures GoodTask(b, b[id], more)
    {
      LineageKept(a, b, a[id], b[id]);
    }
  }

  // ---------- handlers, servers, Agents ----------

  predicate GoodHandler(s: State, h: Handler) {
    match h
    case Drafting(draft, _) => draft.status.Pending? && !draft.cancelRequested && GoodTask(s.tasks, draft, s.announced)
    case Retrying(original, _, digest) =>
      original in s.tasks && DigestAnnounced(s.tasks[original].(digest := digest), s.announced)
    case Verified(beat, record) => beat < |s.beats| && record.id == s.beats[beat].serverID
    case Stored(beat) => beat < |s.beats|
    case Acknowledged(beat, found) => beat < |s.beats| && s.beats[beat].known <= found <= s.tasks.Keys
  }

  predicate GoodHandlers(s: State) {
    forall h <- s.handlers :: GoodHandler(s, s.handlers[h])
  }

  predicate GoodServers(s: State) {
    forall id <- s.servers ::
      && s.servers[id].id == id
      && (s.servers[id].digest != "" ==> (id, s.servers[id].digest) in s.announced)
  }

  predicate GoodPhase(s: State, serverID: string, a: Agent) {
    match a.phase
    case Idle => true
    case AwaitingAck(n) => n < |s.beats| && s.beats[n].serverID == serverID && s.beats[n].version == a.version
    case Ready(n, found) =>
      && n < |s.beats| && s.beats[n].serverID == serverID && s.beats[n].version == a.version
      && s.beats[n].known <= found <= s.tasks.Keys
    case Given(t) => t.serverID == serverID && t.id in s.tasks && SameIdentity(t, s.tasks[t.id])
    case Cleared(t, seen) =>
      && t.serverID == serverID && t.id in s.tasks && SameIdentity(t, s.tasks[t.id])
      && (NeedsDigest(t) ==> seen == Some(t.digest))
  }

  predicate GoodAgents(s: State) {
    && LOCAL !in s.agents
    && "" !in s.agents
    && forall id <- s.agents :: GoodPhase(s, id, s.agents[id])
  }

  /** No party speaks for the local server. */
  predicate GoodMessages(s: State) {
    && (forall i :: 0 <= i < |s.beats| ==>
          s.beats[i].serverID != LOCAL && s.beats[i].serverID != "" && s.beats[i].known <= s.tasks.Keys)
    && (forall i :: 0 <= i < |s.reports| ==> s.reports[i].serverID != LOCAL)
  }

  predicate GoodExecution(s: State, x: Execution) {
    && x.task.serverID == x.serverID
    && x.task.id in s.tasks && SameIdentity(x.task, s.tasks[x.task.id])
    && (NeedsDigest(x.task) ==> x.seen == Some(x.task.digest) && (x.serverID, x.task.digest) in s.announced)
  }

  predicate GoodLog(s: State) {
    forall i :: 0 <= i < |s.executed| ==> GoodExecution(s, s.executed[i])
  }

  predicate Held(s: State) {
    && GoodTable(s.tasks, s.announced)
    && GoodHandlers(s)
    && GoodServers(s)
    && GoodAgents(s)
    && GoodMessages(s)
    && GoodLog(s)
  }

  // ---------- what each kind of event leaves alone ----------

  lemma RequestFrame(s: State, e: RequestEvent)
    ensures var t := ApplyRequest(s, e);
            t == s.(tasks := t.tasks, handlers := t.handlers, owed := t.owed)
  {
    if e.Insert? || e.Cancel? {
      hide DoStartEnqueue, DoStartBatch, DoStartRetry, DoReadOriginal, DoLookUpKey, Put, CancelOf;
    } else {
      DraftFrame(s, e);
      hide ApplyRequest;
    }
  }

  lemma DraftFrame(s: State, e: RequestEvent)
    requires !e.Insert? && !e.Cancel?
    ensures var t := ApplyRequest(s, e); t == s.(handlers := t.handlers)
  {
    hide Retryable, RetryOf, NewTask, ExpectedDigest, Rollout.Eligible;
  }

  /** A request only drafts tasks and prepares retries. */
  predicate OnlyDrafts(s: State, t: State) {
    forall h <- t.handlers ::
      (h in s.handlers && t.handlers[h] == s.handlers[h]) || t.handlers[h].Drafting? || t.handlers[h].Retrying?
  }

  lemma StartingDrafts(s: State, e: RequestEvent)
    requires e.StartEnqueue? || e.StartBatch? || e.StartRetry?
    ensures OnlyDrafts(s, ApplyRequest(s, e))
  {
  }

  lemma ContinuingDrafts(s: State, e: RequestEvent)
    requires e.ReadOriginal? || e.LookUpKey?
    ensures OnlyDrafts(s, ApplyRequest(s, e))
  {
    if e.ReadOriginal? {
      ReadingDrafts(s, e.h);
    } else {
      LookingUpDrafts(s, e.h);
    }
    hide OnlyDrafts, DoStartEnqueue, DoStartBatch, DoStartRetry, DoReadOriginal, DoLookUpKey, DoInsert, DoCancel;
  }

  lemma ReadingDrafts(s: State, h: nat)
    ensures OnlyDrafts(s, DoReadOriginal(s, h))
  {
    hide Retryable, RetryOf;
  }

  lemma LookingUpDrafts(s: State, h: nat)
    ensures OnlyDrafts(s, DoLookUpKey(s, h))
  {
  }

  lemma StoringDrafts(s: State, e: RequestEvent)
    requires e.Insert? || e.Cancel?
    ensures OnlyDrafts(s, ApplyRequest(s, e))
  {
  }

  lemma RequestHandlers(s: State, e: RequestEvent)
    ensures OnlyDrafts(s, ApplyRequest(s, e))
  {
    hide ApplyRequest, OnlyDrafts;
    if e.StartEnqueue? || e.StartBatch? || e.StartRetry? {
      StartingDrafts(s, e);
    } else if e.ReadOriginal? || e.LookUpKey? {
      ContinuingDrafts(s, e);
    } else {
      StoringDrafts(s, e);
    }
  }

  lemma WorkerFrame(c: Config, s: State, e: WorkerEvent)
    ensures var t := ApplyWorker(c, s, e);
            && t == s.(tasks := t.tasks, workers := t.workers, claims := t.claims, runs := t.runs, owed := t.owed)
            && t.tasks.Keys == s.tasks.Keys
  {
  }

  lemma BeatFrame(s: State, e: BeatEvent)
    ensures var t := ApplyBeat(s, e);
            && t == s.(tasks := t.tasks, servers := t.servers, handlers := t.handlers, agents := t.agents,
                       beats := t.beats, announced := t.announced)
            && t.tasks.Keys == s.tasks.Keys
            && s.beats <= t.beats
            && s.announced <= t.announced
  {
  }

  lemma TransferFrame(c: Config, s: State, e: TransferEvent)
    ensures var t := ApplyTransfer(c, s, e);
            && t == s.(tasks := t.tasks, agents := t.agents, claims := t.claims)
            && t.tasks.Keys == s.tasks.Keys
  {
  }

  /** What an Agent's own step can do: it moves that Agent alone, and starts at
      most one command, past the digest check. */
  predicate AgentMoved(s: State, t: State, sv: string) {
    && t == s.(agents := t.agents, reports := t.reports, runs := t.runs, executed := t.executed)
    && t.agents.Keys == s.agents.Keys
    && (forall a <- s.agents :: a != sv ==> t.agents[a] == s.agents[a])
    && (sv in s.agents ==> PhaseMoved(s.agents[sv], t.agents[sv]))
    && s.reports <= t.reports
    && (forall i :: |s.reports| <= i < |t.reports| ==> sv in s.agents && t.reports[i].serverID == sv)
    && ((t.runs == s.runs && t.executed == s.executed) || CommandStarted(s, t, sv))
  }

  predicate PhaseMoved(a: Agent, b: Agent) {
    || b.phase.Idle?
    || (b.phase == a.phase && b.version == a.version)
    || (a.phase.Given? && b.phase == Cleared(a.phase.task, a.digest)
        && (NeedsDigest(a.phase.task) ==> a.digest == Some(a.phase.task.digest)))
  }

  predicate CommandStarted(s: State, t: State, sv: string) {
    && sv in s.agents && sv in t.agents
    && s.agents[sv].phase.Cleared? && t.agents[sv].phase.Idle?
    && t.runs == Bump(s.runs, s.agents[sv].phase.task.id)
    && t.executed == s.executed + [Execution(sv, s.agents[sv].phase.task, s.agents[sv].phase.seen)]
  }

  lemma ReportingMoves(s: State, t: State, sv: string, next: Agent, posted: seq<Report>)
    requires sv in s.agents && PhaseMoved(s.agents[sv], next)
    requires t == s.(agents := s.agents[sv := next], reports := s.reports + posted)
    requires forall i :: 0 <= i < |posted| ==> posted[i].serverID == sv
    ensures AgentMoved(s, t, sv)
  {
  }

  lemma CheckMoves(s: State, sv: string)
    ensures AgentMoved(s, DoCheckDigest(s, sv), sv)
  {
    hide CommandStarted;
    if sv in s.agents && s.agents[sv].phase.Given? {
      var a := s.agents[sv];
      var drift := NeedsDigest(a.phase.task) && a.digest != Some(a.phase.task.digest);
      var next := a.(phase := if drift then Idle else Cleared(a.phase.task, a.digest));
      var posted := if drift then [Report(sv, a.phase.task.id, false, "", DRIFT)] else [];
      assert s.reports + [] == s.reports;
      hide AgentMoved, NeedsDigest;
      ReportingMoves(s, DoCheckDigest(s, sv), sv, next, posted);
    }
  }

  lemma StartingMoves(s: State, t: State, sv: string, next: Agent, posted: Report)
    requires sv in s.agents && s.agents[sv].phase.Cleared? && next.phase.Idle? && posted.serverID == sv
    requires t == s.(agents := s.agents[sv := next], reports := s.reports + [posted],
                     runs := Bump(s.runs, s.agents[sv].phase.task.id),
                     executed := s.executed + [Execution(sv, s.agents[sv].phase.task, s.agents[sv].phase.seen)])
    ensures AgentMoved(s, t, sv)
  {
  }

  lemma RunMoves(s: State, sv: string, success: bool, after: Option<string>, output: string, problem: string)
    ensures AgentMoved(s, DoRunCommand(s, sv, success, after, output, problem), sv)
  {
    Stays(s, sv);
    if sv in s.agents && s.agents[sv].phase.Cleared? && s.agents[sv].phase.task.action != AGENT_UPDATE {
      var a := s.agents[sv];
      StartingMoves(s, DoRunCommand(s, sv, success, after, output, problem), sv, a.(digest := after, phase := Idle),
                    Report(sv, a.phase.task.id, success, output, problem));
    }
    hide AgentMoved, Bump;
  }

  lemma Stays(s: State, sv: string)
    ensures AgentMoved(s, s, sv)
  {
  }

  lemma UpdateMoves(s: State, sv: string, success: bool, output: string, problem: string)
    ensures AgentMoved(s, DoSelfUpdate(s, sv, success, output, problem), sv)
  {
    Stays(s, sv);
    hide AgentMoved, Bump, ValidVersion, TextOf;
    if sv in s.agents && s.agents[sv].phase.Cleared? && s.agents[sv].phase.task.action == AGENT_UPDATE {
      var a := s.agents[sv];
      var version := TextOf(a.phase.task.args, "version");
      if ValidVersion(version) && version != a.version {
        InstallMoves(s, sv, success, output, problem);
      } else {
        AnswerMoves(s, sv, success, output, problem);
      }
      hide DoSelfUpdate;
    }
  }

  lemma InstallMoves(s: State, sv: string, success: bool, output: string, problem: string)
    requires sv in s.agents && s.agents[sv].phase.Cleared? && s.agents[sv].phase.task.action == AGENT_UPDATE
    requires var version := TextOf(s.agents[sv].phase.task.args, "version");
             ValidVersion(version) && version != s.agents[sv].version
    ensures AgentMoved(s, DoSelfUpdate(s, sv, success, output, problem), sv)
  {
  }

  lemma AnswerMoves(s: State, sv: string, success: bool, output: string, problem: string)
    requires sv in s.agents && s.agents[sv].phase.Cleared? && s.agents[sv].phase.task.action == AGENT_UPDATE
    requires var version := TextOf(s.agents[sv].phase.task.args, "version");
             !(ValidVersion(version) && version != s.agents[sv].version)
    ensures AgentMoved(s, DoSelfUpdate(s, sv, success, output, problem), sv)
  {
  }

  lemma RefuseMoves(s: State, sv: string, problem: string)
    ensures AgentMoved(s, DoRefuseCommand(s, sv, problem), sv)
  {
    Stays(s, sv);
    if sv in s.agents && s.agents[sv].phase.Cleared? && s.agents[sv].phase.task.action != AGENT_UPDATE {
      var a := s.agents[sv];
      ReportingMoves(s, DoRefuseCommand(s, sv, problem), sv, a.(phase := Idle),
                     [Report(sv, a.phase.task.id, false, "", problem)]);
    }
    hide AgentMoved;
  }

  lemma OtherMoves(s: State, sv: string, version: string, after: Option<string>)
    ensures AgentMoved(s, DoRestartAgent(s, sv, version), sv)
    ensures AgentMoved(s, DoLocalEdit(s, sv, after), sv)
  {
  }

  lemma AgentMoves(s: State, e: AgentEvent)
    ensures AgentMoved(s, ApplyAgent(s, e), e.serverID)
  {
    hide AgentMoved, DoCheckDigest, DoRunCommand, DoSelfUpdate, DoRefuseCommand, DoRestartAgent, DoLocalEdit;
    match e {
      case CheckDigest(sv) => CheckMoves(s, sv);
      case RunCommand(sv, success, after, output, problem) => RunMoves(s, sv, success, after, output, problem);
      case SelfUpdate(sv, success, output, problem) => UpdateMoves(s, sv, success, output, problem);
      case RefuseCommand(sv, problem) => RefuseMoves(s, sv, problem);
      case RestartAgent(sv, version) => OtherMoves(s, sv, version, None);
      case LocalEdit(sv, after) => OtherMoves(s, sv, "", after);
    }
  }

  lemma AgentFrame(s: State, e: AgentEvent)
    ensures var t := ApplyAgent(s, e);
            && t == s.(agents := t.agents, reports := t.reports, runs := t.runs, executed := t.executed)
  {
    AgentMoves(s, e);
    hide ApplyAgent, PhaseMoved, CommandStarted;
  }

  /** What a heartbeat's step can do to an Agent: nothing, send it, give up, or
      acknowledge the one it waits for. */
  predicate BeatMoved(s: State, t: State, sv: string, a: Agent) {
    || (sv in s.agents && a == s.agents[sv])
    || a.phase.Idle?
    || (sv in s.agents && a.phase == AwaitingAck(|s.beats|) && a.version == s.agents[sv].version
        && |t.beats| == |s.beats| + 1 && t.beats[|s.beats|].serverID == sv && t.beats[|s.beats|].version == a.version)
    || (sv in s.agents && a.phase.Ready? && a.version == s.agents[sv].version
        && s.agents[sv].phase == AwaitingAck(a.phase.beat)
        && exists h <- s.handlers :: s.handlers[h] == Acknowledged(a.phase.beat, a.phase.found))
  }

  predicate BeatsMoved(s: State, t: State) {
    && t.agents.Keys == s.agents.Keys
    && forall sv <- t.agents :: BeatMoved(s, t, sv, t.agents[sv])
  }

  lemma BeatMoves(s: State, e: BeatEvent)
    ensures BeatsMoved(s, ApplyBeat(s, e))
  {
  }

  /** What a poll or a result can do to an Agent: nothing, or answer its poll. */
  predicate TransferMoved(c: Config, s: State, t: State) {
    && t.agents.Keys == s.agents.Keys
    && (t.claims == s.claims || exists id <- s.tasks :: t.claims == Bump(s.claims, id))
    && forall sv <- t.agents ::
         || t.agents[sv] == s.agents[sv]
         || t.agents[sv].phase.Idle?
         || GivenTask(s, t, sv)
  }

  predicate GivenTask(s: State, t: State, sv: string) {
    && sv in t.agents && sv in s.agents && s.agents[sv].phase.Ready?
    && t.agents[sv].phase.Given?
    && var task := t.agents[sv].phase.task;
       && task.id in s.tasks && task.id in t.tasks && t.tasks[task.id] == task
       && task.serverID == sv
       && t.claims == Bump(s.claims, task.id)
  }

  lemma PollMoves(c: Config, s: State, sv: string, order: seq<string>, when: string -> Instant, delivered: bool)
    requires Keyed(s.tasks)
    ensures TransferMoved(c, s, DoPoll(c, s, sv, order, when, delivered))
  {
    var t := DoPoll(c, s, sv, order, when, delivered);
    if t != s && Polled(s.tasks, order, c.failureStopPercent, when).1.Some? {
      PolledTask(s.tasks, sv, order, c.failureStopPercent, when);
      var task := Polled(s.tasks, order, c.failureStopPercent, when).1.value;
      assert t.claims == Bump(s.claims, task.id);
      if delivered {
        assert t.agents == WithPhase(s.agents, sv, Given(task));
        assert GivenTask(s, t, sv);
      }
    }
    hide Polled, PendingListed, Keyed, Bump, SameIdentity, GivenTask;
  }

  lemma TransferMoves(c: Config, s: State, e: TransferEvent)
    requires Keyed(s.tasks)
    ensures TransferMoved(c, s, ApplyTransfer(c, s, e))
  {
    hide DoPoll, Reported, Keyed;
    if e.Poll? {
      PollMoves(c, s, e.serverID, e.order, e.when, e.delivered);
    }
  }

  // ---------- facts that survive growth ----------

  /** Every step grows the history: records evolve, nothing announced is forgotten. */
  predicate Grows(s: State, t: State) {
    && TableEvolves(s.tasks, t.tasks)
    && s.announced <= t.announced
    && s.beats <= t.beats
  }

  lemma HandlerKept(s: State, t: State, h: Handler)
    requires Grows(s, t) && GoodHandler(s, h)
    ensures GoodHandler(t, h)
  {
  }

  lemma HandlersKept(s: State, t: State)
    requires Grows(s, t) && GoodHandlers(s)
    ensures forall h <- s.handlers :: GoodHandler(t, s.handlers[h])
  {
  }

  lemma PhasesKept(s: State, t: State)
    requires Grows(s, t) && GoodAgents(s)
    ensures forall id <- s.agents :: GoodPhase(t, id, s.agents[id])
  {
  }

  lemma LogKept(s: State, t: State)
    requires Grows(s, t) && GoodLog(s)
    ensures forall i :: 0 <= i < |s.executed| ==> GoodExecution(t, s.executed[i])
  {
  }

  lemma MessagesKept(s: State, t: State)
    requires Grows(s, t) && GoodMessages(s)
    ensures forall i :: 0 <= i < |s.beats| ==>
              s.beats[i].serverID != LOCAL && s.beats[i].serverID != "" && s.beats[i].known <= t.tasks.Keys
  {
  }

  // ---------- the table ----------

  /** A new record joins the table: its key is free, its draft was good. */
  lemma InsertKeepsTable(s: State, h: nat, id: string, now: Instant)
    requires GoodTable(s.tasks, s.announced) && GoodHandlers(s)
    ensures GoodTable(DoInsert(s, h, id, now).tasks, s.announced)
  {
    if h in s.handlers && s.handlers[h].Drafting? && id != "" && id !in s.tasks {
      var t := s.handlers[h].draft.(id := id, created := now);
      assert GoodHandler(s, s.handlers[h]);
      if KeyFree(s.tasks, t) {
        JoinTable(s.tasks, t, s.announced);
      }
    }
    hide GoodTable, GoodHandler;
  }

  lemma JoinTable(tasks: Tasks, t: Task, announced: set<(string, string)>)
    requires GoodTable(tasks, announced) && t.id !in tasks && t.id != "" && KeyFree(tasks, t)
    requires FlagAgrees(t) && DigestAnnounced(t, announced) && BatchKeyed(t) && Lineage(tasks, t)
    ensures GoodTable(tasks[t.id := t], announced)
  {
  }

  lemma RequestKeepsTable(s: State, e: RequestEvent)
    requires GoodTable(s.tasks, s.announced) && GoodHandlers(s)
    ensures GoodTable(ApplyRequest(s, e).tasks, s.announced)
  {
    hide GoodTable, GoodHandlers, DoInsert, Rollout.Eligible, TableEvolves;
    match e {
      case Insert(h, id, now) => InsertKeepsTable(s, h, id, now);
      case Cancel(id, now) =>
        CancelStep(s, id, now);
        TableKept(s.tasks, DoCancel(s, id, now).tasks, s.announced, s.announced);
      case _ =>
    }
  }

  // ---------- requests ----------

  lemma EnqueueDraftsGood(s: State, serverID: string, action: string, args: Args, key: string, batchID: string)
    requires GoodServers(s) && serverID in s.servers
    requires batchID != "" ==> key == batchID + "_" + serverID
    ensures var digest := ExpectedDigest(s.servers[serverID], action);
            GoodTask(s.tasks, NewTask("", serverID, action, args, key, batchID, digest, START), s.announced)
  {
  }

  lemma RetryDraftsGood(s: State, original: string, key: string, digest: string)
    requires GoodTable(s.tasks, s.announced) && original in s.tasks && Retryable(s.tasks[original])
    requires DigestAnnounced(s.tasks[original].(digest := digest), s.announced)
    ensures GoodTask(s.tasks, RetryOf(s.tasks[original], "", key, digest, START), s.announced)
  {
  }

  lemma RetryDigestGood(s: State, id: string)
    requires GoodServers(s) && id in s.tasks && s.tasks[id].serverID in s.servers
    ensures var digest := ExpectedDigest(s.servers[s.tasks[id].serverID], s.tasks[id].action);
            DigestAnnounced(s.tasks[id].(digest := digest), s.announced)
  {
  }

  lemma RequestKeepsHandlers(s: State, e: RequestEvent)
    requires GoodTable(s.tasks, s.announced) && GoodHandlers(s) && GoodServers(s)
    ensures GoodHandlers(ApplyRequest(s, e))
  {
    var t := ApplyRequest(s, e);
    RequestFrame(s, e);
    RequestEvolves(s, e);
    HandlersKept(s, t);
    NewHandlersGood(s, e);
    forall h <- t.handlers
      ensures GoodHandler(t, t.handlers[h])
    {
      if h !in s.handlers || t.handlers[h] != s.handlers[h] {
        HandlerKept(s, t, t.handlers[h]);
      }
    }
    hide GoodHandler, ApplyRequest, Grows, GoodTable, GoodServers;
  }

  /** Every handler that a request adds or advances is good. */
  lemma NewHandlersGood(s: State, e: RequestEvent)
    requires GoodTable(s.tasks, s.announced) && GoodHandlers(s) && GoodServers(s)
    ensures forall h <- ApplyRequest(s, e).handlers :: GoodHandler(s, ApplyRequest(s, e).handlers[h])
  {
    if e.Insert? || e.Cancel? {
      StoringAddsNoHandler(s, e);
    } else if e.ReadOriginal? || e.LookUpKey? {
      ContinuedHandlersGood(s, e);
    } else {
      StartedHandlersGood(s, e);
    }
    hide ApplyRequest, GoodHandler, GoodTable, GoodServers;
  }

  lemma StartedHandlersGood(s: State, e: RequestEvent)
    requires GoodTable(s.tasks, s.announced) && GoodHandlers(s) && GoodServers(s)
    requires e.StartEnqueue? || e.StartBatch? || e.StartRetry?
    ensures forall h <- ApplyRequest(s, e).handlers :: GoodHandler(s, ApplyRequest(s, e).handlers[h])
  {
    hide GoodTable, GoodServers, GoodTask, DigestAnnounced, Rollout.Eligible;
    hide DoReadOriginal, DoLookUpKey, DoInsert, DoCancel;
    match e {
      case StartEnqueue(h, serverID, action, args, key) =>
        if serverID in s.servers {
          EnqueueDraftsGood(s, serverID, action, args, key, "");
        }
      case StartBatch(h, batchID, serverID, action, args) =>
        if serverID in s.servers {
          var batch := "batch_" + batchID;
          EnqueueDraftsGood(s, serverID, action, args, batch + "_" + serverID, batch);
        }
      case StartRetry(h, id, key) =>
        if id in s.tasks && s.tasks[id].serverID in s.servers {
          RetryDigestGood(s, id);
        }
    }
  }

  lemma ContinuedHandlersGood(s: State, e: RequestEvent)
    requires GoodTable(s.tasks, s.announced) && GoodHandlers(s)
    requires e.ReadOriginal? || e.LookUpKey?
    ensures forall h <- ApplyRequest(s, e).handlers :: GoodHandler(s, ApplyRequest(s, e).handlers[h])
  {
    hide GoodTable, GoodTask, DigestAnnounced, Retryable;
    hide DoStartEnqueue, DoStartBatch, DoStartRetry, DoInsert, DoCancel;
    if e.ReadOriginal? && e.h in s.handlers && s.handlers[e.h].Retrying? {
      var r := s.handlers[e.h];
      assert GoodHandler(s, r);
      if Retryable(s.tasks[r.original]) {
        RetryDraftsGood(s, r.original, r.key, r.digest);
      }
    }
  }

  lemma StoringAddsNoHandler(s: State, e: RequestEvent)
    requires e.Insert? || e.Cancel?
    ensures forall h <- ApplyRequest(s, e).handlers ::
              h in s.handlers && ApplyRequest(s, e).handlers[h] == s.handlers[h]
  {
  }

  lemma RequestKeepsHeld(s: State, e: RequestEvent)
    requires Held(s)
    ensures Held(ApplyRequest(s, e))
  {
    var t := ApplyRequest(s, e);
    RequestFrame(s, e);
    RequestEvolves(s, e);
    RequestKeepsTable(s, e);
    RequestKeepsHandlers(s, e);
    PhasesKept(s, t);
    LogKept(s, t);
    MessagesKept(s, t);
    hide ApplyRequest, GoodTable, GoodHandlers, GoodPhase, GoodExecution, Grows, TableEvolves;
  }

  // ---------- workers ----------

  lemma WorkerKeepsHeld(c: Config, s: State, e: WorkerEvent)
    requires Held(s)
    ensures Held(ApplyWorker(c, s, e))
  {
    hide ApplyWorker, GoodTable, GoodHandler, GoodPhase, GoodExecution, TableEvolves;
    var t := ApplyWorker(c, s, e);
    WorkerFrame(c, s, e);
    WorkerEvolves(c, s, e);
    TableKept(s.tasks, t.tasks, s.announced, s.announced);
    HandlersKept(s, t);
    PhasesKept(s, t);
    LogKept(s, t);
    MessagesKept(s, t);
  }

  // ---------- restarts, registration, revocation ----------

  lemma AdminKeepsHeld(s: State, e: AdminEvent)
    requires Held(s)
    ensures Held(ApplyAdmin(s, e))
  {
    var t := ApplyAdmin(s, e);
    AdminEvolves(s, e);
    AdminFrame(s, e);
    TableKept(s.tasks, t.tasks, s.announced, s.announced);
    HandlersKept(s, t);
    PhasesKept(s, t);
    LogKept(s, t);
    MessagesKept(s, t);
    AdminKeepsServers(s, e);
    AdminKeepsAgents(s, e);
    hide ApplyAdmin, GoodTable, GoodHandler, GoodServers, GoodAgents, GoodExecution, Grows, TableEvolves;
  }

  lemma CrashFrame(s: State, now: Instant)
    ensures var t := DoCrash(s, now);
            && t == s.(tasks := Recovered(s.tasks), servers := t.servers, handlers := map[], workers := map[],
                       requeues := t.requeues, owed := t.owed)
  {
    hide Recovered, LocalPending, LocalRecord;
  }

  lemma RegisterFrame(s: State, serverID: string, version: string, digest: Option<string>, now: Instant)
    ensures var t := DoRegister(s, serverID, version, digest, now);
            && t == s.(servers := t.servers, agents := t.agents)
            && (t.agents == s.agents || (serverID != LOCAL && serverID != ""
                                         && t.agents == s.agents[serverID := Agent(version, digest, Idle)]))
  {
  }

  lemma AdminFrame(s: State, e: AdminEvent)
    ensures var t := ApplyAdmin(s, e);
            && t == s.(tasks := t.tasks, servers := t.servers, handlers := t.handlers, workers := t.workers,
                       agents := t.agents, requeues := t.requeues, owed := t.owed)
            && t.tasks.Keys == s.tasks.Keys
            && (t.handlers == s.handlers || t.handlers == map[])
            && (t.workers == s.workers || t.workers == map[])
            && (t.agents == s.agents || (e.Register? && e.serverID != LOCAL && e.serverID != ""
                                         && t.agents == s.agents[e.serverID := Agent(e.version, e.digest, Idle)]))
  {
    hide DoCrash, DoRegister;
    RecoveredKeys(s.tasks);
    if e.Crash? {
      CrashFrame(s, e.now);
    } else if e.Register? {
      RegisterFrame(s, e.serverID, e.version, e.digest, e.now);
    }
    hide Recovered;
  }

  lemma RecoveredKeys(tasks: Tasks)
    ensures Recovered(tasks).Keys == tasks.Keys
  {
  }

  lemma AdminKeepsAgents(s: State, e: AdminEvent)
    requires GoodAgents(s)
    ensures GoodAgents(ApplyAdmin(s, e))
  {
    var t := ApplyAdmin(s, e);
    AdminEvolves(s, e);
    AdminFrame(s, e);
    PhasesKept(s, t);
    hide ApplyAdmin, Grows, TableEvolves;
  }

  lemma AdminKeepsServers(s: State, e: AdminEvent)
    requires GoodServers(s)
    ensures GoodServers(ApplyAdmin(s, e))
  {
  }

  // ---------- heartbeats ----------

  lemma BeatKeepsServers(s: State, e: BeatEvent)
    requires GoodServers(s) && GoodHandlers(s)
    ensures GoodServers(ApplyBeat(s, e))
  {
  }

  lemma BeatKeepsHandlers(s: State, e: BeatEvent)
    requires GoodHandlers(s) && GoodServers(s) && GoodMessages(s)
    ensures GoodHandlers(ApplyBeat(s, e))
  {
    var t := ApplyBeat(s, e);
    BeatFrame(s, e);
    BeatEvolves(s, e);
    HandlersKept(s, t);
    BeatHandlers(s, e);
    forall h <- t.handlers
      ensures GoodHandler(t, t.handlers[h])
    {
      if h !in s.handlers || t.handlers[h] != s.handlers[h] {
        HandlerKept(s, t, t.handlers[h]);
      }
    }
    hide GoodHandler, ApplyBeat, Grows, GoodServers, GoodMessages;
  }

  lemma BeatHandlers(s: State, e: BeatEvent)
    requires GoodHandlers(s) && GoodServers(s) && GoodMessages(s)
    ensures forall h <- ApplyBeat(s, e).handlers :: GoodHandler(s, ApplyBeat(s, e).handlers[h])
  {
  }

  lemma BeatKeepsAgents(s: State, e: BeatEvent)
    requires GoodAgents(s) && GoodHandlers(s)
    ensures GoodAgents(ApplyBeat(s, e))
  {
    var t := ApplyBeat(s, e);
    BeatFrame(s, e);
    BeatEvolves(s, e);
    PhasesKept(s, t);
    BeatMoves(s, e);
    forall sv <- t.agents
      ensures GoodPhase(t, sv, t.agents[sv])
    {
      assert BeatMoved(s, t, sv, t.agents[sv]);
      assert GoodPhase(t, sv, s.agents[sv]);
      if exists h <- s.handlers ::
           s.handlers[h].Acknowledged? && t.agents[sv].phase == Ready(s.handlers[h].beat, s.handlers[h].found) {
        var h :| h in s.handlers && s.handlers[h].Acknowledged?
            && t.agents[sv].phase == Ready(s.handlers[h].beat, s.handlers[h].found);
        assert GoodHandler(s, s.handlers[h]);
      }
    }
    hide ApplyBeat, TableEvolves, Grows, SameIdentity;
  }

  lemma BeatKeepsMessages(s: State, e: BeatEvent)
    requires GoodMessages(s) && GoodAgents(s)
    ensures GoodMessages(ApplyBeat(s, e))
  {
  }

  lemma BeatKeepsHeld(s: State, e: BeatEvent)
    requires Held(s)
    ensures Held(ApplyBeat(s, e))
  {
    var t := ApplyBeat(s, e);
    BeatFrame(s, e);
    BeatEvolves(s, e);
    TableKept(s.tasks, t.tasks, s.announced, t.announced);
    BeatKeepsServers(s, e);
    BeatKeepsHandlers(s, e);
    BeatKeepsAgents(s, e);
    BeatKeepsMessages(s, e);
    LogKept(s, t);
    hide ApplyBeat, GoodTable, GoodHandlers, GoodServers, GoodAgents, GoodMessages, GoodExecution, Grows;
  }

  // ---------- polls, results, Agents ----------

  lemma PolledTask(tasks: Tasks, serverID: string, order: seq<string>, threshold: int, when: string -> Instant)
    requires PendingListed(tasks, serverID, order) && Keyed(tasks)
    requires Polled(tasks, order, threshold, when).1.Some?
    ensures var t := Polled(tasks, order, threshold, when).1.value;
            var after := Polled(tasks, order, threshold, when).0;
            && t.id in tasks && tasks[t.id].status.Pending? && t.serverID == serverID
            && t.id in after && after[t.id] == t && t.status.Running?
            && SameIdentity(t, tasks[t.id])
  {
  }

  lemma TransferKeepsAgents(c: Config, s: State, e: TransferEvent)
    requires GoodAgents(s) && GoodTable(s.tasks, s.announced)
    ensures GoodAgents(ApplyTransfer(c, s, e))
  {
    var t := ApplyTransfer(c, s, e);
    TransferFrame(c, s, e);
    TransferEvolves(c, s, e);
    TransferMoves(c, s, e);
    hide ApplyTransfer, TableEvolves, GoodTable, Grows, GoodPhase, TransferMoved;
    PhasesKept(s, t);
    SameAgents(c, s, t);
    forall sv <- t.agents
      ensures GoodPhase(t, sv, t.agents[sv])
    {
      TransferredPhase(c, s, t, sv);
    }
  }

  lemma SameAgents(c: Config, s: State, t: State)
    requires TransferMoved(c, s, t)
    ensures t.agents.Keys == s.agents.Keys
  {
  }

  lemma TransferredPhase(c: Config, s: State, t: State, sv: string)
    requires TransferMoved(c, s, t) && sv in t.agents && sv in s.agents && GoodPhase(t, sv, s.agents[sv])
    ensures GoodPhase(t, sv, t.agents[sv])
  {
    hide Bump;
  }

  lemma TransferKeepsHeld(c: Config, s: State, e: TransferEvent)
    requires Held(s)
    ensures Held(ApplyTransfer(c, s, e))
  {
    hide ApplyTransfer, GoodTable, GoodHandler, GoodAgents, GoodExecution, TableEvolves;
    var t := ApplyTransfer(c, s, e);
    TransferFrame(c, s, e);
    TransferEvolves(c, s, e);
    TableKept(s.tasks, t.tasks, s.announced, s.announced);
    HandlersKept(s, t);
    TransferKeepsAgents(c, s, e);
    LogKept(s, t);
    MessagesKept(s, t);
  }

  lemma AgentKeepsAgents(s: State, e: AgentEvent)
    requires GoodAgents(s)
    ensures GoodAgents(ApplyAgent(s, e))
  {
    var t := ApplyAgent(s, e);
    AgentMoves(s, e);
    Unchanged(s.tasks);
    PhasesKept(s, t);
    forall sv <- t.agents
      ensures GoodPhase(t, sv, t.agents[sv])
    {
      assert GoodPhase(t, sv, s.agents[sv]);
    }
    hide ApplyAgent, CommandStarted, SameIdentity, TableEvolves;
  }

  /** A command starts only past the digest check, on a task of the Agent's own. */
  lemma AgentKeepsLog(s: State, e: AgentEvent)
    requires GoodAgents(s) && GoodLog(s) && GoodTable(s.tasks, s.announced)
    ensures GoodLog(ApplyAgent(s, e))
  {
    var t := ApplyAgent(s, e);
    AgentMoves(s, e);
    Unchanged(s.tasks);
    LogKept(s, t);
    if CommandStarted(s, t, e.serverID) {
      var a := s.agents[e.serverID];
      assert GoodPhase(s, e.serverID, a);
      assert GoodTask(s.tasks, s.tasks[a.phase.task.id], s.announced);
      assert GoodExecution(s, Execution(e.serverID, a.phase.task, a.phase.seen));
    }
    hide ApplyAgent, SameIdentity, TableEvolves, GoodTable, GoodPhase, GoodTask;
  }

  lemma AgentKeepsMessages(s: State, e: AgentEvent)
    requires GoodAgents(s) && GoodMessages(s)
    ensures GoodMessages(ApplyAgent(s, e))
  {
    AgentMoves(s, e);
    hide ApplyAgent, PhaseMoved, CommandStarted, GoodPhase;
  }

  lemma AgentKeepsHeld(s: State, e: AgentEvent)
    requires Held(s)
    ensures Held(ApplyAgent(s, e))
  {
    var t := ApplyAgent(s, e);
    AgentFrame(s, e);
    Unchanged(s.tasks);
    HandlersKept(s, t);
    AgentKeepsAgents(s, e);
    AgentKeepsLog(s, e);
    AgentKeepsMessages(s, e);
    hide ApplyAgent, GoodTable, GoodHandler, GoodAgents, GoodLog, GoodMessages, Grows, TableEvolves;
  }

  lemma StepKeepsHeld(c: Config, s: State, e: Event)
    requires Held(s)
    ensures Held(Apply(c, s, e))
  {
    hide Held, ApplyRequest, ApplyWorker, ApplyAdmin, ApplyBeat, ApplyTransfer, ApplyAgent;
    match e {
      case ByRequest(r) => RequestKeepsHeld(s, r);
      case ByWorker(w) => WorkerKeepsHeld(c, s, w);
      case ByAdmin(a) => AdminKeepsHeld(s, a);
      case ByBeat(b) => BeatKeepsHeld(s, b);
      case ByTransfer(t) => TransferKeepsHeld(c, s, t);
      case ByAgent(a) => AgentKeepsHeld(s, a);
    }
  }
}
