/** Counting claims, requeues and executions: a task is claimed at most once more
    than restarts put it back, and executed no more often than it was claimed. */
module Claims {
  import opened Timestamps
  import opened Types
  import opened TaskSpec
  import opened Patterns
  import opened Protocol
  import opened Evolution
  import opened Invariants
  import opened Pool
  import Rollout

  /** A pending task has been put back as often as it was claimed; a running one
      is claimed once more; a finished one may be either. */
  predicate Balanced(t: Task, claims: nat, requeues: nat) {
    && requeues <= claims <= requeues + 1
    && (t.status.Pending? ==> claims == requeues)
    && (t.status.Running? ==> claims == requeues + 1)
  }

  predicate Counted(tasks: Tasks, claims: map<string, nat>, requeues: map<string, nat>) {
    && claims.Keys <= tasks.Keys
    && requeues.Keys <= tasks.Keys
    && forall id <- tasks :: Balanced(tasks[id], Count(claims, id), Count(requeues, id))
  }

  /** Statuses stay or become terminal, and new tasks are pending. */
  predicate Calm(a: Tasks, b: Tasks) {
    && a.Keys <= b.Keys
    && (forall id <- a :: b[id].status == a[id].status || b[id].status.Terminal())
    && (forall id <- b :: id !in a ==> b[id].status.Pending?)
  }

  lemma CalmUnchanged(tasks: Tasks)
    ensures Calm(tasks, tasks)
  {
  }

  lemma CalmReplaced(tasks: Tasks, id: string, t: Task)
    requires if id in tasks then t.status == tasks[id].status || t.status.Terminal() else t.status.Pending?
    ensures Calm(tasks, tasks[id := t])
  {
  }

  lemma CalmKeepsCount(a: Tasks, b: Tasks, claims: map<string, nat>, requeues: map<string, nat>)
    requires Counted(a, claims, requeues) && Calm(a, b)
    ensures Counted(b, claims, requeues)
  {
  }

  /** One pending task is claimed, everything else is calm. */
  lemma ClaimKeepsCount(a: Tasks, b: Tasks, id: string, t: Task, claims: map<string, nat>, requeues: map<string, nat>)
    requires Counted(a, claims, requeues) && Calm(a, b) && id in a && a[id].status.Pending? && t.status.Running?
    ensures Counted(b[id := t], Bump(claims, id), requeues)
  {
    BumpGrows(claims, id);
    CalmKeepsCount(a, b, claims, requeues);
    assert Balanced(a[id], Count(claims, id), Count(requeues, id));
    hide Bump, Count, Calm;
  }

  lemma RecoveryKeepsCount(tasks: Tasks, claims: map<string, nat>, requeues: map<string, nat>)
    requires Counted(tasks, claims, requeues)
    ensures Counted(Recovered(tasks), claims,
                    map id <- tasks :: Count(requeues, id) + if tasks[id].status.Running? then 1 else 0)
  {
  }

  // ---------- calm steps ----------

  lemma RequestCalm(s: State, e: RequestEvent)
    requires GoodHandlers(s)
    ensures Calm(s.tasks, ApplyRequest(s, e).tasks)
  {
    CalmUnchanged(s.tasks);
    hide Calm, DoInsert, DoCancel, Rollout.Eligible, Retryable;
    match e {
      case Insert(h, id, now) => InsertCalm(s, h, id, now);
      case Cancel(id, now) => CancelCalm(s, id, now);
      case _ =>
    }
  }

  lemma InsertCalm(s: State, h: nat, id: string, now: Instant)
    requires GoodHandlers(s)
    ensures Calm(s.tasks, DoInsert(s, h, id, now).tasks)
  {
  }

  lemma CancelCalm(s: State, id: string, now: Instant)
    ensures Calm(s.tasks, DoCancel(s, id, now).tasks)
  {
    CalmUnchanged(s.tasks);
    if id in s.tasks && CancelOf(s.tasks[id], now).Ok? {
      CalmReplaced(s.tasks, id, CancelOf(s.tasks[id], now).value);
    }
    hide Calm, CancelOf;
  }

  lemma ReportCalm(tasks: Tasks, id: string, success: bool, output: string, problem: string, now: Instant)
    requires id in tasks
    ensures Calm(tasks, tasks[id := Reported(tasks[id], success, output, problem, now)])
  {
  }

  lemma ConfirmationCalm(tasks: Tasks, serverID: string, version: string, when: string -> Instant)
    ensures Calm(tasks, UpdatesConfirmed(tasks, serverID, version, when))
  {
  }

  lemma BeatCalm(s: State, e: BeatEvent)
    ensures Calm(s.tasks, ApplyBeat(s, e).tasks)
  {
    CalmUnchanged(s.tasks);
    BeatsOnlyConfirm(s, e);
    if e.ConfirmBeat? && e.h in s.handlers && s.handlers[e.h].Stored? && s.handlers[e.h].beat < |s.beats| {
      var b := s.beats[s.handlers[e.h].beat];
      ConfirmationCalm(s.tasks, b.serverID, b.version, e.when);
    }
    hide Calm, UpdatesConfirmed, DoSendBeat, DoStoreBeat, DoAckBeat;
  }

  lemma PrefixFailedCalm(tasks: Tasks, order: seq<string>, k: nat, when: string -> Instant)
    requires k <= |order|
    ensures Calm(tasks, PrefixFailed(tasks, order, k, when))
  {
  }

  // ---------- the count over a step ----------

  predicate CountedState(s: State) {
    Counted(s.tasks, s.claims, s.requeues)
  }

  lemma ClaimCounts(s: State, w: nat, now: Instant)
    requires CountedState(s)
    ensures CountedState(DoClaim(s, w, now))
  {
    if w in s.workers && s.workers[w].id in s.tasks && s.tasks[s.workers[w].id].status.Pending? {
      var id := s.workers[w].id;
      CalmUnchanged(s.tasks);
      ClaimKeepsCount(s.tasks, s.tasks, id, Started(s.tasks[id], now), s.claims, s.requeues);
    }
    hide Counted, Calm, Bump, Started;
  }

  lemma FinishCounts(s: State, w: nat, now: Instant)
    requires CountedState(s)
    ensures CountedState(DoFinish(s, w, now))
  {
  }

  lemma WorkerKeepsCount(c: Config, s: State, e: WorkerEvent)
    requires CountedState(s)
    ensures CountedState(ApplyWorker(c, s, e))
  {
    hide Counted, Bump, Halted, Permits, DoClaim, DoFinish;
    match e {
      case Claim(w, now) => ClaimCounts(s, w, now);
      case Finish(w, now) => FinishCounts(s, w, now);
      case _ =>
    }
  }

  lemma PolledCounts(tasks: Tasks, order: seq<string>, threshold: int, when: string -> Instant,
                     claims: map<string, nat>, requeues: map<string, nat>)
    requires Keyed(tasks) && Counted(tasks, claims, requeues)
    requires forall i, j :: 0 <= i < j < |order| ==> order[i] != order[j]
    requires forall id <- order :: id in tasks && tasks[id].status.Pending?
    ensures var (after, claimed) := Polled(tasks, order, threshold, when);
            Counted(after, if claimed.Some? then Bump(claims, claimed.value.id) else claims, requeues)
  {
    var k := HaltedPrefix(tasks, order, threshold);
    PrefixFailedCalm(tasks, order, k, when);
    PolledAt(tasks, order, threshold, when, k);
    var failed := PrefixFailed(tasks, order, k, when);
    hide Halted, HaltedPrefix, Polled, PrefixFailed, Bump, Balanced;
    if k < |order| {
      var t := Started(tasks[order[k]], when(order[k]));
      assert t.id == order[k];
      hide Counted, Calm;
      ClaimKeepsCount(tasks, failed, order[k], t, claims, requeues);
    } else {
      hide Counted, Calm;
      CalmKeepsCount(tasks, failed, claims, requeues);
    }
  }

  lemma PollKeepsCount(c: Config, s: State, serverID: string, order: seq<string>, when: string -> Instant,
                       delivered: bool)
    requires CountedState(s) && Keyed(s.tasks)
    ensures CountedState(DoPoll(c, s, serverID, order, when, delivered))
  {
    if PendingListed(s.tasks, serverID, order) {
      PolledCounts(s.tasks, order, c.failureStopPercent, when, s.claims, s.requeues);
    }
    hide Counted, Bump, Polled, PendingListed;
  }

  lemma TransferKeepsCount(c: Config, s: State, e: TransferEvent)
    requires CountedState(s) && Keyed(s.tasks)
    ensures CountedState(ApplyTransfer(c, s, e))
  {
    match e {
      case Poll(serverID, order, when, delivered) => PollKeepsCount(c, s, serverID, order, when, delivered);
      case Deliver(report, now) =>
        if report < |s.reports| && s.reports[report].taskID in s.tasks {
          var r := s.reports[report];
          ReportCalm(s.tasks, r.taskID, r.success, r.output, r.problem, now);
          CalmKeepsCount(s.tasks, s.tasks[r.taskID := Reported(s.tasks[r.taskID], r.success, r.output, r.problem, now)],
                         s.claims, s.requeues);
        }
    }
    hide Counted, Calm, DoPoll, Reported;
  }

  lemma RequestKeepsCount(s: State, e: RequestEvent)
    requires CountedState(s) && GoodHandlers(s)
    ensures CountedState(ApplyRequest(s, e))
  {
    RequestFrame(s, e);
    RequestCalm(s, e);
    CalmKeepsCount(s.tasks, ApplyRequest(s, e).tasks, s.claims, s.requeues);
    hide ApplyRequest, Counted, Calm;
  }

  lemma AdminKeepsCount(s: State, e: AdminEvent)
    requires CountedState(s)
    ensures CountedState(ApplyAdmin(s, e))
  {
    RecoveryKeepsCount(s.tasks, s.claims, s.requeues);
    hide Counted, Recovered;
  }

  lemma BeatKeepsCount(s: State, e: BeatEvent)
    requires CountedState(s)
    ensures CountedState(ApplyBeat(s, e))
  {
    BeatFrame(s, e);
    BeatCalm(s, e);
    CalmKeepsCount(s.tasks, ApplyBeat(s, e).tasks, s.claims, s.requeues);
    hide ApplyBeat, Counted, Calm;
  }

  lemma AgentKeepsCount(s: State, e: AgentEvent)
    requires CountedState(s)
    ensures CountedState(ApplyAgent(s, e))
  {
  }

  lemma StepKeepsCount(c: Config, s: State, e: Event)
    requires Held(s) && CountedState(s)
    ensures CountedState(Apply(c, s, e))
  {
    assert GoodHandlers(s) && Keyed(s.tasks);
    hide Held, CountedState, GoodHandlers, ApplyRequest, ApplyWorker, ApplyAdmin, ApplyBeat, ApplyTransfer, ApplyAgent;
    match e {
      case ByRequest(r) => RequestKeepsCount(s, r);
      case ByWorker(w) => WorkerKeepsCount(c, s, w);
      case ByAdmin(a) => AdminKeepsCount(s, a);
      case ByBeat(b) => BeatKeepsCount(s, b);
      case ByTransfer(x) => TransferKeepsCount(c, s, x);
      case ByAgent(a) => AgentKeepsCount(s, a);
    }
  }

  // ---------- executions ----------

  /** Whoever holds an unstarted claim has one in hand. */
  predicate RunsCovered(s: State) {
    && s.runs.Keys <= s.tasks.Keys
    && (forall id <- s.tasks :: Count(s.runs, id) <= Count(s.claims, id))
    && (forall w <- s.workers :: s.workers[w].Claimed? ==>
          Count(s.runs, s.workers[w].id) < Count(s.claims, s.workers[w].id))
    && (forall a <- s.agents :: s.agents[a].phase.Given? || s.agents[a].phase.Cleared? ==>
          Count(s.runs, s.agents[a].phase.task.id) < Count(s.claims, s.agents[a].phase.task.id))
  }

  /** Nobody new holds a claim, nothing runs, and claims only grow. */
  lemma CoverKept(s: State, t: State)
    requires RunsCovered(s) && t.runs == s.runs && s.tasks.Keys <= t.tasks.Keys
    requires s.claims.Keys <= s.tasks.Keys
    requires forall id <- s.tasks :: Count(s.claims, id) <= Count(t.claims, id)
    requires t.claims.Keys <= s.tasks.Keys
    requires forall w <- t.workers :: t.workers[w].Claimed? ==>
               (w in s.workers && t.workers[w] == s.workers[w])
               || Count(s.runs, t.workers[w].id) < Count(t.claims, t.workers[w].id)
    requires forall a <- t.agents :: t.agents[a].phase.Given? || t.agents[a].phase.Cleared? ==>
               (a in s.agents && (s.agents[a].phase.Given? || s.agents[a].phase.Cleared?)
                && t.agents[a].phase.task == s.agents[a].phase.task)
               || Count(s.runs, t.agents[a].phase.task.id) < Count(t.claims, t.agents[a].phase.task.id)
    ensures RunsCovered(t)
  {
  }

  /** One holder turns its claim into an execution; nobody else holds the task. */
  lemma RunCovered(s: State, t: State, id: string)
    requires RunsCovered(s) && t.runs == Bump(s.runs, id) && t.claims == s.claims && t.tasks.Keys == s.tasks.Keys
    requires id in s.tasks && Count(s.runs, id) < Count(s.claims, id)
    requires forall w <- t.workers :: t.workers[w].Claimed? ==>
               w in s.workers && t.workers[w] == s.workers[w] && t.workers[w].id != id
    requires forall a <- t.agents :: t.agents[a].phase.Given? || t.agents[a].phase.Cleared? ==>
               a in s.agents && t.agents[a] == s.agents[a] && t.agents[a].phase.task.id != id
    ensures RunsCovered(t)
  {
  }

  lemma RequestKeepsCover(s: State, e: RequestEvent)
    requires RunsCovered(s) && CountedState(s)
    ensures RunsCovered(ApplyRequest(s, e))
  {
    RequestFrame(s, e);
    RequestEvolves(s, e);
    CoverKept(s, ApplyRequest(s, e));
    hide ApplyRequest, RunsCovered;
  }

  lemma BumpGrows(m: map<string, nat>, id: string)
    ensures forall x <- m :: Count(m, x) <= Count(Bump(m, id), x)
    ensures Count(Bump(m, id), id) == Count(m, id) + 1
    ensures Bump(m, id).Keys == m.Keys + {id}
    ensures forall x :: x != id ==> Count(Bump(m, id), x) == Count(m, x)
  {
  }

  /** Starting a local task: no other worker is past the claim with it, and no
      Agent can hold it. */
  lemma StartCovered(c: Config, s: State, t: State, w: nat)
    requires RunsCovered(s) && Pooled(c, s) && GoodAgents(s) && s.claims.Keys <= s.tasks.Keys
    requires w in s.workers && s.workers[w].Claimed?
    requires t == s.(workers := s.workers[w := Executing(s.workers[w].id)], runs := Bump(s.runs, s.workers[w].id))
    ensures RunsCovered(t)
  {
    var id := s.workers[w].id;
    assert OwnsRunning(s.tasks, s.workers[w]);
    NoAgentHoldsLocal(s, id);
    assert forall v <- s.workers :: s.workers[v].Claimed? && s.workers[v].id == id ==> v == w;
    hide Bump, Pooled, GoodAgents;
    RunCovered(s, t, id);
  }

  lemma NoAgentHoldsLocal(s: State, id: string)
    requires GoodAgents(s) && id in s.tasks && s.tasks[id].serverID == LOCAL
    ensures forall a <- s.agents :: s.agents[a].phase.Given? || s.agents[a].phase.Cleared? ==>
            s.agents[a].phase.task.id != id
  {
  }

  lemma CheckBatchKeepsCover(c: Config, s: State, w: nat)
    requires RunsCovered(s) && Pooled(c, s) && GoodAgents(s) && s.claims.Keys <= s.tasks.Keys
    ensures RunsCovered(DoCheckBatch(c, s, w))
  {
    hide Halted, RunsCovered, Pooled, GoodAgents, Bump;
    var t := DoCheckBatch(c, s, w);
    if w in s.workers && s.workers[w].Claimed? {
      if t.workers[w].Executing? {
        StartCovered(c, s, t, w);
      } else {
        StopCovered(s, t, w);
      }
    }
  }

  lemma StopCovered(s: State, t: State, w: nat)
    requires RunsCovered(s) && w in t.workers && t.workers[w].Reporting?
    requires t == s.(workers := s.workers[w := t.workers[w]])
    ensures RunsCovered(t)
  {
  }

  lemma WonClaimCovered(s: State, t: State, w: nat, id: string)
    requires RunsCovered(s) && s.claims.Keys <= s.tasks.Keys && id in s.tasks
    requires t == s.(workers := s.workers[w := Claimed(id)], tasks := t.tasks, claims := Bump(s.claims, id))
    requires t.tasks.Keys == s.tasks.Keys
    ensures RunsCovered(t)
  {
    BumpGrows(s.claims, id);
    hide Bump;
  }

  lemma LostClaimCovered(s: State, t: State, w: nat)
    requires RunsCovered(s) && t == s.(workers := s.workers - {w})
    ensures RunsCovered(t)
  {
  }

  lemma ClaimKeepsCover(s: State, w: nat, now: Instant)
    requires RunsCovered(s) && s.claims.Keys <= s.tasks.Keys
    ensures RunsCovered(DoClaim(s, w, now))
  {
    hide RunsCovered, Bump;
    var t := DoClaim(s, w, now);
    if w in s.workers && s.workers[w].Holding? {
      if w in t.workers {
        WonClaimCovered(s, t, w, s.workers[w].id);
      } else {
        LostClaimCovered(s, t, w);
      }
    }
  }

  lemma WorkerKeepsCover(c: Config, s: State, e: WorkerEvent)
    requires RunsCovered(s) && Pooled(c, s) && GoodAgents(s) && CountedState(s)
    ensures RunsCovered(ApplyWorker(c, s, e))
  {
    assert s.claims.Keys <= s.tasks.Keys;
    hide Pooled, GoodAgents, CountedState, Permits, Bump, DoClaim, DoCheckBatch, DoSpawn, DoAcquire, DoCommandDone,
         DoFinish, RunsCovered;
    match e {
      case Claim(w, now) => ClaimKeepsCover(s, w, now);
      case CheckBatch(w) => CheckBatchKeepsCover(c, s, w);
      case _ =>
        OthersClaimNothing(c, s, e);
        CoverKept(s, ApplyWorker(c, s, e));
    }
  }

  lemma OthersClaimNothing(c: Config, s: State, e: WorkerEvent)
    requires !e.Claim? && !e.CheckBatch?
    ensures var t := ApplyWorker(c, s, e);
            && t == s.(tasks := t.tasks, workers := t.workers, owed := t.owed)
            && t.tasks.Keys == s.tasks.Keys
            && forall w <- t.workers :: t.workers[w].Claimed? ==> w in s.workers && t.workers[w] == s.workers[w]
  {
    if e.Finish? {
      FinishClaimsNothing(c, s, e);
    } else {
      WaitersClaimNothing(c, s, e);
    }
    hide ApplyWorker;
  }

  lemma FinishClaimsNothing(c: Config, s: State, e: WorkerEvent)
    requires e.Finish?
    ensures var t := ApplyWorker(c, s, e);
            && t == s.(tasks := t.tasks, workers := t.workers, owed := t.owed)
            && t.tasks.Keys == s.tasks.Keys
            && forall w <- t.workers :: t.workers[w].Claimed? ==> w in s.workers && t.workers[w] == s.workers[w]
  {
    hide Reported, DoSpawn, DoAcquire, DoClaim, DoCheckBatch, DoCommandDone;
  }

  lemma WaitersClaimNothing(c: Config, s: State, e: WorkerEvent)
    requires e.Spawn? || e.Acquire? || e.CommandDone?
    ensures var t := ApplyWorker(c, s, e);
            && t == s.(workers := t.workers, owed := t.owed)
            && forall w <- t.workers :: t.workers[w].Claimed? ==> w in s.workers && t.workers[w] == s.workers[w]
  {
    hide DoSpawn, DoAcquire, DoCommandDone, DoClaim, DoCheckBatch, DoFinish;
    match e {
      case Spawn(w, id) => SpawnClaimsNothing(s, w, id);
      case Acquire(w) => AcquireClaimsNothing(c, s, w);
      case CommandDone(w, success, output, problem) => DoneClaimsNothing(s, w, success, output, problem);
      case _ =>
    }
  }

  predicate NoNewClaim(s: State, t: State) {
    t == s.(workers := t.workers, owed := t.owed) && forall w <- t.workers :: t.workers[w].Claimed? ==>
      w in s.workers && t.workers[w] == s.workers[w]
  }

  lemma SpawnClaimsNothing(s: State, w: nat, id: string)
    ensures NoNewClaim(s, DoSpawn(s, w, id))
  {
  }

  lemma AcquireClaimsNothing(c: Config, s: State, w: nat)
    ensures NoNewClaim(s, DoAcquire(c, s, w))
  {
    hide Permits;
  }

  lemma DoneClaimsNothing(s: State, w: nat, success: bool, output: string, problem: string)
    ensures NoNewClaim(s, DoCommandDone(s, w, success, output, problem))
  {
  }

  lemma AdminKeepsCover(s: State, e: AdminEvent)
    requires RunsCovered(s) && CountedState(s)
    ensures RunsCovered(ApplyAdmin(s, e))
  {
    AdminFrame(s, e);
    CoverKept(s, ApplyAdmin(s, e));
    hide RunsCovered, ApplyAdmin;
  }

  lemma BeatKeepsCover(s: State, e: BeatEvent)
    requires RunsCovered(s) && CountedState(s)
    ensures RunsCovered(ApplyBeat(s, e))
  {
    BeatFrame(s, e);
    BeatGivesNothing(s, e);
    CoverKept(s, ApplyBeat(s, e));
    hide RunsCovered, ApplyBeat;
  }

  lemma BeatGivesNothing(s: State, e: BeatEvent)
    ensures var t := ApplyBeat(s, e);
            forall a <- t.agents :: t.agents[a].phase.Given? || t.agents[a].phase.Cleared? ==>
                   a in s.agents && t.agents[a] == s.agents[a]
  {
    BeatMoves(s, e);
    hide ApplyBeat;
  }

  lemma TransferKeepsCover(c: Config, s: State, e: TransferEvent)
    requires RunsCovered(s) && CountedState(s) && Keyed(s.tasks)
    ensures RunsCovered(ApplyTransfer(c, s, e))
  {
    TransferFrame(c, s, e);
    TransferMoves(c, s, e);
    PollCounts(s, ApplyTransfer(c, s, e), c);
    hide ApplyTransfer, Keyed, TransferMoved;
  }

  /** Polling counts the claim before the task is in the Agent's hands. */
  lemma PollCounts(s: State, t: State, c: Config)
    requires RunsCovered(s) && CountedState(s)
    requires t == s.(tasks := t.tasks, agents := t.agents, claims := t.claims) && t.tasks.Keys == s.tasks.Keys
    requires TransferMoved(c, s, t)
    ensures RunsCovered(t)
  {
    ClaimsGrow(c, s, t);
    forall sv <- t.agents | t.agents[sv].phase.Given? || t.agents[sv].phase.Cleared?
      ensures Count(s.runs, t.agents[sv].phase.task.id) < Count(t.claims, t.agents[sv].phase.task.id)
    {
      if t.agents[sv] != s.agents[sv] {
        assert GivenTask(s, t, sv);
        BumpGrows(s.claims, t.agents[sv].phase.task.id);
      }
    }
    hide Bump, Count, GivenTask, Counted, TransferMoved;
  }

  lemma ClaimsGrow(c: Config, s: State, t: State)
    requires TransferMoved(c, s, t) && s.claims.Keys <= s.tasks.Keys
    ensures forall id <- s.tasks :: Count(s.claims, id) <= Count(t.claims, id)
    ensures t.claims.Keys <= s.tasks.Keys
  {
  }

  lemma OnlyHolder(s: State, serverID: string)
    requires GoodAgents(s) && serverID in s.agents && s.agents[serverID].phase.Cleared?
    ensures var id := s.agents[serverID].phase.task.id;
            && id in s.tasks && s.tasks[id].serverID == serverID && serverID != LOCAL
            && forall a <- s.agents :: a != serverID && (s.agents[a].phase.Given? || s.agents[a].phase.Cleared?) ==>
                 s.agents[a].phase.task.id != id
  {
  }

  lemma AgentKeepsCover(c: Config, s: State, e: AgentEvent)
    requires RunsCovered(s) && GoodAgents(s) && Pooled(c, s) && CountedState(s)
    ensures RunsCovered(ApplyAgent(s, e))
  {
    var t := ApplyAgent(s, e);
    AgentMoves(s, e);
    assert s.claims.Keys <= s.tasks.Keys;
    hide RunsCovered, ApplyAgent, GoodAgents, Pooled, CountedState;
    if CommandStarted(s, t, e.serverID) {
      StartedCommandCovered(c, s, t, e.serverID);
    } else {
      QuietAgentCovered(s, t, e.serverID);
    }
  }

  lemma QuietAgentCovered(s: State, t: State, sv: string)
    requires RunsCovered(s) && AgentMoved(s, t, sv) && !CommandStarted(s, t, sv)
    ensures RunsCovered(t)
  {
    hide CommandStarted;
  }

  lemma StartedCommandCovered(c: Config, s: State, t: State, sv: string)
    requires RunsCovered(s) && GoodAgents(s) && Pooled(c, s) && s.claims.Keys <= s.tasks.Keys
    requires AgentMoved(s, t, sv) && CommandStarted(s, t, sv)
    ensures RunsCovered(t)
  {
    OnlyHolder(s, sv);
    var id := s.agents[sv].phase.task.id;
    forall w <- s.workers | s.workers[w].Claimed?
      ensures s.workers[w].id != id
    {
      assert OwnsRunning(s.tasks, s.workers[w]);
    }
    RunCovered(s, t, id);
    hide Bump, GoodAgents, Pooled, PhaseMoved;
  }

  lemma StepKeepsCover(c: Config, s: State, e: Event)
    requires Held(s) && Pooled(c, s) && CountedState(s) && RunsCovered(s)
    ensures RunsCovered(Apply(c, s, e))
  {
    assert GoodAgents(s) && Keyed(s.tasks);
    hide Held, Pooled, RunsCovered, CountedState, GoodAgents, ApplyRequest, ApplyWorker, ApplyAdmin, ApplyBeat,
         ApplyTransfer, ApplyAgent;
    match e {
      case ByRequest(r) => RequestKeepsCover(s, r);
      case ByWorker(w) => WorkerKeepsCover(c, s, w);
      case ByAdmin(a) => AdminKeepsCover(s, a);
      case ByBeat(b) => BeatKeepsCover(s, b);
      case ByTransfer(x) => TransferKeepsCover(c, s, x);
      case ByAgent(a) => AgentKeepsCover(c, s, a);
    }
  }
}
