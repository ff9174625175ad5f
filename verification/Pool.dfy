/** The local worker pool: who owns which running task, how many run at once, and
    why a local task that is finished stays exactly as it is. */
module Pool {
  import opened Timestamps
  import opened Types
  import opened TaskSpec
  import opened Protocol
  import opened Evolution
  import opened Invariants
  import Rollout

  predicate OwnsRunning(tasks: Tasks, w: Worker) {
    && w.id in tasks
    && tasks[w.id].serverID == LOCAL
    && (w.Active() ==> tasks[w.id].status.Running?)
  }

  predicate Owned(s: State) {
    forall w <- s.workers :: OwnsRunning(s.tasks, s.workers[w])
  }

  predicate OwnersDistinct(s: State) {
    forall v <- s.workers, w <- s.workers ::
      s.workers[v].Active() && s.workers[w].Active() && s.workers[v].id == s.workers[w].id ==> v == w
  }

  predicate RunningOwned(s: State) {
    forall id <- s.tasks :: RunningLocally(s.tasks[id]) ==>
      exists w <- s.workers :: s.workers[w].Active() && s.workers[w].id == id
  }

  predicate Pooled(c: Config, s: State) {
    && |Permits(s.workers)| <= c.concurrency
    && Owned(s)
    && OwnersDistinct(s)
    && RunningOwned(s)
  }

  predicate RunningLocally(t: Task) {
    t.serverID == LOCAL && t.status.Running?
  }

  /** A local task may be canceled while pending or flagged while running; it
      does not start or stop running, and once finished it does not change. */
  predicate LocalStep(t: Task, u: Task) {
    && t.serverID == u.serverID
    && (t.serverID == LOCAL ==> (t.status.Running? <==> u.status.Running?))
    && (t.serverID == LOCAL && t.status.Terminal() ==> t == u)
  }

  predicate LocalKept(a: Tasks, b: Tasks) {
    && a.Keys <= b.Keys
    && (forall id <- a :: LocalStep(a[id], b[id]))
    && (forall id <- b :: id !in a ==> b[id].status.Pending?)
  }

  lemma LocalUnchanged(tasks: Tasks)
    ensures LocalKept(tasks, tasks)
  {
  }

  lemma LocalReplaced(tasks: Tasks, id: string, t: Task)
    requires if id in tasks then LocalStep(tasks[id], t) else t.status.Pending?
    ensures LocalKept(tasks, tasks[id := t])
  {
  }

  lemma PoolUntouched(c: Config, s: State, t: State)
    requires Pooled(c, s) && LocalKept(s.tasks, t.tasks) && t.workers == s.workers
    ensures Pooled(c, t)
  {
  }

  lemma InsertKeepsLocal(s: State, h: nat, id: string, now: Instant)
    requires GoodHandlers(s)
    ensures LocalKept(s.tasks, DoInsert(s, h, id, now).tasks)
  {
  }

  lemma RequestKeepsLocal(s: State, e: RequestEvent)
    requires GoodHandlers(s)
    ensures LocalKept(s.tasks, ApplyRequest(s, e).tasks)
  {
    LocalUnchanged(s.tasks);
    match e {
      case Insert(h, id, now) => InsertKeepsLocal(s, h, id, now);
      case Cancel(id, now) =>
        if id in s.tasks && CancelOf(s.tasks[id], now).Ok? {
          LocalReplaced(s.tasks, id, CancelOf(s.tasks[id], now).value);
        }
      case _ =>
    }
    hide LocalKept, LocalStep, GoodHandler, DoInsert, CancelOf, Rollout.Eligible, Retryable;
  }

  lemma PolledKeepsLocal(tasks: Tasks, serverID: string, order: seq<string>, threshold: int, when: string -> Instant)
    requires PendingListed(tasks, serverID, order) && serverID != LOCAL
    ensures LocalKept(tasks, Polled(tasks, order, threshold, when).0)
  {
    hide Halted;
  }

  lemma TransferKeepsLocal(c: Config, s: State, e: TransferEvent)
    requires GoodAgents(s) && GoodMessages(s)
    ensures LocalKept(s.tasks, ApplyTransfer(c, s, e).tasks)
  {
    if e.Poll? && e.serverID in s.agents && PendingListed(s.tasks, e.serverID, e.order) {
      PolledKeepsLocal(s.tasks, e.serverID, e.order, c.failureStopPercent, e.when);
    }
    LocalUnchanged(s.tasks);
    if e.Deliver? && e.report < |s.reports| && s.reports[e.report].taskID in s.tasks {
      var r := s.reports[e.report];
      if s.tasks[r.taskID].serverID == r.serverID {
        LocalReplaced(s.tasks, r.taskID, Reported(s.tasks[r.taskID], r.success, r.output, r.problem, e.now));
      }
    }
    hide LocalKept, LocalStep, Polled, PendingListed, GoodPhase, Bump, Reported;
  }

  lemma ConfirmedKeepsLocal(tasks: Tasks, serverID: string, version: string, when: string -> Instant)
    requires serverID != LOCAL
    ensures LocalKept(tasks, UpdatesConfirmed(tasks, serverID, version, when))
  {
  }

  lemma BeatKeepsLocal(s: State, e: BeatEvent)
    requires GoodMessages(s)
    ensures LocalKept(s.tasks, ApplyBeat(s, e).tasks)
  {
    LocalUnchanged(s.tasks);
    if e.ConfirmBeat? && e.h in s.handlers && s.handlers[e.h].Stored? && s.handlers[e.h].beat < |s.beats| {
      var b := s.beats[s.handlers[e.h].beat];
      ConfirmedKeepsLocal(s.tasks, b.serverID, b.version, e.when);
    }
    hide LocalKept, UpdatesConfirmed, DoSendBeat, DoStoreBeat, DoAckBeat;
    BeatsOnlyConfirm(s, e);
  }

  lemma BeatsOnlyConfirm(s: State, e: BeatEvent)
    ensures !e.ConfirmBeat? ==> ApplyBeat(s, e).tasks == s.tasks
  {
  }

  // ---------- the workers' own steps ----------

  lemma PermitsShrink(a: map<nat, Worker>, b: map<nat, Worker>)
    requires forall w <- b :: !b[w].Waiting? ==> w in a && !a[w].Waiting?
    ensures |Permits(b)| <= |Permits(a)|
  {
    SubsetSize(Permits(b), Permits(a));
  }

  lemma AcquireWithinBound(c: Config, s: State, w: nat)
    requires |Permits(s.workers)| <= c.concurrency
    ensures |Permits(DoAcquire(c, s, w).workers)| <= c.concurrency
  {
    var t := DoAcquire(c, s, w);
    if t != s {
      assert Permits(t.workers) == Permits(s.workers) + {w};
    }
  }

  lemma WorkerKeepsBound(c: Config, s: State, e: WorkerEvent)
    requires |Permits(s.workers)| <= c.concurrency
    ensures |Permits(ApplyWorker(c, s, e).workers)| <= c.concurrency
  {
    if e.Acquire? {
      AcquireWithinBound(c, s, e.w);
    } else if e.Claim? || e.CheckBatch? {
      ClaimantKeepsPermit(c, s, e);
    } else {
      hide Halted, Bump, Started, Reported, DoAcquire, DoClaim, DoCheckBatch, Permits;
      PermitsShrink(s.workers, ApplyWorker(c, s, e).workers);
    }
    hide ApplyWorker;
  }

  lemma ClaimantKeepsPermit(c: Config, s: State, e: WorkerEvent)
    requires |Permits(s.workers)| <= c.concurrency && (e.Claim? || e.CheckBatch?)
    ensures |Permits(ApplyWorker(c, s, e).workers)| <= c.concurrency
  {
    hide Halted, Bump, Started, DoSpawn, DoAcquire, DoCommandDone, DoFinish, Permits;
    PermitsShrink(s.workers, ApplyWorker(c, s, e).workers);
  }

  /** The claim finds no other worker on the task, because another owner would
      have it running. */
  lemma ClaimKeepsPool(c: Config, s: State, w: nat, now: Instant)
    requires Pooled(c, s) && Keyed(s.tasks)
    ensures Pooled(c, DoClaim(s, w, now))
  {
    WorkerKeepsBound(c, s, Claim(w, now));
    var t := DoClaim(s, w, now);
    if w in s.workers && s.workers[w].Holding? && s.tasks[s.workers[w].id].status.Pending?
       && !s.tasks[s.workers[w].id].cancelRequested {
      var id := s.workers[w].id;
      assert t.tasks == s.tasks[id := Started(s.tasks[id], now)] && t.workers == s.workers[w := Claimed(id)];
      WonClaim(c, s, t, w, Started(s.tasks[id], now));
    } else {
      SameActive(c, s, t);
    }
    hide Permits, Bump, Pooled;
  }

  lemma WonClaim(c: Config, s: State, t: State, w: nat, started: Task)
    requires Pooled(c, s) && w in s.workers && !s.workers[w].Active()
    requires var id := s.workers[w].id;
             && s.tasks[id].status.Pending? && started.status.Running? && started.serverID == LOCAL
             && t.tasks == s.tasks[id := started] && t.workers == s.workers[w := Claimed(id)]
    requires |Permits(t.workers)| <= c.concurrency
    ensures Pooled(c, t)
  {
    assert forall v <- s.workers :: s.workers[v].Active() ==> s.workers[v].id != s.workers[w].id;
    assert Owned(t);
    WonRunningOwned(s, t, w, started);
    hide Permits, OwnsRunning, RunningOwned;
  }

  lemma WonRunningOwned(s: State, t: State, w: nat, started: Task)
    requires RunningOwned(s) && w in s.workers && !s.workers[w].Active()
    requires t.tasks == s.tasks[s.workers[w].id := started] && t.workers == s.workers[w := Claimed(s.workers[w].id)]
    ensures RunningOwned(t)
  {
    assert t.workers[w] == Claimed(s.workers[w].id);
    forall x <- t.tasks | RunningLocally(t.tasks[x])
      ensures exists v <- t.workers :: t.workers[v].Active() && t.workers[v].id == x
    {
      if x != s.workers[w].id {
        assert RunningLocally(s.tasks[x]);
        var v :| v in s.workers && s.workers[v].Active() && s.workers[v].id == x;
        assert t.workers[v] == s.workers[v];
      }
    }
  }

  /** Steps that leave the tasks alone and move workers within `Active`. */
  lemma SameActive(c: Config, s: State, t: State)
    requires Pooled(c, s) && t.tasks == s.tasks
    requires |Permits(t.workers)| <= c.concurrency
    requires forall w <- t.workers :: OwnsRunning(t.tasks, t.workers[w])
    requires forall w <- t.workers :: t.workers[w].Active() ==>
               w in s.workers && s.workers[w].Active() && s.workers[w].id == t.workers[w].id
    requires forall w <- s.workers :: s.workers[w].Active() ==>
               w in t.workers && t.workers[w].Active() && t.workers[w].id == s.workers[w].id
    ensures Pooled(c, t)
  {
  }

  lemma FinishKeepsPool(c: Config, s: State, w: nat, now: Instant)
    requires Pooled(c, s)
    ensures Pooled(c, DoFinish(s, w, now))
  {
    WorkerKeepsBound(c, s, Finish(w, now));
    if w in s.workers && s.workers[w].Reporting? {
      var r := s.workers[w];
      assert OwnsRunning(s.tasks, r);
      WorkerDone(c, s, DoFinish(s, w, now), w, Reported(s.tasks[r.id], r.success, r.output, r.problem, now));
    }
    hide Pooled, Permits;
  }

  /** The one owner leaves together with the task's running status. */
  lemma WorkerDone(c: Config, s: State, t: State, w: nat, done: Task)
    requires Pooled(c, s) && w in s.workers && s.workers[w].Active()
    requires done.status.Terminal() && done.serverID == LOCAL
    requires t.tasks == s.tasks[s.workers[w].id := done] && t.workers == s.workers - {w}
    requires |Permits(t.workers)| <= c.concurrency
    ensures Pooled(c, t)
  {
    assert Owned(t);
    DoneRunningOwned(s, t, w, done);
    hide Permits, OwnsRunning, RunningOwned;
  }

  lemma DoneRunningOwned(s: State, t: State, w: nat, done: Task)
    requires RunningOwned(s) && w in s.workers && done.status.Terminal()
    requires t.tasks == s.tasks[s.workers[w].id := done] && t.workers == s.workers - {w}
    ensures RunningOwned(t)
  {
    forall x <- t.tasks | RunningLocally(t.tasks[x])
      ensures exists v <- t.workers :: t.workers[v].Active() && t.workers[v].id == x
    {
      assert x != s.workers[w].id && RunningLocally(s.tasks[x]);
      var v :| v in s.workers && s.workers[v].Active() && s.workers[v].id == x;
      assert v in t.workers && t.workers[v] == s.workers[v];
    }
  }

  lemma OneWorkerMoved(c: Config, s: State, t: State, w: nat, next: Worker)
    requires Pooled(c, s) && t.tasks == s.tasks && t.workers == s.workers[w := next]
    requires |Permits(t.workers)| <= c.concurrency
    requires if w in s.workers then next.id == s.workers[w].id && next.Active() == s.workers[w].Active()
             else !next.Active() && OwnsRunning(s.tasks, next)
    ensures Pooled(c, t)
  {
    assert forall v <- t.workers :: OwnsRunning(t.tasks, t.workers[v]);
    SameActive(c, s, t);
    hide Permits;
  }

  lemma OtherWorkerKeepsPool(c: Config, s: State, e: WorkerEvent)
    requires Pooled(c, s) && (e.Spawn? || e.Acquire? || e.CheckBatch? || e.CommandDone?)
    ensures Pooled(c, ApplyWorker(c, s, e))
  {
    WorkerKeepsBound(c, s, e);
    var t := ApplyWorker(c, s, e);
    OtherWorkerMoves(c, s, e);
    if t != s {
      OneWorkerMoved(c, s, t, e.w, t.workers[e.w]);
    }
    hide Pooled, Permits, ApplyWorker;
  }

  lemma OtherWorkerMoves(c: Config, s: State, e: WorkerEvent)
    requires e.Spawn? || e.Acquire? || e.CheckBatch? || e.CommandDone?
    ensures var t := ApplyWorker(c, s, e);
            && t.tasks == s.tasks
            && (t != s ==>
                  && e.w in t.workers
                  && t.workers == s.workers[e.w := t.workers[e.w]]
                  && if e.w in s.workers
                     then t.workers[e.w].id == s.workers[e.w].id && t.workers[e.w].Active() == s.workers[e.w].Active()
                     else !t.workers[e.w].Active() && OwnsRunning(s.tasks, t.workers[e.w]))
  {
  }

  lemma WorkerKeepsPool(c: Config, s: State, e: WorkerEvent)
    requires Pooled(c, s) && Keyed(s.tasks)
    ensures Pooled(c, ApplyWorker(c, s, e))
  {
    hide Pooled, DoSpawn, DoAcquire, DoCheckBatch, DoCommandDone, DoClaim, DoFinish;
    match e {
      case Claim(w, now) => ClaimKeepsPool(c, s, w, now);
      case Finish(w, now) => FinishKeepsPool(c, s, w, now);
      case _ => OtherWorkerKeepsPool(c, s, e);
    }
  }

  lemma AdminKeepsPool(c: Config, s: State, e: AdminEvent)
    requires Pooled(c, s)
    ensures Pooled(c, ApplyAdmin(s, e))
  {
  }

  /** Requests, heartbeats, polls, results and Agents leave the local tasks and
      their workers alone. */
  lemma OthersKeepLocal(c: Config, s: State, e: Event)
    requires Held(s) && !e.ByWorker? && !e.ByAdmin?
    ensures LocalKept(s.tasks, Apply(c, s, e).tasks)
    ensures Apply(c, s, e).workers == s.workers
  {
    assert GoodHandlers(s) && GoodAgents(s) && GoodMessages(s);
    hide Held, LocalKept, GoodHandlers, GoodAgents, GoodMessages;
    hide ApplyRequest, ApplyWorker, ApplyAdmin, ApplyBeat, ApplyTransfer, ApplyAgent;
    match e {
      case ByRequest(r) => RequestFrame(s, r); RequestKeepsLocal(s, r);
      case ByBeat(b) => BeatFrame(s, b); BeatKeepsLocal(s, b);
      case ByTransfer(x) => TransferFrame(c, s, x); TransferKeepsLocal(c, s, x);
      case ByAgent(a) => AgentFrame(s, a); LocalUnchanged(s.tasks);
    }
  }

  lemma StepKeepsPool(c: Config, s: State, e: Event)
    requires Held(s) && Pooled(c, s)
    ensures Pooled(c, Apply(c, s, e))
  {
    assert Keyed(s.tasks);
    hide Held, Pooled, LocalKept, ApplyRequest, ApplyWorker, ApplyAdmin, ApplyBeat, ApplyTransfer, ApplyAgent;
    if e.ByWorker? {
      WorkerKeepsPool(c, s, e.worker);
    } else if e.ByAdmin? {
      AdminKeepsPool(c, s, e.admin);
    } else {
      OthersKeepLocal(c, s, e);
      PoolUntouched(c, s, Apply(c, s, e));
    }
  }

  // ---------- what the invariant gives ----------

  function RunningLocal(tasks: Tasks): set<string> {
    set id <- tasks | RunningLocally(tasks[id])
  }

  lemma {:induction false} IDsOfWorkers(workers: map<nat, Worker>, ws: set<nat>, ids: set<string>)
    requires ws <= workers.Keys
    requires forall id <- ids :: exists w <- ws :: workers[w].id == id
    ensures |ids| <= |ws|
    decreases |ids|
  {
    if ids != {} {
      var id :| id in ids;
      var w :| w in ws && workers[w].id == id;
      IDsOfWorkers(workers, ws - {w}, ids - {id});
    }
  }

  lemma RunningBounded(c: Config, s: State)
    requires Pooled(c, s)
    ensures |RunningLocal(s.tasks)| <= c.concurrency
  {
    forall id <- RunningLocal(s.tasks)
      ensures exists w <- Permits(s.workers) :: s.workers[w].id == id
    {
      var w :| w in s.workers && s.workers[w].Active() && s.workers[w].id == id;
      assert w in Permits(s.workers);
    }
    IDsOfWorkers(s.workers, Permits(s.workers), RunningLocal(s.tasks));
  }

  /** No event changes anything about a finished local task. */
  lemma LocalResultStands(c: Config, s: State, e: Event, id: string)
    requires Held(s) && Pooled(c, s)
    requires id in s.tasks && s.tasks[id].serverID == LOCAL && s.tasks[id].status.Terminal()
    ensures id in Apply(c, s, e).tasks && Apply(c, s, e).tasks[id] == s.tasks[id]
  {
    hide Held, Pooled, ApplyRequest, ApplyWorker, ApplyAdmin, ApplyBeat, ApplyTransfer, ApplyAgent;
    if e.ByWorker? {
      WorkerResultStands(c, s, e.worker, id);
    } else if e.ByAdmin? {
      AdminResultStands(s, e.admin, id);
    } else {
      OthersKeepLocal(c, s, e);
    }
  }

  lemma AdminResultStands(s: State, e: AdminEvent, id: string)
    requires id in s.tasks && s.tasks[id].status.Terminal()
    ensures id in ApplyAdmin(s, e).tasks && ApplyAdmin(s, e).tasks[id] == s.tasks[id]
  {
  }

  lemma WorkerResultStands(c: Config, s: State, e: WorkerEvent, id: string)
    requires Pooled(c, s)
    requires id in s.tasks && s.tasks[id].status.Terminal()
    ensures id in ApplyWorker(c, s, e).tasks && ApplyWorker(c, s, e).tasks[id] == s.tasks[id]
  {
    if e.Finish? && e.w in s.workers {
      assert OwnsRunning(s.tasks, s.workers[e.w]);
    }
    hide Pooled, Halted, Permits, Bump, Reported, DoSpawn, DoAcquire, DoCheckBatch, DoCommandDone;
    if !e.Finish? && !e.Claim? {
      WaitersKeepTasks(c, s, e);
    }
  }

  lemma WaitersKeepTasks(c: Config, s: State, e: WorkerEvent)
    requires !e.Finish? && !e.Claim?
    ensures ApplyWorker(c, s, e).tasks == s.tasks
  {
  }
}
