/** No wake-up is lost: whatever interleaves, a local task that can run has a worker
    before its claim, or someone who still owes it one. */
module WakeUps {
  import opened Timestamps
  import opened Types
  import opened TaskSpec
  import opened Protocol
  import opened Evolution
  import opened Invariants
  import opened Pool
  import opened Theorems
  import Rollout

  /** A worker that is going to try and claim the task. */
  predicate BoundFor(w: Worker, id: string) {
    (w.Waiting? || w.Holding?) && w.id == id
  }

  predicate HasWorker(s: State, id: string) {
    exists w <- s.workers :: BoundFor(s.workers[w], id)
  }

  /** Pending here, and not asked to be canceled: a worker's claim would succeed. */
  predicate CanRun(t: Task) {
    PendingFor(t, LOCAL) && !t.cancelRequested
  }

  predicate Awake(s: State) {
    forall id <- s.tasks :: CanRun(s.tasks[id]) ==> id in s.owed || HasWorker(s, id)
  }

  /** Who can run now could run before. */
  predicate NoneQueued(a: Tasks, b: Tasks) {
    forall id <- b :: CanRun(b[id]) ==> id in a && CanRun(a[id])
  }

  lemma AwakeKept(s: State, t: State)
    requires Awake(s) && NoneQueued(s.tasks, t.tasks) && s.owed <= t.owed && t.workers == s.workers
    ensures Awake(t)
  {
  }

  /** A change that leaves the local tasks to their workers queues none of them. */
  lemma KeptQueuesNone(a: Tasks, b: Tasks)
    requires LocalKept(a, b) && TableEvolves(a, b) && a.Keys == b.Keys
    ensures NoneQueued(a, b)
  {
  }

  lemma InsertKeepsAwake(s: State, h: nat, id: string, now: Instant)
    requires Awake(s)
    ensures Awake(DoInsert(s, h, id, now))
  {
    hide KeyFree;
  }

  lemma RequestKeepsAwake(s: State, e: RequestEvent)
    requires Awake(s) && GoodHandlers(s)
    ensures Awake(ApplyRequest(s, e))
  {
    var t := ApplyRequest(s, e);
    if e.Insert? {
      InsertKeepsAwake(s, e.h, e.id, e.now);
    } else {
      OthersInsertNothing(s, e);
      RequestFrame(s, e);
      RequestKeepsLocal(s, e);
      RequestEvolves(s, e);
      hide ApplyRequest, LocalKept, TableEvolves, Awake, GoodHandlers, NoneQueued;
      KeptQueuesNone(s.tasks, t.tasks);
      AwakeKept(s, t);
    }
  }

  lemma OthersInsertNothing(s: State, e: RequestEvent)
    requires !e.Insert?
    ensures ApplyRequest(s, e).tasks.Keys == s.tasks.Keys && ApplyRequest(s, e).owed == s.owed
  {
  }

  lemma SpawnKeepsAwake(s: State, w: nat, id: string)
    requires Awake(s)
    ensures Awake(DoSpawn(s, w, id))
  {
    var t := DoSpawn(s, w, id);
    if t != s {
      assert BoundFor(t.workers[w], id);
      forall x <- s.tasks | HasWorker(s, x)
        ensures HasWorker(t, x)
      {
        var v :| v in s.workers && BoundFor(s.workers[v], x);
        assert t.workers[v] == s.workers[v];
      }
    }
  }

  lemma AcquireKeepsAwake(c: Config, s: State, w: nat)
    requires Awake(s)
    ensures Awake(DoAcquire(c, s, w))
  {
    hide Permits;
    var t := DoAcquire(c, s, w);
    forall x <- s.tasks | HasWorker(s, x)
      ensures HasWorker(t, x)
    {
      var v :| v in s.workers && BoundFor(s.workers[v], x);
      assert v in t.workers && BoundFor(t.workers[v], x);
    }
  }

  /** The worker that gives up its place has claimed the task, or could not. */
  lemma ClaimKeepsAwake(s: State, w: nat, now: Instant)
    requires Awake(s) && Keyed(s.tasks)
    ensures Awake(DoClaim(s, w, now))
  {
    hide Bump;
    var t := DoClaim(s, w, now);
    forall x <- t.tasks | CanRun(t.tasks[x]) && HasWorker(s, x)
      ensures HasWorker(t, x)
    {
      var v :| v in s.workers && BoundFor(s.workers[v], x);
      assert v in t.workers && BoundFor(t.workers[v], x);
    }
  }

  /** Workers past their claim are bound for nothing. */
  lemma LaterStepKeepsAwake(c: Config, s: State, e: WorkerEvent)
    requires Awake(s) && (e.CheckBatch? || e.CommandDone? || e.Finish?)
    ensures Awake(ApplyWorker(c, s, e))
  {
    hide Halted, Bump;
    var t := ApplyWorker(c, s, e);
    forall x <- s.tasks | HasWorker(s, x)
      ensures HasWorker(t, x)
    {
      var v :| v in s.workers && BoundFor(s.workers[v], x);
      assert v in t.workers && t.workers[v] == s.workers[v];
    }
  }

  lemma WorkerKeepsAwake(c: Config, s: State, e: WorkerEvent)
    requires Awake(s) && Keyed(s.tasks)
    ensures Awake(ApplyWorker(c, s, e))
  {
    hide Awake, Keyed, DoSpawn, DoAcquire, DoClaim, DoCheckBatch, DoCommandDone, DoFinish;
    match e {
      case Spawn(w, id) => SpawnKeepsAwake(s, w, id);
      case Acquire(w) => AcquireKeepsAwake(c, s, w);
      case Claim(w, now) => ClaimKeepsAwake(s, w, now);
      case _ => LaterStepKeepsAwake(c, s, e);
    }
  }

  lemma AdminKeepsAwake(s: State, e: AdminEvent)
    requires Awake(s)
    ensures Awake(ApplyAdmin(s, e))
  {
  }

  lemma StepKeepsAwake(c: Config, s: State, e: Event)
    requires Held(s) && Awake(s)
    ensures Awake(Apply(c, s, e))
  {
    assert GoodHandlers(s) && Keyed(s.tasks);
    hide Held, Awake, GoodHandlers, Keyed, LocalKept, TableEvolves, NoneQueued;
    hide ApplyRequest, ApplyWorker, ApplyAdmin, ApplyBeat, ApplyTransfer, ApplyAgent;
    match e {
      case ByRequest(r) => RequestKeepsAwake(s, r);
      case ByWorker(w) => WorkerKeepsAwake(c, s, w);
      case ByAdmin(a) => AdminKeepsAwake(s, a);
      case _ =>
        RemoteFrame(c, s, e);
        OthersKeepLocal(c, s, e);
        StepEvolves(c, s, e);
        KeptQueuesNone(s.tasks, Apply(c, s, e).tasks);
        AwakeKept(s, Apply(c, s, e));
    }
  }

  lemma RemoteFrame(c: Config, s: State, e: Event)
    requires e.ByBeat? || e.ByTransfer? || e.ByAgent?
    ensures Apply(c, s, e).owed == s.owed && Apply(c, s, e).tasks.Keys == s.tasks.Keys
  {
    hide ApplyBeat, ApplyTransfer, ApplyAgent;
    match e {
      case ByBeat(b) => BeatFrame(s, b);
      case ByTransfer(x) => TransferFrame(c, s, x);
      case ByAgent(a) => AgentFrame(s, a);
    }
  }

  lemma {:induction false} RunKeepsAwake(c: Config, s: State, es: seq<Event>)
    requires Inv(c, s) && Awake(s)
    ensures Awake(Run(c, s, es))
    decreases |es|
  {
    if es != [] {
      StepKeepsAwake(c, s, es[0]);
      StepInv(c, s, es[0]);
      RunKeepsAwake(c, Apply(c, s, es[0]), es[1..]);
    }
    hide Apply, Awake, Held, Pooled;
  }

  /** In every run: a pending local task without a cancellation request has a worker
      that is going to claim it, or its wake-up is still owed - by the handler that
      inserted it, or by the resumption after a restart. */
  lemma NoWakeUpLost(c: Config, es: seq<Event>, id: string)
    requires var s := Run(c, Initial(), es);
             id in s.tasks && PendingFor(s.tasks[id], LOCAL) && !s.tasks[id].cancelRequested
    ensures var s := Run(c, Initial(), es);
            || id in s.owed
            || exists w <- s.workers :: (s.workers[w].Waiting? || s.workers[w].Holding?) && s.workers[w].id == id
  {
    InitialInv(c);
    RunKeepsAwake(c, Initial(), es);
    hide Run, Inv;
  }
}
