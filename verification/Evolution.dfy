/** What one step, and hence a whole run, can do to a single task record: facts
    that need no knowledge of who acts. */
module Evolution {
  import opened Timestamps
  import opened Types
  import opened TaskSpec
  import opened Patterns
  import opened Protocol
  import Rollout

  /** The fields that are written once. */
  predicate SameIdentity(t: Task, u: Task) {
    && t.id == u.id
    && t.serverID == u.serverID
    && t.action == u.action
    && t.args == u.args
    && t.created == u.created
    && t.key == u.key
    && t.batchID == u.batchID
    && t.digest == u.digest
    && t.attempt == u.attempt
    && t.retryOf == u.retryOf
  }

  /** The status agrees with the cancellation flag. */
  predicate FlagAgrees(t: Task) {
    && (t.status.Canceled? ==> t.cancelRequested)
    && (t.status.Success? ==> !t.cancelRequested)
  }

  predicate Evolves(t: Task, u: Task) {
    && SameIdentity(t, u)
    && (t.cancelRequested ==> u.cancelRequested)
    && (t.status.Terminal() ==> u.status.Terminal())
    && (FlagAgrees(t) ==> FlagAgrees(u))
    && (FlagAgrees(t) && t.status.Canceled? ==> u.status.Canceled?)
  }

  predicate TableEvolves(a: Tasks, b: Tasks) {
    && a.Keys <= b.Keys
    && forall id <- a :: Evolves(a[id], b[id])
  }

  lemma EvolvesTransitively(a: Tasks, b: Tasks, c: Tasks)
    requires TableEvolves(a, b) && TableEvolves(b, c)
    ensures TableEvolves(a, c)
  {
  }

  lemma Unchanged(tasks: Tasks)
    ensures TableEvolves(tasks, tasks)
  {
  }

  lemma OneReplaced(tasks: Tasks, id: string, t: Task)
    requires id in tasks ==> Evolves(tasks[id], t)
    ensures TableEvolves(tasks, tasks[id := t])
  {
  }

  lemma StartEvolves(t: Task, now: Instant)
    requires t.status.Pending?
    ensures Evolves(t, Started(t, now))
  {
  }

  lemma ReportEvolves(t: Task, success: bool, output: string, problem: string, now: Instant)
    ensures Evolves(t, Reported(t, success, output, problem, now))
  {
  }

  lemma PrefixFailedEvolves(tasks: Tasks, order: seq<string>, k: nat, when: string -> Instant)
    requires k <= |order| && forall id <- order :: id in tasks && tasks[id].status.Pending?
    ensures TableEvolves(tasks, PrefixFailed(tasks, order, k, when))
  {
  }

  lemma PollEvolves(tasks: Tasks, serverID: string, order: seq<string>, threshold: int, when: string -> Instant)
    requires PendingListed(tasks, serverID, order)
    ensures TableEvolves(tasks, Polled(tasks, order, threshold, when).0)
  {
    hide Halted, TableEvolves, Evolves, Started;
    var k := HaltedPrefix(tasks, order, threshold);
    PrefixFailedEvolves(tasks, order, k, when);
    if k < |order| {
      PolledAt(tasks, order, threshold, when, k);
      FirstPollEvolves(tasks, order, k, when);
    }
  }

  lemma FirstPollEvolves(tasks: Tasks, order: seq<string>, k: nat, when: string -> Instant)
    requires forall i, j :: 0 <= i < j < |order| ==> order[i] != order[j]
    requires k < |order| && forall id <- order :: id in tasks && tasks[id].status.Pending?
    ensures TableEvolves(tasks,
                         PrefixFailed(tasks, order, k, when)[order[k] := Started(tasks[order[k]], when(order[k]))])
  {
    PrefixFailedEvolves(tasks, order, k, when);
    PrefixFailedStep(tasks, order, k, when);
    StartEvolves(tasks[order[k]], when(order[k]));
    hide Evolves, PrefixFailed, Started;
  }

  lemma RecoveryEvolves(tasks: Tasks)
    ensures TableEvolves(tasks, Recovered(tasks))
  {
  }

  lemma ConfirmationEvolves(tasks: Tasks, serverID: string, version: string, when: string -> Instant)
    ensures TableEvolves(tasks, UpdatesConfirmed(tasks, serverID, version, when))
  {
  }

  lemma InsertStep(s: State, h: nat, id: string, now: Instant)
    ensures TableEvolves(s.tasks, DoInsert(s, h, id, now).tasks)
  {
  }

  lemma CancelStep(s: State, id: string, now: Instant)
    ensures TableEvolves(s.tasks, DoCancel(s, id, now).tasks)
  {
  }

  lemma ClaimStep(s: State, w: nat, now: Instant)
    ensures TableEvolves(s.tasks, DoClaim(s, w, now).tasks)
  {
  }

  lemma FinishStep(s: State, w: nat, now: Instant)
    ensures TableEvolves(s.tasks, DoFinish(s, w, now).tasks)
  {
    Unchanged(s.tasks);
    if w in s.workers && s.workers[w].Reporting? && s.workers[w].id in s.tasks {
      var r := s.workers[w];
      ReportEvolves(s.tasks[r.id], r.success, r.output, r.problem, now);
      OneReplaced(s.tasks, r.id, Reported(s.tasks[r.id], r.success, r.output, r.problem, now));
    }
    hide TableEvolves, Evolves, Reported;
  }

  lemma DeliverStep(s: State, report: nat, now: Instant)
    ensures TableEvolves(s.tasks, DoDeliver(s, report, now).tasks)
  {
  }

  lemma ConfirmStep(s: State, h: nat, when: string -> Instant)
    ensures TableEvolves(s.tasks, DoConfirmBeat(s, h, when).tasks)
  {
    Unchanged(s.tasks);
    if h in s.handlers && s.handlers[h].Stored? && s.handlers[h].beat < |s.beats| {
      var b := s.beats[s.handlers[h].beat];
      ConfirmationEvolves(s.tasks, b.serverID, b.version, when);
    }
    hide TableEvolves, Evolves, UpdatesConfirmed;
  }

  lemma PollStep(c: Config, s: State, serverID: string, order: seq<string>, when: string -> Instant, delivered: bool)
    ensures TableEvolves(s.tasks, DoPoll(c, s, serverID, order, when, delivered).tasks)
  {
    Unchanged(s.tasks);
    if PendingListed(s.tasks, serverID, order) {
      PollEvolves(s.tasks, serverID, order, c.failureStopPercent, when);
    }
    hide TableEvolves, Evolves, Polled, Bump;
  }

  lemma RequestEvolves(s: State, e: RequestEvent)
    ensures TableEvolves(s.tasks, ApplyRequest(s, e).tasks)
  {
    hide TableEvolves, DoInsert, DoCancel, Rollout.Eligible;
    Unchanged(s.tasks);
    match e {
      case Insert(h, id, now) => InsertStep(s, h, id, now);
      case Cancel(id, now) => CancelStep(s, id, now);
      case _ =>
    }
  }

  lemma WorkerEvolves(c: Config, s: State, e: WorkerEvent)
    ensures TableEvolves(s.tasks, ApplyWorker(c, s, e).tasks)
  {
    hide TableEvolves, DoClaim, DoFinish, Halted, Bump;
    Unchanged(s.tasks);
    match e {
      case Claim(w, now) => ClaimStep(s, w, now);
      case Finish(w, now) => FinishStep(s, w, now);
      case _ =>
    }
  }

  lemma AdminEvolves(s: State, e: AdminEvent)
    ensures TableEvolves(s.tasks, ApplyAdmin(s, e).tasks)
  {
    Unchanged(s.tasks);
    RecoveryEvolves(s.tasks);
    hide TableEvolves, Recovered;
  }

  lemma BeatEvolves(s: State, e: BeatEvent)
    ensures TableEvolves(s.tasks, ApplyBeat(s, e).tasks)
  {
    hide TableEvolves, DoConfirmBeat;
    Unchanged(s.tasks);
    match e {
      case ConfirmBeat(h, when) => ConfirmStep(s, h, when);
      case _ =>
    }
  }

  lemma TransferEvolves(c: Config, s: State, e: TransferEvent)
    ensures TableEvolves(s.tasks, ApplyTransfer(c, s, e).tasks)
  {
    hide TableEvolves, DoPoll, DoDeliver;
    match e {
      case Poll(serverID, order, when, delivered) => PollStep(c, s, serverID, order, when, delivered);
      case Deliver(report, now) => DeliverStep(s, report, now);
    }
  }

  lemma AgentKeepsTasks(s: State, e: AgentEvent)
    ensures ApplyAgent(s, e).tasks == s.tasks
  {
  }

  /** No event rewrites the identity of a stored task, clears its cancellation
      flag, or takes it out of a terminal status or out of `Canceled`. */
  lemma StepEvolves(c: Config, s: State, e: Event)
    ensures TableEvolves(s.tasks, Apply(c, s, e).tasks)
  {
    hide TableEvolves, ApplyRequest, ApplyWorker, ApplyAdmin, ApplyBeat, ApplyTransfer, ApplyAgent;
    match e {
      case ByRequest(r) => RequestEvolves(s, r);
      case ByWorker(w) => WorkerEvolves(c, s, w);
      case ByAdmin(a) => AdminEvolves(s, a);
      case ByBeat(b) => BeatEvolves(s, b);
      case ByTransfer(t) => TransferEvolves(c, s, t);
      case ByAgent(a) =>
        AgentKeepsTasks(s, a);
        Unchanged(s.tasks);
    }
  }

  lemma {:induction false} RunEvolves(c: Config, s: State, es: seq<Event>)
    ensures TableEvolves(s.tasks, Run(c, s, es).tasks)
    decreases |es|
  {
    if es != [] {
      StepEvolves(c, s, es[0]);
      RunEvolves(c, Apply(c, s, es[0]), es[1..]);
      EvolvesTransitively(s.tasks, Apply(c, s, es[0]).tasks, Run(c, s, es).tasks);
    }
  }
}
