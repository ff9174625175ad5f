/** When a finished record can still change: only when a result for it is delivered,
    and then exactly as that result says. */
module Finality {
  import opened Timestamps
  import opened Types
  import opened TaskSpec
  import opened Protocol
  import opened Evolution
  import opened Invariants
  import opened Pool
  import opened Claims
  import Rollout

  predicate FinishedKept(a: Tasks, b: Tasks) {
    a.Keys <= b.Keys && forall id <- a :: a[id].status.Terminal() ==> b[id] == a[id]
  }

  lemma FinishedUnchanged(tasks: Tasks)
    ensures FinishedKept(tasks, tasks)
  {
  }

  lemma OpenReplaced(tasks: Tasks, id: string, t: Task)
    requires id in tasks ==> !tasks[id].status.Terminal()
    ensures FinishedKept(tasks, tasks[id := t])
  {
  }

  lemma RequestKeepsFinished(s: State, e: RequestEvent)
    ensures FinishedKept(s.tasks, ApplyRequest(s, e).tasks)
  {
    FinishedUnchanged(s.tasks);
    match e {
      case Insert(h, id, now) =>
        if h in s.handlers && s.handlers[h].Drafting? && id !in s.tasks {
          OpenReplaced(s.tasks, id, s.handlers[h].draft.(id := id, created := now));
        }
      case Cancel(id, now) =>
        if id in s.tasks && CancelOf(s.tasks[id], now).Ok? {
          OpenReplaced(s.tasks, id, CancelOf(s.tasks[id], now).value);
        }
      case _ =>
    }
    hide FinishedKept, KeyFree, CancelOf, Rollout.Eligible, Retryable;
  }

  lemma TransferKeepsFinished(c: Config, s: State, e: TransferEvent)
    requires e.Poll?
    ensures FinishedKept(s.tasks, ApplyTransfer(c, s, e).tasks)
  {
  }

  lemma ConfirmationKeepsFinished(tasks: Tasks, serverID: string, version: string, when: string -> Instant)
    ensures FinishedKept(tasks, UpdatesConfirmed(tasks, serverID, version, when))
  {
    hide Confirmed, TextOf;
  }

  lemma BeatKeepsFinished(s: State, e: BeatEvent)
    ensures FinishedKept(s.tasks, ApplyBeat(s, e).tasks)
  {
    FinishedUnchanged(s.tasks);
    BeatsOnlyConfirm(s, e);
    if e.ConfirmBeat? && e.h in s.handlers && s.handlers[e.h].Stored? && s.handlers[e.h].beat < |s.beats| {
      var b := s.beats[s.handlers[e.h].beat];
      ConfirmationKeepsFinished(s.tasks, b.serverID, b.version, e.when);
    }
    hide FinishedKept, UpdatesConfirmed, DoSendBeat, DoStoreBeat, DoAckBeat;
  }

  /** Delivery of a result for `id`. */
  predicate Delivers(s: State, e: Event, id: string) {
    && e.ByTransfer? && e.transfer.Deliver?
    && e.transfer.report < |s.reports|
    && s.reports[e.transfer.report].taskID == id
    && id in s.tasks && s.reports[e.transfer.report].serverID == s.tasks[id].serverID
  }

  lemma DeliveryChanges(c: Config, s: State, e: TransferEvent, id: string)
    requires e.Deliver? && id in s.tasks
    ensures var t := ApplyTransfer(c, s, e);
            && id in t.tasks
            && (!Delivers(s, ByTransfer(e), id) ==> t.tasks[id] == s.tasks[id])
            && (Delivers(s, ByTransfer(e), id) ==>
                  var r := s.reports[e.report];
                  t.tasks[id] == Reported(s.tasks[id], r.success, r.output, r.problem, e.now))
  {
    hide Reported, DoPoll;
    var r := if e.report < |s.reports| then Some(s.reports[e.report]) else None;
    if r.Some? && r.value.taskID in s.tasks && s.tasks[r.value.taskID].serverID == r.value.serverID {
      var done := Reported(s.tasks[r.value.taskID], r.value.success, r.value.output, r.value.problem, e.now);
      assert ApplyTransfer(c, s, e) == s.(tasks := s.tasks[r.value.taskID := done]);
    } else {
      assert ApplyTransfer(c, s, e) == s;
    }
    hide ApplyTransfer;
  }

  /** A finished record changes in a step only if that step delivers a result for
      it, and then it becomes what the result says. */
  lemma FinishedChangesOnlyByReport(c: Config, s: State, e: Event, id: string)
    requires Held(s) && Pooled(c, s) && id in s.tasks && s.tasks[id].status.Terminal()
    ensures id in Apply(c, s, e).tasks
    ensures !Delivers(s, e, id) ==> Apply(c, s, e).tasks[id] == s.tasks[id]
    ensures Delivers(s, e, id) ==>
              var r := s.reports[e.transfer.report];
              Apply(c, s, e).tasks[id] == Reported(s.tasks[id], r.success, r.output, r.problem, e.transfer.now)
  {
    hide Held, Pooled, Reported, ApplyRequest, ApplyWorker, ApplyAdmin, ApplyBeat, ApplyTransfer, ApplyAgent;
    match e {
      case ByRequest(r) => RequestKeepsFinished(s, r);
      case ByWorker(w) => WorkerResultStands(c, s, w, id);
      case ByAdmin(a) => AdminResultStands(s, a, id);
      case ByBeat(b) => BeatKeepsFinished(s, b);
      case ByTransfer(x) =>
        if x.Poll? {
          TransferKeepsFinished(c, s, x);
        } else {
          DeliveryChanges(c, s, x, id);
        }
      case ByAgent(a) => AgentKeepsTasks(s, a);
    }
  }

  /** So the result handler, which does not look at the status, overwrites a
      finished status exactly when cancellation was not requested and the result
      disagrees with it, or when it was requested and the task had failed. */
  lemma LateReportKeepsStatus(t: Task, success: bool, output: string, problem: string, now: Instant)
    requires t.status.Terminal() && FlagAgrees(t)
    ensures Reported(t, success, output, problem, now).status == t.status <==>
            if t.cancelRequested then !t.status.Failed? else t.status.Success? == success
  {
  }

  // ---------- a cancellation that outlives its execution ----------

  /** A local record whose execution was asked to stop, and was requeued by a restart. */
  predicate Parked(t: Task) {
    t.serverID == LOCAL && t.status.Pending? && t.cancelRequested
  }

  predicate Cancels(e: Event, id: string) {
    e.ByRequest? && e.request.Cancel? && e.request.id == id
  }

  lemma RequestKeepsParked(s: State, e: RequestEvent, id: string)
    requires id in s.tasks && !(e.Cancel? && e.id == id)
    ensures id in ApplyRequest(s, e).tasks && ApplyRequest(s, e).tasks[id] == s.tasks[id]
  {
    hide KeyFree, CancelOf, Rollout.Eligible, Retryable, RetryOf;
  }

  lemma WorkerKeepsParked(c: Config, s: State, e: WorkerEvent, id: string)
    requires Pooled(c, s) && id in s.tasks && Parked(s.tasks[id])
    ensures id in ApplyWorker(c, s, e).tasks && ApplyWorker(c, s, e).tasks[id] == s.tasks[id]
  {
    if e.Finish? && e.w in s.workers {
      assert OwnsRunning(s.tasks, s.workers[e.w]);
    }
    hide Pooled, Halted, Permits, Bump, Reported, DoSpawn, DoAcquire, DoCheckBatch, DoCommandDone;
    if !e.Finish? && !e.Claim? {
      WaitersKeepTasks(c, s, e);
    }
  }

  lemma BeatKeepsParked(s: State, e: BeatEvent, id: string)
    requires GoodMessages(s) && id in s.tasks && Parked(s.tasks[id])
    ensures id in ApplyBeat(s, e).tasks && ApplyBeat(s, e).tasks[id] == s.tasks[id]
  {
    BeatsOnlyConfirm(s, e);
    hide Confirmed, DoSendBeat, DoStoreBeat, DoAckBeat;
  }

  lemma TransferKeepsParked(c: Config, s: State, e: TransferEvent, id: string)
    requires GoodMessages(s) && GoodAgents(s) && id in s.tasks && Parked(s.tasks[id])
    ensures id in ApplyTransfer(c, s, e).tasks && ApplyTransfer(c, s, e).tasks[id] == s.tasks[id]
  {
    hide Halted, Reported, Bump, GoodPhase;
  }

  lemma AdminKeepsParked(s: State, e: AdminEvent, id: string)
    requires id in s.tasks && Parked(s.tasks[id])
    ensures id in ApplyAdmin(s, e).tasks && ApplyAdmin(s, e).tasks[id] == s.tasks[id]
  {
  }

  /** Another cancellation ends it at once. */
  lemma ParkedIsCanceled(c: Config, s: State, id: string, now: Instant)
    requires id in s.tasks && Parked(s.tasks[id])
    ensures var t := Apply(c, s, ByRequest(Cancel(id, now))); id in t.tasks && t.tasks[id].status.Canceled?
  {
  }

  /** Nothing else moves it. */
  lemma ParkedStays(c: Config, s: State, e: Event, id: string)
    requires Held(s) && Pooled(c, s) && id in s.tasks && Parked(s.tasks[id]) && !Cancels(e, id)
    ensures id in Apply(c, s, e).tasks && Apply(c, s, e).tasks[id] == s.tasks[id]
  {
    assert GoodMessages(s) && GoodAgents(s);
    hide Held, Pooled, GoodMessages, GoodAgents, Parked, ApplyRequest, ApplyWorker, ApplyAdmin, ApplyBeat,
         ApplyTransfer, ApplyAgent;
    match e {
      case ByRequest(r) => RequestKeepsParked(s, r, id);
      case ByWorker(w) => WorkerKeepsParked(c, s, w, id);
      case ByAdmin(a) => AdminKeepsParked(s, a, id);
      case ByBeat(b) => BeatKeepsParked(s, b, id);
      case ByTransfer(x) => TransferKeepsParked(c, s, x, id);
      case ByAgent(a) => AgentKeepsTasks(s, a);
    }
  }
}
