/** One record under one event, written out field by field: a second definition of what
    the machine does to its table, record by record, and the proof that both agree. */
module Ledger {
  import opened Timestamps
  import opened Types
  import opened TaskSpec
  import opened Protocol
  import opened Evolution
  import opened Invariants
  import opened Pool
  import opened Theorems
  import Rollout

  // ---------- a record that exists ----------

  /** A result for `t`, on time or late; a requested cancellation goes first. */
  function Ended(t: Task, success: bool, output: string, problem: string, now: Instant): Task {
    if t.cancelRequested
    then t.(status := Canceled, finished := Some(now), output := output,
            error := if problem == "" then "task canceled" else problem)
    else t.(status := if success then Success else Failed, finished := Some(now), output := output, error := problem)
  }

  function AfterRequest(e: RequestEvent, id: string, t: Task): Task {
    if !e.Cancel? || e.id != id then t
    else if t.status == Pending then t.(status := Canceled, cancelRequested := true, finished := Some(e.now))
    else if t.status == Running then t.(cancelRequested := true)
    else t
  }

  function AfterWorker(s: State, e: WorkerEvent, id: string, t: Task): Task {
    if e.w !in s.workers || s.workers[e.w].id != id then t
    else if e.Claim? && s.workers[e.w].Holding? && t.status == Pending && !t.cancelRequested
    then t.(status := Running, started := Some(e.now))
    else if e.Finish? && s.workers[e.w].Reporting?
    then Ended(t, s.workers[e.w].success, s.workers[e.w].output, s.workers[e.w].problem, e.now)
    else t
  }

  function AfterAdmin(e: AdminEvent, t: Task): Task {
    if e.Crash? && t.status == Running
    then t.(status := Pending, started := None, error := "controller restarted; task requeued")
    else t
  }

  /** The heartbeat whose confirmation this is. */
  function Confirming(s: State, e: BeatEvent): Option<Beat> {
    if e.ConfirmBeat? && e.h in s.handlers && s.handlers[e.h].Stored? && s.handlers[e.h].beat < |s.beats|
    then Some(s.beats[s.handlers[e.h].beat]) else None
  }

  function AfterBeat(s: State, e: BeatEvent, id: string, t: Task): Task {
    match Confirming(s, e)
    case None => t
    case Some(b) =>
      if && b.serverID != "" && b.version != "" && t.serverID == b.serverID && t.action == "agent.update"
         && "version" in t.args && t.args["version"] == Text(b.version) && t.status in {Pending, Running}
      then t.(status := if t.cancelRequested then Canceled else Success, finished := Some(e.when(id)),
              output := "Agent heartbeat confirmed version " + b.version,
              error := if t.cancelRequested then "task canceled after Agent update" else "")
      else t
  }

  /** The poll reaches its `i`-th candidate: every one before it was stopped with its batch. */
  predicate Reached(c: Config, s: State, order: seq<string>, i: nat)
    requires i < |order| && forall id <- order :: id in s.tasks
  {
    forall j :: 0 <= j < i ==> Halted(s.tasks, s.tasks[order[j]].batchID, c.failureStopPercent)
  }

  function AfterTransfer(c: Config, s: State, e: TransferEvent, id: string, t: Task): Task {
    match e
    case Deliver(n, now) =>
      if n < |s.reports| && s.reports[n].taskID == id && s.reports[n].serverID == t.serverID
      then Ended(t, s.reports[n].success, s.reports[n].output, s.reports[n].problem, now) else t
    case Poll(serverID, order, when, delivered) =>
      if && serverID in s.agents && (delivered ==> s.agents[serverID].phase.Ready?)
         && PendingListed(s.tasks, serverID, order)
         && exists i :: 0 <= i < |order| && order[i] == id && Reached(c, s, order, i)
      then
        if Halted(s.tasks, t.batchID, c.failureStopPercent)
        then t.(status := Failed, error := "batch stopped after reaching failure threshold", finished := Some(when(id)))
        else t.(status := Running, started := Some(when(id)))
      else t
  }

  /** The record that `t`, stored under `id`, becomes. */
  function RecordAfter(c: Config, s: State, e: Event, id: string, t: Task): Task {
    match e
    case ByRequest(r) => AfterRequest(r, id, t)
    case ByWorker(w) => AfterWorker(s, w, id, t)
    case ByAdmin(a) => AfterAdmin(a, t)
    case ByBeat(b) => AfterBeat(s, b, id, t)
    case ByTransfer(x) => AfterTransfer(c, s, x, id, t)
    case ByAgent(_) => t
  }

  // ---------- a record that does not exist yet ----------

  /** The event stores a new record: a waiting draft under a new id and a free key. */
  predicate Creates(s: State, e: Event, id: string) {
    && e.ByRequest? && e.request.Insert? && e.request.id == id && id != "" && id !in s.tasks
    && e.request.h in s.handlers && s.handlers[e.request.h].Drafting? && !s.handlers[e.request.h].lookupFirst
    && var key := s.handlers[e.request.h].draft.key;
       key == "" || forall other <- s.tasks :: s.tasks[other].key != key
  }

  // ---------- both definitions agree ----------

  /** At `id`, the table `b` is what the ledger says of `a`. */
  predicate Agrees(c: Config, s: State, e: Event, id: string) {
    var after := Apply(c, s, e).tasks;
    && (id in s.tasks ==> id in after && after[id] == RecordAfter(c, s, e, id, s.tasks[id]))
    && (id !in s.tasks ==> (id in after <==> Creates(s, e, id)))
    && (Creates(s, e, id) ==>
          id in after && after[id] == s.handlers[e.request.h].draft.(id := id, created := e.request.now))
  }

  lemma InsertAgrees(c: Config, s: State, h: nat, newID: string, now: Instant, id: string)
    ensures Agrees(c, s, ByRequest(Insert(h, newID, now)), id)
  {
    assert Apply(c, s, ByRequest(Insert(h, newID, now))) == DoInsert(s, h, newID, now);
    hide Apply;
  }

  lemma CancelAgrees(c: Config, s: State, x: string, now: Instant, id: string)
    ensures Agrees(c, s, ByRequest(Cancel(x, now)), id)
  {
    assert Apply(c, s, ByRequest(Cancel(x, now))) == DoCancel(s, x, now);
    hide Apply;
  }

  lemma RequestAgrees(c: Config, s: State, e: RequestEvent, id: string)
    ensures Agrees(c, s, ByRequest(e), id)
  {
    if e.Insert? {
      hide Agrees;
      InsertAgrees(c, s, e.h, e.id, e.now, id);
    } else if e.Cancel? {
      hide Agrees;
      CancelAgrees(c, s, e.id, e.now, id);
    } else {
      DraftFrame(s, e);
      hide ApplyRequest;
    }
  }

  lemma ClaimAgrees(c: Config, s: State, w: nat, now: Instant, id: string)
    ensures Agrees(c, s, ByWorker(WorkerEvent.Claim(w, now)), id)
  {
    hide Bump;
    assert Apply(c, s, ByWorker(WorkerEvent.Claim(w, now))) == DoClaim(s, w, now);
    hide Apply;
  }

  lemma FinishAgrees(c: Config, s: State, w: nat, now: Instant, id: string)
    ensures Agrees(c, s, ByWorker(Finish(w, now)), id)
  {
    assert Apply(c, s, ByWorker(Finish(w, now))) == DoFinish(s, w, now);
    hide Apply;
  }

  lemma WorkerAgrees(c: Config, s: State, e: WorkerEvent, id: string)
    ensures Agrees(c, s, ByWorker(e), id)
  {
    if e.Claim? {
      hide Agrees;
      ClaimAgrees(c, s, e.w, e.now, id);
    } else if e.Finish? {
      hide Agrees;
      FinishAgrees(c, s, e.w, e.now, id);
    } else {
      WaitersKeepTasks(c, s, e);
      hide ApplyWorker;
    }
  }

  lemma AdminAgrees(c: Config, s: State, e: AdminEvent, id: string)
    ensures Agrees(c, s, ByAdmin(e), id)
  {
    if e.Crash? {
      CrashFrame(s, e.now);
      hide DoCrash;
    }
    hide DoRegister, LocalPending, LocalRecord;
    OthersKeepTasks(s, e);
  }

  lemma OthersKeepTasks(s: State, e: AdminEvent)
    ensures !e.Crash? ==> ApplyAdmin(s, e).tasks == s.tasks
  {
    hide DoCrash;
  }

  lemma BeatAgrees(c: Config, s: State, e: BeatEvent, id: string)
    ensures Agrees(c, s, ByBeat(e), id)
  {
    BeatsOnlyConfirm(s, e);
    if Confirming(s, e).Some? && id in s.tasks {
      var b := Confirming(s, e).value;
      ConfirmationWrites(s.tasks, b.serverID, b.version, e.when, id);
    }
    hide DoSendBeat, DoStoreBeat, DoAckBeat, Confirmed;
  }

  lemma DeliverAgrees(c: Config, s: State, n: nat, now: Instant, id: string)
    ensures Agrees(c, s, ByTransfer(Deliver(n, now)), id)
  {
    assert Apply(c, s, ByTransfer(Deliver(n, now))) == DoDeliver(s, n, now);
    hide Apply, Halted, PendingListed;
  }

  /** What a poll does to one record: candidates before the first one whose batch is not
      stopped are failed, that one is started, and no other record changes. */
  lemma PolledRecord(c: Config, s: State, order: seq<string>, when: string -> Instant, id: string)
    requires forall x <- order :: x in s.tasks
    requires forall i, j :: 0 <= i < j < |order| ==> order[i] != order[j]
    requires id in s.tasks
    ensures var after := Polled(s.tasks, order, c.failureStopPercent, when).0; var t := s.tasks[id];
            && after.Keys == s.tasks.Keys
            && after[id] ==
               if exists i :: 0 <= i < |order| && order[i] == id && Reached(c, s, order, i)
               then
                 if Halted(s.tasks, t.batchID, c.failureStopPercent)
                 then t.(status := Failed, error := "batch stopped after reaching failure threshold",
                         finished := Some(when(id)))
                 else t.(status := Running, started := Some(when(id)))
               else t
  {
    hide Halted;
    var k := HaltedPrefix(s.tasks, order, c.failureStopPercent);
    assert forall i :: 0 <= i < |order| ==> (Reached(c, s, order, i) <==> i <= k);
    assert id in order[..k] <==> exists i :: 0 <= i < k && order[i] == id;
  }

  lemma PollAgrees(c: Config, s: State, serverID: string, order: seq<string>, when: string -> Instant, delivered: bool,
                   id: string)
    ensures Agrees(c, s, ByTransfer(Poll(serverID, order, when, delivered)), id)
  {
    hide Polled, Halted, Bump, Reached;
    var e := ByTransfer(Poll(serverID, order, when, delivered));
    PollTasks(c, s, serverID, order, when, delivered);
    hide Apply;
    if PendingListed(s.tasks, serverID, order) {
      PolledKeys(s.tasks, order, c.failureStopPercent, when);
      if id in s.tasks {
        PolledRecord(c, s, order, when, id);
      }
    }
  }

  lemma PollTasks(c: Config, s: State, serverID: string, order: seq<string>, when: string -> Instant, delivered: bool)
    ensures Apply(c, s, ByTransfer(Poll(serverID, order, when, delivered))).tasks ==
            if serverID in s.agents && PendingListed(s.tasks, serverID, order)
               && (delivered ==> s.agents[serverID].phase.Ready?)
            then Polled(s.tasks, order, c.failureStopPercent, when).0 else s.tasks
  {
    hide Polled, PendingListed, Bump;
  }

  lemma PolledKeys(tasks: Tasks, order: seq<string>, threshold: int, when: string -> Instant)
    requires forall x <- order :: x in tasks
    ensures Polled(tasks, order, threshold, when).0.Keys == tasks.Keys
  {
    hide Halted;
  }

  lemma TransferAgrees(c: Config, s: State, e: TransferEvent, id: string)
    ensures Agrees(c, s, ByTransfer(e), id)
  {
    hide Agrees;
    match e {
      case Deliver(n, now) => DeliverAgrees(c, s, n, now, id);
      case Poll(serverID, order, when, delivered) => PollAgrees(c, s, serverID, order, when, delivered, id);
    }
  }

  lemma AgentAgrees(c: Config, s: State, e: AgentEvent, id: string)
    ensures Agrees(c, s, ByAgent(e), id)
  {
    AgentKeepsTasks(s, e);
    hide ApplyAgent;
  }

  /** In every state, whatever the event: each stored record becomes what the ledger says,
      and a new one is exactly the waiting draft that the event inserts. */
  lemma RecordsFollowLedger(c: Config, s: State, e: Event, id: string)
    ensures Agrees(c, s, e, id)
  {
    hide Agrees;
    match e {
      case ByRequest(r) => RequestAgrees(c, s, r, id);
      case ByWorker(w) => WorkerAgrees(c, s, w, id);
      case ByAdmin(a) => AdminAgrees(c, s, a, id);
      case ByBeat(b) => BeatAgrees(c, s, b, id);
      case ByTransfer(x) => TransferAgrees(c, s, x, id);
      case ByAgent(a) => AgentAgrees(c, s, a, id);
    }
  }

  /** In every run: a heartbeat's event changes a record only if that server sent a
      heartbeat with the version that the record, an open update of that server, asks
      for. So no server's report touches a task of another. */
  lemma ConfirmationIsOwn(c: Config, es: seq<Event>, e: BeatEvent, id: string)
    requires var s := Run(c, Initial(), es); var t := Apply(c, s, ByBeat(e));
             id in s.tasks && id in t.tasks && t.tasks[id] != s.tasks[id]
    ensures var s := Run(c, Initial(), es); var task := s.tasks[id];
            && task.action == "agent.update" && task.status in {Pending, Running}
            && exists n :: 0 <= n < |s.beats| && s.beats[n].serverID == task.serverID && s.beats[n].serverID != "local"
                           && "version" in task.args && task.args["version"] == Text(s.beats[n].version)
  {
    ReachableInv(c, es);
    var s := Run(c, Initial(), es);
    assert GoodMessages(s);
    RecordsFollowLedger(c, s, ByBeat(e), id);
    hide Run, Inv, GoodMessages, Apply;
    assert Confirming(s, e).Some?;
    OwnBeat(s, e, id);
  }

  lemma OwnBeat(s: State, e: BeatEvent, id: string)
    requires GoodMessages(s) && Confirming(s, e).Some? && id in s.tasks
             && AfterBeat(s, e, id, s.tasks[id]) != s.tasks[id]
    ensures var task := s.tasks[id];
            exists n :: 0 <= n < |s.beats| && s.beats[n].serverID == task.serverID && s.beats[n].serverID != "local"
                        && "version" in task.args && task.args["version"] == Text(s.beats[n].version)
  {
    var n := s.handlers[e.h].beat;
    assert s.beats[n] == Confirming(s, e).value;
  }

  // ---------- where a success comes from ----------

  predicate ReportedSuccess(s: State, t: Task) {
    exists n :: 0 <= n < |s.reports| && s.reports[n].taskID == t.id && s.reports[n].serverID == t.serverID
                && s.reports[n].success
  }

  predicate ReportedVersion(s: State, t: Task) {
    && t.action == "agent.update" && "version" in t.args
    && exists n ::
         0 <= n < |s.beats| && s.beats[n].serverID == t.serverID && t.args["version"] == Text(s.beats[n].version)
  }

  /** The server's Agent has reported success on the task, or - for an update - has sent
      a heartbeat with the version that it asks for. */
  predicate Earned(s: State, t: Task) {
    ReportedSuccess(s, t) || ReportedVersion(s, t)
  }

  lemma EarnedStays(s: State, u: State, t: Task, v: Task)
    requires Earned(s, t) && SameIdentity(t, v) && s.reports <= u.reports && s.beats <= u.beats
    ensures Earned(u, v)
  {
    if ReportedSuccess(s, t) {
      var n :| 0 <= n < |s.reports| && s.reports[n].taskID == t.id && s.reports[n].serverID == t.serverID
               && s.reports[n].success;
      assert u.reports[n] == s.reports[n];
    } else {
      var n :| 0 <= n < |s.beats| && s.beats[n].serverID == t.serverID && t.args["version"] == Text(s.beats[n].version);
      assert u.beats[n] == s.beats[n];
    }
  }

  /** A step makes a remote task a success only by such a message. */
  lemma StepEarns(c: Config, s: State, e: Event, id: string)
    requires Keyed(s.tasks) && Owned(s) && GoodHandlers(s) && id in Apply(c, s, e).tasks
    requires var u := Apply(c, s, e).tasks[id]; u.status == Success && u.serverID != "local"
    requires id in s.tasks ==> s.tasks[id].status != Success
    ensures id in s.tasks && Earned(s, s.tasks[id])
  {
    RecordsFollowLedger(c, s, e, id);
    hide Apply, Keyed, Owned, GoodHandlers;
    if id !in s.tasks {
      DraftsArePending(s, e.request.h);
    } else {
      assert s.tasks[id].id == id by { UnderItsID(s.tasks, id); }
      match e {
        case ByWorker(w) => WorkersAreLocal(s, w.w);
        case ByBeat(b) => BeatEarns(s, b, id);
        case ByTransfer(x) => ReportEarns(c, s, x, id);
        case _ =>
      }
    }
  }

  lemma UnderItsID(tasks: Tasks, id: string)
    requires Keyed(tasks) && id in tasks
    ensures tasks[id].id == id
  {
  }

  lemma DraftsArePending(s: State, h: nat)
    requires GoodHandlers(s) && h in s.handlers && s.handlers[h].Drafting?
    ensures s.handlers[h].draft.status.Pending?
  {
    assert GoodHandler(s, s.handlers[h]);
  }

  lemma WorkersAreLocal(s: State, w: nat)
    requires Owned(s)
    ensures w in s.workers ==> s.workers[w].id in s.tasks && s.tasks[s.workers[w].id].serverID == "local"
  {
    assert w in s.workers ==> OwnsRunning(s.tasks, s.workers[w]);
  }

  lemma BeatEarns(s: State, e: BeatEvent, id: string)
    requires id in s.tasks && AfterBeat(s, e, id, s.tasks[id]) != s.tasks[id]
    ensures Earned(s, s.tasks[id])
  {
    var n := s.handlers[e.h].beat;
    assert s.beats[n] == Confirming(s, e).value;
  }

  lemma ReportEarns(c: Config, s: State, e: TransferEvent, id: string)
    requires id in s.tasks && s.tasks[id].id == id && s.tasks[id].status != Success
    requires AfterTransfer(c, s, e, id, s.tasks[id]).status == Success
    ensures Earned(s, s.tasks[id])
  {
    hide Halted, Reached, PendingListed;
    if e.Deliver? {
      var n := e.report;
      assert s.reports[n].taskID == id;
    }
  }

  /** In every run: a remote task is a success only if its own Agent has reported success
      on it, or it is an update and its own Agent has reported the version. */
  lemma {:induction false} SuccessIsEarned(c: Config, es: seq<Event>, id: string)
    requires var s := Run(c, Initial(), es);
             id in s.tasks && s.tasks[id].serverID != "local" && s.tasks[id].status == Success
    ensures var s := Run(c, Initial(), es); Earned(s, s.tasks[id])
    decreases |es|
  {
    if es != [] {
      var n := |es| - 1;
      AtNext(c, es, n);
      AtBefore(c, es, n);
      AtBefore(c, es[..n], n);
      var s, t := At(c, es, n), Run(c, Initial(), es);
      ReachableInv(c, es[..n]);
      assert Keyed(s.tasks) && Owned(s) && GoodHandlers(s);
      StepEvolves(c, s, es[n]);
      MessagesGrow(c, s, es[n]);
      hide Run, At, Apply, Inv, Keyed, Owned, GoodHandlers, Earned;
      if id in s.tasks && s.tasks[id].status == Success {
        assert Evolves(s.tasks[id], t.tasks[id]);
        SuccessIsEarned(c, es[..n], id);
      } else {
        StepEarns(c, s, es[n], id);
        assert Evolves(s.tasks[id], t.tasks[id]);
      }
      EarnedStays(s, t, s.tasks[id], t.tasks[id]);
    }
  }

  lemma MessagesGrow(c: Config, s: State, e: Event)
    ensures s.reports <= Apply(c, s, e).reports && s.beats <= Apply(c, s, e).beats
  {
    hide ApplyRequest, ApplyWorker, ApplyAdmin, ApplyBeat, ApplyTransfer, ApplyAgent;
    match e {
      case ByRequest(r) => RequestFrame(s, r);
      case ByWorker(w) => WorkerFrame(c, s, w);
      case ByAdmin(a) => AdminFrame(s, a);
      case ByBeat(b) => BeatFrame(s, b);
      case ByTransfer(x) => TransferFrame(c, s, x);
      case ByAgent(a) => AgentMoves(s, a); AgentFrame(s, a);
    }
  }
}
