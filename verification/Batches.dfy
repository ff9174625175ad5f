/** The failure stop of a batch over whole runs: how every event moves the counts,
    exactly when a stopped batch goes on, and that nothing of a stopped batch starts. */
module Batches {
  import opened Timestamps
  import opened Types
  import opened TaskSpec
  import opened Protocol
  import opened Evolution
  import opened Invariants
  import opened Pool
  import opened Theorems
  import Claims
  import Rollout
  import Updates

  // ---------- counts over one table change ----------

  function One(b: bool): nat {
    if b then 1 else 0
  }

  predicate Completed(t: Task, batchID: string) {
    t.batchID == batchID && t.status.Terminal()
  }

  predicate FailedOf(t: Task, batchID: string) {
    t.batchID == batchID && t.status.Failed?
  }

  /** The counts of a batch move by `done` and `failed`. */
  predicate Shifted(a: Tasks, b: Tasks, batchID: string, done: int, failed: int) {
    && |CompletedIn(b, batchID)| == |CompletedIn(a, batchID)| + done
    && |FailedIn(b, batchID)| == |FailedIn(a, batchID)| + failed
  }

  lemma MovedMember(a: set<string>, b: set<string>, id: string)
    requires forall x :: x != id ==> (x in a <==> x in b)
    ensures |b| == |a| - One(id in a) + One(id in b)
  {
    assert b - {id} == a - {id};
    assert id !in a ==> a - {id} == a;
    assert id !in b ==> b - {id} == b;
  }

  /** Writing one record. */
  lemma WriteShifts(tasks: Tasks, id: string, t: Task, batchID: string)
    ensures Shifted(tasks, tasks[id := t], batchID,
                    One(Completed(t, batchID)) - One(id in tasks && Completed(tasks[id], batchID)),
                    One(FailedOf(t, batchID)) - One(id in tasks && FailedOf(tasks[id], batchID)))
  {
    MovedMember(CompletedIn(tasks, batchID), CompletedIn(tasks[id := t], batchID), id);
    MovedMember(FailedIn(tasks, batchID), FailedIn(tasks[id := t], batchID), id);
  }

  lemma SameShifts(tasks: Tasks, batchID: string)
    ensures Shifted(tasks, tasks, batchID, 0, 0)
  {
  }

  /** At `id`, the tables differ by `ids` having finished, as failed or not. */
  predicate DiffersAt(a: Tasks, b: Tasks, batchID: string, ids: set<string>, fail: bool, id: string) {
    && (id in CompletedIn(b, batchID) <==> id in CompletedIn(a, batchID) || id in ids)
    && !(id in CompletedIn(a, batchID) && id in ids)
    && (id in FailedIn(b, batchID) <==> id in FailedIn(a, batchID) || (fail && id in ids))
    && (id in FailedIn(a, batchID) ==> id in CompletedIn(a, batchID))
  }

  lemma ManyShift(a: Tasks, b: Tasks, batchID: string, ids: set<string>, fail: bool)
    requires forall id :: DiffersAt(a, b, batchID, ids, fail, id)
    ensures Shifted(a, b, batchID, |ids|, if fail then |ids| else 0)
  {
    hide CompletedIn, FailedIn;
    forall id
      ensures (id in CompletedIn(b, batchID) <==> id in CompletedIn(a, batchID) || id in ids)
      ensures !(id in CompletedIn(a, batchID) && id in ids) && !(id in FailedIn(a, batchID) && id in ids)
      ensures id in FailedIn(b, batchID) <==> id in FailedIn(a, batchID) || (fail && id in ids)
    {
      assert DiffersAt(a, b, batchID, ids, fail, id);
    }
    assert CompletedIn(b, batchID) == CompletedIn(a, batchID) + ids;
    assert FailedIn(b, batchID) == FailedIn(a, batchID) + if fail then ids else {};
    assert ids !! CompletedIn(a, batchID) && ids !! FailedIn(a, batchID);
  }

  // ---------- how an event moves the counts ----------

  function Awaiting(tasks: Tasks, serverID: string, version: string, batchID: string): set<string> {
    set id <- tasks |
      serverID != "" && version != "" && AwaitsVersion(tasks[id], serverID, version) && tasks[id].batchID == batchID
  }

  /** The candidates of the batch that a poll fails. */
  function StoppedBy(tasks: Tasks, order: seq<string>, threshold: int, batchID: string): set<string>
    requires forall id <- order :: id in tasks
  {
    set id <- order[..HaltedPrefix(tasks, order, threshold)] | tasks[id].batchID == batchID
  }

  predicate Fails(t: Task, success: bool) {
    !t.cancelRequested && !success
  }

  /** By how much an event moves the completed and the failed tasks of a batch. */
  function Tally(c: Config, s: State, e: Event, batchID: string): (int, int) {
    match e
    case ByRequest(r) => (RequestTally(s, r, batchID), 0)
    case ByWorker(w) => WorkerTally(s, w, batchID)
    case ByBeat(b) => (BeatTally(s, b, batchID), 0)
    case ByTransfer(x) => TransferTally(c, s, x, batchID)
    case _ => (0, 0)
  }

  /** A result for `t`, on time or late. */
  function ReportTally(t: Task, success: bool, batchID: string): (int, int) {
    if t.batchID != batchID then (0, 0)
    else (One(!t.status.Terminal()), One(Fails(t, success)) - One(t.status.Failed?))
  }

  lemma ReportShifts(tasks: Tasks, id: string, success: bool, output: string, problem: string, now: Instant,
                     batchID: string)
    requires id in tasks
    ensures var d := ReportTally(tasks[id], success, batchID);
            Shifted(tasks, tasks[id := Reported(tasks[id], success, output, problem, now)], batchID, d.0, d.1)
  {
    WriteShifts(tasks, id, Reported(tasks[id], success, output, problem, now), batchID);
    hide CompletedIn, FailedIn;
  }

  function RequestTally(s: State, e: RequestEvent, batchID: string): int {
    if e.Cancel? && e.id in s.tasks && s.tasks[e.id].status.Pending? && s.tasks[e.id].batchID == batchID then 1 else 0
  }

  function WorkerTally(s: State, e: WorkerEvent, batchID: string): (int, int) {
    if !e.Finish? || e.w !in s.workers || !s.workers[e.w].Reporting? || s.workers[e.w].id !in s.tasks then (0, 0)
    else
      var t := s.tasks[s.workers[e.w].id];
      ReportTally(t, s.workers[e.w].success, batchID)
  }

  function BeatTally(s: State, e: BeatEvent, batchID: string): int {
    if !e.ConfirmBeat? || e.h !in s.handlers || !s.handlers[e.h].Stored? || s.handlers[e.h].beat >= |s.beats| then 0
    else
      var b := s.beats[s.handlers[e.h].beat];
      |Awaiting(s.tasks, b.serverID, b.version, batchID)|
  }

  function TransferTally(c: Config, s: State, e: TransferEvent, batchID: string): (int, int) {
    match e
    case Poll(serverID, order, _, delivered) =>
      if serverID !in s.agents || !PendingListed(s.tasks, serverID, order)
         || (delivered && !s.agents[serverID].phase.Ready?) then (0, 0)
      else
        var n := |StoppedBy(s.tasks, order, c.failureStopPercent, batchID)|;
        (n, n)
    case Deliver(n, _) =>
      if n >= |s.reports| || s.reports[n].taskID !in s.tasks
         || s.tasks[s.reports[n].taskID].serverID != s.reports[n].serverID then (0, 0)
      else
        var t := s.tasks[s.reports[n].taskID];
        ReportTally(t, s.reports[n].success, batchID)
  }

  predicate StepShifts(c: Config, s: State, e: Event, batchID: string) {
    var d := Tally(c, s, e, batchID);
    Shifted(s.tasks, Apply(c, s, e).tasks, batchID, d.0, d.1)
  }

  lemma RequestShifts(s: State, e: RequestEvent, batchID: string)
    requires GoodHandlers(s)
    ensures Shifted(s.tasks, ApplyRequest(s, e).tasks, batchID, RequestTally(s, e, batchID), 0)
  {
    hide Shifted, DoInsert, DoCancel, Rollout.Eligible, Retryable, GoodHandlers;
    SameShifts(s.tasks, batchID);
    match e {
      case Insert(h, id, now) => InsertShifts(s, h, id, now, batchID);
      case Cancel(id, now) => CancelShifts(s, id, now, batchID);
      case _ =>
    }
  }

  lemma InsertShifts(s: State, h: nat, id: string, now: Instant, batchID: string)
    requires GoodHandlers(s)
    ensures Shifted(s.tasks, DoInsert(s, h, id, now).tasks, batchID, 0, 0)
  {
    SameShifts(s.tasks, batchID);
    if h in s.handlers && s.handlers[h].Drafting? && id !in s.tasks {
      assert GoodHandler(s, s.handlers[h]);
      WriteShifts(s.tasks, id, s.handlers[h].draft.(id := id, created := now), batchID);
    }
    hide Shifted, KeyFree, GoodTask;
  }

  lemma CancelShifts(s: State, id: string, now: Instant, batchID: string)
    ensures Shifted(s.tasks, DoCancel(s, id, now).tasks, batchID, RequestTally(s, Cancel(id, now), batchID), 0)
  {
    SameShifts(s.tasks, batchID);
    if id in s.tasks && CancelOf(s.tasks[id], now).Ok? {
      WriteShifts(s.tasks, id, CancelOf(s.tasks[id], now).value, batchID);
    }
    hide Shifted;
  }

  lemma WorkerShifts(c: Config, s: State, e: WorkerEvent, batchID: string)
    requires Pooled(c, s)
    ensures var d := WorkerTally(s, e, batchID); Shifted(s.tasks, ApplyWorker(c, s, e).tasks, batchID, d.0, d.1)
  {
    SameShifts(s.tasks, batchID);
    hide Shifted, Halted, Permits, Bump;
    match e {
      case Claim(w, now) =>
        if w in s.workers && s.workers[w].id in s.tasks {
          WriteShifts(s.tasks, s.workers[w].id, Started(s.tasks[s.workers[w].id], now), batchID);
        }
      case Finish(w, now) =>
        if w in s.workers && s.workers[w].Reporting? {
          var r := s.workers[w];
          assert OwnsRunning(s.tasks, r);
          ReportShifts(s.tasks, r.id, r.success, r.output, r.problem, now, batchID);
        }
        hide Pooled, Reported, ReportTally;
      case _ =>
        WaitersKeepTasks(c, s, e);
        hide ApplyWorker, Pooled;
    }
  }

  lemma RecoveryShifts(tasks: Tasks, batchID: string)
    ensures Shifted(tasks, Recovered(tasks), batchID, 0, 0)
  {
    assert CompletedIn(Recovered(tasks), batchID) == CompletedIn(tasks, batchID);
    assert FailedIn(Recovered(tasks), batchID) == FailedIn(tasks, batchID);
  }

  lemma AdminShifts(s: State, e: AdminEvent, batchID: string)
    ensures Shifted(s.tasks, ApplyAdmin(s, e).tasks, batchID, 0, 0)
  {
    SameShifts(s.tasks, batchID);
    RecoveryShifts(s.tasks, batchID);
    hide Shifted, Recovered;
  }

  lemma ConfirmationAt(tasks: Tasks, serverID: string, version: string, when: string -> Instant, batchID: string,
                       id: string)
    ensures DiffersAt(tasks, UpdatesConfirmed(tasks, serverID, version, when), batchID,
                      Awaiting(tasks, serverID, version, batchID), false, id)
  {
  }

  lemma ConfirmationShifts(tasks: Tasks, serverID: string, version: string, when: string -> Instant, batchID: string)
    ensures Shifted(tasks, UpdatesConfirmed(tasks, serverID, version, when), batchID,
                    |Awaiting(tasks, serverID, version, batchID)|, 0)
  {
    var ids := Awaiting(tasks, serverID, version, batchID);
    forall id
      ensures DiffersAt(tasks, UpdatesConfirmed(tasks, serverID, version, when), batchID, ids, false, id)
    {
      ConfirmationAt(tasks, serverID, version, when, batchID, id);
    }
    hide DiffersAt, UpdatesConfirmed, Awaiting, Shifted;
    ManyShift(tasks, UpdatesConfirmed(tasks, serverID, version, when), batchID, ids, false);
  }

  lemma BeatShifts(s: State, e: BeatEvent, batchID: string)
    ensures Shifted(s.tasks, ApplyBeat(s, e).tasks, batchID, BeatTally(s, e, batchID), 0)
  {
    SameShifts(s.tasks, batchID);
    BeatsOnlyConfirm(s, e);
    if e.ConfirmBeat? && e.h in s.handlers && s.handlers[e.h].Stored? && s.handlers[e.h].beat < |s.beats| {
      var b := s.beats[s.handlers[e.h].beat];
      ConfirmationShifts(s.tasks, b.serverID, b.version, e.when, batchID);
    }
    hide Shifted, UpdatesConfirmed, Awaiting, DoSendBeat, DoStoreBeat, DoAckBeat;
  }

  lemma PollShifts(tasks: Tasks, serverID: string, order: seq<string>, threshold: int, when: string -> Instant,
                   batchID: string)
    requires PendingListed(tasks, serverID, order)
    ensures var n := |StoppedBy(tasks, order, threshold, batchID)|;
            Shifted(tasks, Polled(tasks, order, threshold, when).0, batchID, n, n)
  {
    hide Halted;
    var k := HaltedPrefix(tasks, order, threshold);
    var failed := PrefixFailed(tasks, order, k, when);
    var ids := StoppedBy(tasks, order, threshold, batchID);
    PrefixShifts(tasks, order, k, when, ids, batchID);
    hide CompletedIn, FailedIn, StoppedBy, PrefixFailed;
    PolledAt(tasks, order, threshold, when, k);
    if k < |order| {
      PrefixFailedStep(tasks, order, k, when);
      WriteShifts(failed, order[k], Started(tasks[order[k]], when(order[k])), batchID);
    }
  }

  lemma PrefixAt(tasks: Tasks, order: seq<string>, k: nat, when: string -> Instant, batchID: string, id: string)
    requires k <= |order| && forall id <- order :: id in tasks && tasks[id].status.Pending?
    ensures DiffersAt(tasks, PrefixFailed(tasks, order, k, when), batchID,
                      set id <- order[..k] | tasks[id].batchID == batchID, true, id)
  {
  }

  lemma PrefixShifts(tasks: Tasks, order: seq<string>, k: nat, when: string -> Instant, ids: set<string>,
                     batchID: string)
    requires k <= |order| && forall id <- order :: id in tasks && tasks[id].status.Pending?
    requires ids == set id <- order[..k] | tasks[id].batchID == batchID
    ensures Shifted(tasks, PrefixFailed(tasks, order, k, when), batchID, |ids|, |ids|)
  {
    forall id
      ensures DiffersAt(tasks, PrefixFailed(tasks, order, k, when), batchID, ids, true, id)
    {
      PrefixAt(tasks, order, k, when, batchID, id);
    }
    hide DiffersAt, PrefixFailed, Shifted;
    ManyShift(tasks, PrefixFailed(tasks, order, k, when), batchID, ids, true);
  }

  lemma TransferShifts(c: Config, s: State, e: TransferEvent, batchID: string)
    ensures var d := TransferTally(c, s, e, batchID); Shifted(s.tasks, ApplyTransfer(c, s, e).tasks, batchID, d.0, d.1)
  {
    SameShifts(s.tasks, batchID);
    hide Shifted, PendingListed, Polled, StoppedBy, Bump;
    match e {
      case Poll(serverID, order, when, delivered) =>
        if PendingListed(s.tasks, serverID, order) {
          PollShifts(s.tasks, serverID, order, c.failureStopPercent, when, batchID);
        }
      case Deliver(n, now) =>
        DeliverShifts(c, s, e, batchID);
        hide ApplyTransfer, TransferTally;
    }
  }

  lemma DeliverShifts(c: Config, s: State, e: TransferEvent, batchID: string)
    requires e.Deliver?
    ensures var d := TransferTally(c, s, e, batchID); Shifted(s.tasks, ApplyTransfer(c, s, e).tasks, batchID, d.0, d.1)
  {
    SameShifts(s.tasks, batchID);
    if e.report < |s.reports| && s.reports[e.report].taskID in s.tasks {
      var r := s.reports[e.report];
      ReportShifts(s.tasks, r.taskID, r.success, r.output, r.problem, e.now, batchID);
    }
    hide Shifted, DoPoll, Reported, ReportTally;
  }

  /** The tally is exact, for every event in every reachable state and every batch. */
  lemma TallyIsExact(c: Config, s: State, e: Event, batchID: string)
    requires Held(s) && Pooled(c, s)
    ensures StepShifts(c, s, e, batchID)
  {
    assert GoodHandlers(s);
    hide Held, Pooled, Shifted, GoodHandlers, RequestTally, WorkerTally, BeatTally, TransferTally;
    hide ApplyRequest, ApplyWorker, ApplyAdmin, ApplyBeat, ApplyTransfer, ApplyAgent;
    SameShifts(s.tasks, batchID);
    match e {
      case ByRequest(r) => RequestShifts(s, r, batchID);
      case ByWorker(w) => WorkerShifts(c, s, w, batchID);
      case ByAdmin(a) => AdminShifts(s, a, batchID);
      case ByBeat(b) => BeatShifts(s, b, batchID);
      case ByTransfer(x) => TransferShifts(c, s, x, batchID);
      case ByAgent(a) => AgentKeepsTasks(s, a);
    }
  }

  // ---------- when a stopped batch goes on ----------

  /** A result that is no failure, for a task of the batch that is open or has failed. */
  predicate ReportReopens(t: Task, success: bool, batchID: string) {
    t.batchID == batchID && (!t.status.Terminal() || t.status.Failed?) && !Fails(t, success)
  }

  /** The event finishes an open task of the batch as success or canceled, or brings a
      late result that is no failure for a failed one. */
  predicate MayReopen(c: Config, s: State, e: Event, batchID: string) {
    match e
    case ByRequest(r) => RequestTally(s, r, batchID) == 1
    case ByWorker(w) =>
      && w.Finish? && w.w in s.workers && s.workers[w.w].Reporting? && s.workers[w.w].id in s.tasks
      && ReportReopens(s.tasks[s.workers[w.w].id], s.workers[w.w].success, batchID)
    case ByBeat(b) => BeatTally(s, b, batchID) > 0
    case ByTransfer(x) =>
      && x.Deliver? && x.report < |s.reports|
      && var r := s.reports[x.report];
         && r.taskID in s.tasks && s.tasks[r.taskID].serverID == r.serverID
         && ReportReopens(s.tasks[r.taskID], r.success, batchID)
    case _ => false
  }

  /** Any other event adds at most failures: every task it completes, it fails. */
  lemma OthersOnlyFail(c: Config, s: State, e: Event, batchID: string)
    requires !MayReopen(c, s, e, batchID)
    ensures 0 <= Tally(c, s, e, batchID).0 <= Tally(c, s, e, batchID).1
  {
    hide PendingListed, StoppedBy, Awaiting;
  }

  lemma MoreFailuresKeepRate(failed: nat, completed: nat, done: nat, more: nat, threshold: int)
    requires RateReached(failed, completed, threshold) && failed <= completed && done <= more
             && failed + more <= completed + done
    ensures RateReached(failed + more, completed + done, threshold)
  {
    var q := failed * 100 / completed;
    QuotientBounds(failed * 100, completed, q, 100);
    assert q * completed <= failed * 100 && q <= 100;
    assert q * (completed + done) == q * completed + q * done;
    Times(q, 100, done);
    QuotientBounds((failed + more) * 100, completed + done, q, 0);
  }

  /** In every reachable state: an event after which a stopped batch goes on finishes
      one of its open tasks as success or canceled, or brings a late result that is no
      failure for a failed one. Then it goes on exactly if the new rate is below the
      threshold. */
  lemma StoppedBatchReopensExactly(c: Config, es: seq<Event>, e: Event, batchID: string)
    requires Halted(Run(c, Initial(), es).tasks, batchID, c.failureStopPercent)
    ensures var s := Run(c, Initial(), es); var t := Apply(c, s, e); var (done, failed) := Tally(c, s, e, batchID);
            var f, n := |FailedIn(s.tasks, batchID)| + failed, |CompletedIn(s.tasks, batchID)| + done;
            && f >= 0 && n > 0
            && (Halted(t.tasks, batchID, c.failureStopPercent) <==> f * 100 / n >= c.failureStopPercent)
            && (!MayReopen(c, s, e, batchID) ==> Halted(t.tasks, batchID, c.failureStopPercent))
  {
    hide *;
    ReachableInv(c, es);
    StopStep(c, Run(c, Initial(), es), e, batchID);
  }

  lemma StopStep(c: Config, s: State, e: Event, batchID: string)
    requires Inv(c, s) && Halted(s.tasks, batchID, c.failureStopPercent)
    ensures var t := Apply(c, s, e); var d := Tally(c, s, e, batchID);
            var f, n := |FailedIn(s.tasks, batchID)| + d.1, |CompletedIn(s.tasks, batchID)| + d.0;
            && f >= 0 && n > 0
            && (Halted(t.tasks, batchID, c.failureStopPercent) <==> f * 100 / n >= c.failureStopPercent)
            && (!MayReopen(c, s, e, batchID) ==> Halted(t.tasks, batchID, c.failureStopPercent))
  {
    hide Held, Pooled, Claims.CountedState, Claims.RunsCovered, Updates.BeatsSettled, FailedIn, CompletedIn;
    TallyIsExact(c, s, e, batchID);
    TallyGrows(c, s, e, batchID);
    hide Inv, Apply, Tally, MayReopen, Halted, Shifted;
    var d := Tally(c, s, e, batchID);
    if !MayReopen(c, s, e, batchID) {
      OthersOnlyFail(c, s, e, batchID);
    }
    ShiftedVerdict(s.tasks, Apply(c, s, e).tasks, batchID, d.0, d.1, c.failureStopPercent);
  }

  lemma ShiftedVerdict(a: Tasks, b: Tasks, batchID: string, done: int, failed: int, threshold: int)
    requires Shifted(a, b, batchID, done, failed) && Halted(a, batchID, threshold) && done >= 0
    ensures var f, n := |FailedIn(a, batchID)| + failed, |CompletedIn(a, batchID)| + done;
            && f >= 0 && n > 0
            && (Halted(b, batchID, threshold) <==> f * 100 / n >= threshold)
            && (done <= failed ==> Halted(b, batchID, threshold))
  {
    FailedWithinCompleted(a, batchID);
    FailedWithinCompleted(b, batchID);
    hide FailedIn, CompletedIn;
    if done <= failed {
      MoreFailuresKeepRate(|FailedIn(a, batchID)|, |CompletedIn(a, batchID)|, done, failed, threshold);
    }
  }

  lemma TallyGrows(c: Config, s: State, e: Event, batchID: string)
    ensures Tally(c, s, e, batchID).0 >= 0
  {
    hide PendingListed, StoppedBy, Awaiting;
  }

  /** No event of the schedule may reopen the batch where it happens. */
  predicate NeverReopens(c: Config, s: State, es: seq<Event>, batchID: string)
    decreases |es|
  {
    es != [] ==> !MayReopen(c, s, es[0], batchID) && NeverReopens(c, Apply(c, s, es[0]), es[1..], batchID)
  }

  /** Until such an event, a stopped batch stays stopped. */
  lemma StoppedBatchStaysStopped(c: Config, es: seq<Event>, fs: seq<Event>, batchID: string)
    requires var s := Run(c, Initial(), es);
             Halted(s.tasks, batchID, c.failureStopPercent) && NeverReopens(c, s, fs, batchID)
    ensures Halted(Run(c, Run(c, Initial(), es), fs).tasks, batchID, c.failureStopPercent)
  {
    ReachableInv(c, es);
    StaysStoppedFrom(c, Run(c, Initial(), es), fs, batchID);
    hide Run, Inv, Halted, NeverReopens;
  }

  lemma {:induction false} StaysStoppedFrom(c: Config, s: State, es: seq<Event>, batchID: string)
    requires Inv(c, s) && Halted(s.tasks, batchID, c.failureStopPercent) && NeverReopens(c, s, es, batchID)
    ensures Halted(Run(c, s, es).tasks, batchID, c.failureStopPercent)
    decreases |es|
  {
    hide Inv, Apply, Halted, MayReopen, Tally;
    if es != [] {
      StopStep(c, s, es[0], batchID);
      StepInv(c, s, es[0]);
      StaysStoppedFrom(c, Apply(c, s, es[0]), es[1..], batchID);
    }
  }

  // ---------- nothing of a stopped batch starts ----------

  /** The `k`-th event claims `id` for an Agent while its batch is below the threshold. */
  predicate ClaimedBelow(c: Config, es: seq<Event>, k: nat, id: string)
    requires k < |es|
  {
    var s := At(c, es, k);
    && es[k].ByTransfer? && es[k].transfer.Poll?
    && id in s.tasks && s.tasks[id].status.Pending? && !Halted(s.tasks, s.tasks[id].batchID, c.failureStopPercent)
    && id in At(c, es, k + 1).tasks && At(c, es, k + 1).tasks[id].status.Running?
  }

  predicate Holds(s: State, serverID: string, id: string) {
    && serverID in s.agents
    && (s.agents[serverID].phase.Given? || s.agents[serverID].phase.Cleared?)
    && s.agents[serverID].phase.task.id == id
  }

  /** Whatever a poll hands out, its batch was below the threshold. */
  lemma PollClaimsBelow(c: Config, s: State, e: TransferEvent, serverID: string, id: string)
    requires Keyed(s.tasks) && Holds(ApplyTransfer(c, s, e), serverID, id) && !Holds(s, serverID, id)
    ensures e.Poll? && id in s.tasks && s.tasks[id].status.Pending?
            && !Halted(s.tasks, s.tasks[id].batchID, c.failureStopPercent)
    ensures id in ApplyTransfer(c, s, e).tasks && ApplyTransfer(c, s, e).tasks[id].status.Running?
  {
    hide Halted, PrefixFailed, Bump;
  }

  lemma OthersHandOutNothing(c: Config, s: State, e: Event, serverID: string, id: string)
    requires !e.ByTransfer? && Keyed(s.tasks) && Holds(Apply(c, s, e), serverID, id)
    ensures Holds(s, serverID, id)
  {
    hide ApplyRequest, ApplyWorker, ApplyAdmin, ApplyBeat, ApplyAgent;
    match e {
      case ByRequest(r) => RequestFrame(s, r);
      case ByWorker(w) => WorkerFrame(c, s, w);
      case ByAdmin(a) => AdminFrame(s, a);
      case ByBeat(b) => BeatFrame(s, b); BeatMoves(s, b);
      case ByAgent(a) => AgentMoves(s, a);
    }
  }

  /** An Agent has held its task ever since a poll claimed it below the threshold. */
  lemma {:induction false} HeldWasClaimedBelow(c: Config, es: seq<Event>, n: nat, serverID: string, id: string)
    returns (k: nat)
    requires n <= |es| && Holds(At(c, es, n), serverID, id)
    ensures k < n && ClaimedBelow(c, es, k, id)
    ensures forall j :: k < j <= n ==> Holds(At(c, es, j), serverID, id)
  {
    hide At, Apply, Holds, ClaimedBelow;
    if n == 0 {
      NobodyAtStart(c, es, serverID, id);
      assert false;
    } else {
      var s := At(c, es, n - 1);
      AtNext(c, es, n - 1);
      AtKeyed(c, es, n - 1);
      if Holds(s, serverID, id) {
        k := HeldWasClaimedBelow(c, es, n - 1, serverID, id);
      } else if es[n - 1].ByTransfer? {
        ClaimedNow(c, es, n - 1, serverID, id);
        k := n - 1;
      } else {
        OthersHandOutNothing(c, s, es[n - 1], serverID, id);
        assert false;
      }
    }
  }

  lemma NobodyAtStart(c: Config, es: seq<Event>, serverID: string, id: string)
    ensures !Holds(At(c, es, 0), serverID, id)
  {
  }

  lemma AtKeyed(c: Config, es: seq<Event>, k: nat)
    requires k <= |es|
    ensures Keyed(At(c, es, k).tasks)
  {
    ReachableInv(c, es[..k]);
    hide Run;
  }

  lemma ClaimedNow(c: Config, es: seq<Event>, k: nat, serverID: string, id: string)
    requires k < |es| && es[k].ByTransfer? && Keyed(At(c, es, k).tasks)
    requires Holds(At(c, es, k + 1), serverID, id) && !Holds(At(c, es, k), serverID, id)
    ensures ClaimedBelow(c, es, k, id)
  {
    AtNext(c, es, k);
    hide At, ApplyTransfer, Halted, Holds;
    PollClaimsBelow(c, At(c, es, k), es[k].transfer, serverID, id);
  }

  /** In every run: whatever event starts a task's command, the task's batch was below
      the threshold - for a local task then and there, for a remote one when the poll
      claimed it from which the starting Agent has held it ever since. */
  lemma NothingStoppedStarts(c: Config, es: seq<Event>, i: nat, id: string)
    requires i < |es| && Count(At(c, es, i + 1).runs, id) > Count(At(c, es, i).runs, id)
    ensures var s := At(c, es, i);
            || (es[i].ByWorker? && id in s.tasks && !Halted(s.tasks, s.tasks[id].batchID, c.failureStopPercent))
            || (es[i].ByAgent? && exists k :: 0 <= k < i && ClaimedBelow(c, es, k, id)
                                    && forall j :: k < j <= i ==> Holds(At(c, es, j), es[i].agent.serverID, id))
  {
    AtNext(c, es, i);
    var s := At(c, es, i);
    ReachableInv(c, es[..i]);
    hide At, ClaimedBelow, Halted;
    StarterHolds(c, s, es[i], id);
    if es[i].ByAgent? {
      var k := HeldWasClaimedBelow(c, es, i, es[i].agent.serverID, id);
    }
    hide Apply, Inv, Holds;
  }

  lemma StarterHolds(c: Config, s: State, e: Event, id: string)
    requires Inv(c, s) && Count(Apply(c, s, e).runs, id) > Count(s.runs, id)
    ensures (e.ByWorker? && id in s.tasks && !Halted(s.tasks, s.tasks[id].batchID, c.failureStopPercent))
            || (e.ByAgent? && Holds(s, e.agent.serverID, id))
  {
    assert Owned(s);
    hide Inv, Owned, Count, Holds, ApplyRequest, ApplyWorker, ApplyAdmin, ApplyBeat, ApplyTransfer, ApplyAgent;
    match e {
      case ByRequest(r) => RequestFrame(s, r);
      case ByWorker(w) => WorkerStartsBelow(c, s, w, id);
      case ByAdmin(a) => AdminFrame(s, a);
      case ByBeat(b) => BeatFrame(s, b);
      case ByTransfer(x) => TransferFrame(c, s, x);
      case ByAgent(a) => AgentStarterHolds(s, a, id);
    }
  }

  lemma AgentStarterHolds(s: State, e: AgentEvent, id: string)
    requires Count(ApplyAgent(s, e).runs, id) > Count(s.runs, id)
    ensures Holds(s, e.serverID, id)
  {
    AgentMoves(s, e);
    var t := ApplyAgent(s, e);
    hide ApplyAgent, PhaseMoved, Count, Bump;
    if CommandStarted(s, t, e.serverID) {
      Claims.BumpGrows(s.runs, s.agents[e.serverID].phase.task.id);
    }
  }

  lemma WorkerStartsBelow(c: Config, s: State, e: WorkerEvent, id: string)
    requires Owned(s) && Count(ApplyWorker(c, s, e).runs, id) > Count(s.runs, id)
    ensures id in s.tasks && !Halted(s.tasks, s.tasks[id].batchID, c.failureStopPercent)
  {
    hide Halted, Permits, Reported, DoCheckBatch, Owned, Count;
    if e.CheckBatch? {
      CheckStartsBelow(c, s, e.w, id);
    }
  }

  lemma CheckStartsBelow(c: Config, s: State, w: nat, id: string)
    requires Owned(s) && Count(DoCheckBatch(c, s, w).runs, id) > Count(s.runs, id)
    ensures id in s.tasks && !Halted(s.tasks, s.tasks[id].batchID, c.failureStopPercent)
  {
    assert w in s.workers && OwnsRunning(s.tasks, s.workers[w]);
    Claims.BumpGrows(s.runs, s.workers[w].id);
    hide Halted, Bump, Count;
  }

  // ---------- what still starts after a stop ----------

  lemma NextOf(c: Config, s: State, fs: seq<Event>, k: nat)
    requires k < |fs|
    ensures Run(c, s, fs[..k + 1]) == Apply(c, Run(c, s, fs[..k]), fs[k])
  {
    assert fs[..k + 1] == fs[..k] + [fs[k]];
    RunAppend(c, s, fs[..k], [fs[k]]);
    RunOne(c, Run(c, s, fs[..k]), fs[k]);
  }

  lemma {:induction false} NeverReopensBefore(c: Config, s: State, fs: seq<Event>, k: nat, batchID: string)
    requires k <= |fs| && NeverReopens(c, s, fs, batchID)
    ensures NeverReopens(c, s, fs[..k], batchID)
    decreases k
  {
    hide Apply, MayReopen;
    if k > 0 {
      NeverReopensBefore(c, Apply(c, s, fs[0]), fs[1..], k - 1, batchID);
      assert fs[..k][1..] == fs[1..][..k - 1];
    }
  }

  /** Along the way the batch stays stopped and the invariants hold. */
  lemma StoppedAt(c: Config, s: State, fs: seq<Event>, k: nat, batchID: string)
    requires Inv(c, s) && Halted(s.tasks, batchID, c.failureStopPercent) && NeverReopens(c, s, fs, batchID) && k <= |fs|
    ensures Inv(c, Run(c, s, fs[..k])) && Halted(Run(c, s, fs[..k]).tasks, batchID, c.failureStopPercent)
  {
    hide Run, Inv, Halted, NeverReopens;
    NeverReopensBefore(c, s, fs, k, batchID);
    RunInv(c, s, fs[..k]);
    StaysStoppedFrom(c, s, fs[..k], batchID);
  }

  predicate HoldsOf(s: State, serverID: string, id: string, batchID: string) {
    Holds(s, serverID, id) && id in s.tasks && s.tasks[id].batchID == batchID
  }

  /** No event hands out a task of a stopped batch. */
  lemma StoppedNotHandedOut(c: Config, s: State, e: Event, serverID: string, id: string, batchID: string)
    requires Inv(c, s) && Halted(s.tasks, batchID, c.failureStopPercent)
    requires HoldsOf(Apply(c, s, e), serverID, id, batchID)
    ensures HoldsOf(s, serverID, id, batchID)
  {
    assert Keyed(s.tasks) && GoodAgents(s);
    hide Inv, ApplyTransfer, Halted, Holds, GoodAgents, Keyed;
    StepEvolves(c, s, e);
    assert id in s.tasks ==> Evolves(s.tasks[id], Apply(c, s, e).tasks[id]);
    if Holds(s, serverID, id) {
      HolderHasTask(s, serverID, id);
    } else if e.ByTransfer? {
      PollClaimsBelow(c, s, e.transfer, serverID, id);
    } else {
      OthersHandOutNothing(c, s, e, serverID, id);
    }
    hide Apply;
  }

  lemma HolderHasTask(s: State, serverID: string, id: string)
    requires GoodAgents(s) && Holds(s, serverID, id)
    ensures id in s.tasks
  {
    assert GoodPhase(s, serverID, s.agents[serverID]);
  }

  lemma {:induction false} HeldSinceStop(c: Config, s: State, fs: seq<Event>, i: nat, serverID: string, id: string,
                                         batchID: string)
    requires Inv(c, s) && Halted(s.tasks, batchID, c.failureStopPercent) && NeverReopens(c, s, fs, batchID) && i <= |fs|
    requires HoldsOf(Run(c, s, fs[..i]), serverID, id, batchID)
    ensures forall j :: 0 <= j <= i ==> HoldsOf(Run(c, s, fs[..j]), serverID, id, batchID)
    decreases i
  {
    hide Inv, Halted, NeverReopens, HoldsOf, Apply, Run;
    if i > 0 {
      NextOf(c, s, fs, i - 1);
      StoppedAt(c, s, fs, i - 1, batchID);
      StoppedNotHandedOut(c, Run(c, s, fs[..i - 1]), fs[i - 1], serverID, id, batchID);
      HeldSinceStop(c, s, fs, i - 1, serverID, id, batchID);
    }
  }

  /** From the moment a batch has stopped, until an event may reopen it: no local task of
      it starts, and an Agent starts only the one it held at that moment, and held since. */
  lemma OnlyHeldStartAfterStop(c: Config, es: seq<Event>, fs: seq<Event>, i: nat, id: string, batchID: string)
    requires i < |fs|
    requires var s := Run(c, Initial(), es);
             Halted(s.tasks, batchID, c.failureStopPercent) && NeverReopens(c, s, fs, batchID)
    requires var s := Run(c, Initial(), es); var t := Run(c, s, fs[..i]);
             && id in t.tasks && t.tasks[id].batchID == batchID
             && Count(Run(c, s, fs[..i + 1]).runs, id) > Count(t.runs, id)
    ensures var s := Run(c, Initial(), es);
            fs[i].ByAgent? && forall j :: 0 <= j <= i ==> Holds(Run(c, s, fs[..j]), fs[i].agent.serverID, id)
  {
    hide Run, Inv, Apply, Halted, NeverReopens, Holds, Count;
    ReachableInv(c, es);
    var s := Run(c, Initial(), es);
    NextOf(c, s, fs, i);
    StoppedAt(c, s, fs, i, batchID);
    StarterHolds(c, Run(c, s, fs[..i]), fs[i], id);
    HeldSinceStop(c, s, fs, i, fs[i].agent.serverID, id, batchID);
    forall j | 0 <= j <= i
      ensures Holds(Run(c, s, fs[..j]), fs[i].agent.serverID, id)
    {
      assert HoldsOf(Run(c, s, fs[..j]), fs[i].agent.serverID, id, batchID);
    }
  }
}
