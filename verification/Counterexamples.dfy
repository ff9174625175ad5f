/** Inputs at which plausible claims about the system fail. What holds instead is proved
    in `Restarts`, `Finality`, `Batches`, `Cancellations` and `TaskSpec`. */
module Counterexamples {
  import opened Digits
  import opened Timestamps
  import opened Types
  import opened TaskSpec
  import opened Protocol
  import opened Theorems
  import opened Restarts
  import opened Claims
  import opened Cancellations
  import Finality
  import B = Batches
  import Rollout

  // ---------- a remote task starts twice without a restart in between ----------

  const SERVER := "srv_a"
  const TASK := "task_a"

  /** One remote server with one queued task. */
  function Setup(): seq<Event> {
    [ByAdmin(Register(SERVER, "1.0", None, START)), ByRequest(StartEnqueue(0, SERVER, "probe", map[], "")),
     ByRequest(LookUpKey(0)), ByRequest(Insert(0, TASK, START))]
  }

  function Queued(): Task {
    NewTask(TASK, SERVER, "probe", map[], "", "", "", START)
  }

  predicate OnlyQueued(s: State) {
    && s.tasks == map[TASK := Queued()]
    && SERVER in s.servers && s.agents == map[SERVER := Agent("1.0", None, Idle)]
    && s.handlers == map[] && s.reports == [] && s.runs == map[]
  }

  lemma SetupQueues(c: Config)
    ensures OnlyQueued(Run(c, Initial(), Setup()))
  {
    var es := Setup();
    RunFour(c, Initial(), es[0], es[1], es[2], es[3]);
    hide Run;
  }

  /** The queued task is in the Agent's hands and back in the queue. */
  predicate HeldAndQueued(s: State) {
    && B.Holds(s, SERVER, TASK) && SERVER in s.servers
    && TASK in s.tasks && s.tasks[TASK].status.Pending? && s.tasks[TASK].batchID == ""
    && !s.tasks[TASK].cancelRequested && s.tasks[TASK].action == "probe" && s.tasks[TASK].serverID == SERVER
    && s.reports == [] && s.runs == map[]
  }

  lemma PollThenCrash(c: Config, s: State)
    requires SERVER in s.agents && s.agents[SERVER].phase.Ready? && SERVER in s.servers && s.reports == []
             && s.runs == map[]
    requires s.tasks == map[TASK := Queued()] && PendingListed(s.tasks, SERVER, [TASK])
    ensures HeldAndQueued(DoCrash(DoPoll(c, s, SERVER, [TASK], _ => START, true), START))
  {
    PollHandsOut(c, s, SERVER, [TASK]);
    hide DoPoll, PendingListed, Halted;
  }

  /** The queued task and a heartbeat that got through. */
  lemma HeardFrom(c: Config) returns (queued: State, ready: State, beat: seq<Event>)
    ensures queued == Run(c, Initial(), Setup()) && ready == Run(c, queued, beat)
    ensures ready.tasks == map[TASK := Queued()] && PendingListed(ready.tasks, SERVER, [TASK])
    ensures SERVER in ready.agents && ready.agents[SERVER].phase.Ready? && SERVER in ready.servers
    ensures ready.reports == [] && ready.runs == map[]
  {
    hide Run, BeatEvents, Setup;
    SetupQueues(c);
    queued := Run(c, Initial(), Setup());
    beat := BeatEvents(SERVER, |queued.beats|, 0);
    BeatGetsThrough(c, queued, SERVER, 0);
    ready := Run(c, queued, beat);
    OnlyTaskStays(queued, ready);
  }

  /** The Agent has been handed the task; then the controller restarts. */
  lemma HeldAcrossRestart(c: Config) returns (es: seq<Event>)
    ensures HeldAndQueued(Run(c, Initial(), es))
  {
    hide Run, DoPoll, DoCrash, Setup, HeldAndQueued;
    var queued, ready, beat := HeardFrom(c);
    var poll, crash := ByTransfer(Poll(SERVER, [TASK], _ => START, true)), ByAdmin(Crash(START));
    PollThenCrash(c, ready);
    es := Setup() + (beat + [poll, crash]);
    RunAppend(c, Initial(), Setup(), beat + [poll, crash]);
    RunAppend(c, queued, beat, [poll, crash]);
    RunTwo(c, ready, poll, crash);
  }

  lemma OnlyTaskStays(queued: State, ready: State)
    requires OnlyQueued(queued) && Beaten(queued, ready, SERVER)
    ensures ready.tasks == map[TASK := Queued()] && PendingListed(ready.tasks, SERVER, [TASK])
    ensures SERVER in ready.agents && ready.agents[SERVER].phase.Ready? && SERVER in ready.servers
    ensures ready.reports == [] && ready.runs == map[]
  {
    hide Confirmed;
  }

  /** So "between two restarts no task runs twice" fails: here one does. */
  lemma RemoteTaskStartsTwice(c: Config) returns (es: seq<Event>, fs: seq<Event>)
    ensures NoCrash(fs)
    ensures var s := Run(c, Initial(), es); var t := Run(c, s, fs);
            && Count(t.runs, TASK) == Count(s.runs, TASK) + 2
            && t.reports == [Report(SERVER, TASK, false, "", ""), Report(SERVER, TASK, true, "", "")]
            && TASK in t.tasks && t.tasks[TASK].status.Running? && t.tasks[TASK].serverID == SERVER
               && !t.tasks[TASK].cancelRequested
  {
    es := HeldAcrossRestart(c);
    ReachableInv(c, es);
    fs := HeldStartsTwice(c, Run(c, Initial(), es), SERVER, TASK);
    RemoteOnlyStops(fs, TASK);
    hide Run, Inv;
  }

  /** "A finished task stays as it is" fails for remote ones: the results of these two
      executions arrive one after the other, and failed becomes success. */
  lemma LateResultChangesStatus(c: Config) returns (es: seq<Event>)
    ensures var s := Run(c, Initial(), es); var t := Apply(c, s, ByTransfer(Deliver(1, START)));
            && TASK in s.tasks && s.tasks[TASK].status.Failed?
            && TASK in t.tasks && t.tasks[TASK].status.Success?
  {
    var before, twice := RemoteTaskStartsTwice(c);
    var deliver := ByTransfer(Deliver(0, START));
    es := before + twice + [deliver];
    RunAppend(c, Initial(), before + twice, [deliver]);
    RunAppend(c, Initial(), before, twice);
    RunOne(c, Run(c, Initial(), before + twice), deliver);
    hide Run;
  }

  // ---------- a task starts although its cancellation was requested before ----------

  /** The queued task's cancellation was requested, and nothing has started. */
  predicate RequestedAndQueued(s: State) {
    && SERVER in s.agents && SERVER in s.servers
    && TASK in s.tasks && PendingFor(s.tasks[TASK], SERVER) && s.tasks[TASK].batchID == ""
    && s.tasks[TASK].cancelRequested && s.tasks[TASK].action == "probe"
    && s.runs == map[]
  }

  function Requested(): Task {
    Started(Queued(), START).(cancelRequested := true)
  }

  lemma CancelMarks(s: State)
    requires s.tasks == map[TASK := Started(Queued(), START)]
    ensures DoCancel(s, TASK, START) == s.(tasks := map[TASK := Requested()])
  {
  }

  lemma CrashPutsBack(s: State)
    requires SERVER in s.agents && SERVER in s.servers && s.runs == map[] && s.tasks == map[TASK := Requested()]
    ensures RequestedAndQueued(DoCrash(s, START))
  {
    hide LocalPending;
  }

  lemma PollCancelCrash(c: Config, s: State)
    requires SERVER in s.agents && s.agents[SERVER].phase.Ready? && SERVER in s.servers && s.runs == map[]
    requires s.tasks == map[TASK := Queued()] && PendingListed(s.tasks, SERVER, [TASK])
    ensures RequestedAndQueued(DoCrash(DoCancel(DoPoll(c, s, SERVER, [TASK], _ => START, true), TASK, START), START))
  {
    PollHandsOut(c, s, SERVER, [TASK]);
    hide DoPoll, DoCancel, DoCrash, PendingListed, Halted, RequestedAndQueued, Started, Requested;
    CancelMarks(DoPoll(c, s, SERVER, [TASK], _ => START, true));
    CrashPutsBack(DoCancel(DoPoll(c, s, SERVER, [TASK], _ => START, true), TASK, START));
  }

  /** The Agent has been handed the task and its cancellation is requested; then the
      controller restarts. */
  lemma RequestedAcrossRestart(c: Config) returns (es: seq<Event>)
    ensures RequestedAndQueued(Run(c, Initial(), es))
  {
    hide Run, DoPoll, DoCancel, DoCrash, BeatEvents, Setup, RequestedAndQueued;
    var queued, ready, beat := HeardFrom(c);
    var poll, crash := ByTransfer(Poll(SERVER, [TASK], _ => START, true)), ByAdmin(Crash(START));
    var cancel := ByRequest(Cancel(TASK, START));
    PollCancelCrash(c, ready);
    es := Setup() + (beat + [poll, cancel, crash]);
    RunAppend(c, Initial(), Setup(), beat + [poll, cancel, crash]);
    RunAppend(c, queued, beat, [poll, cancel, crash]);
    RunThree(c, ready, poll, cancel, crash);
  }

  /** "A task whose cancellation was requested is not claimed" fails: restarted as well,
      the Agent polls again, is handed the task and starts it, without another request. */
  lemma RequestedTaskStarts(c: Config) returns (es: seq<Event>, fs: seq<Event>)
    ensures NoCancel(fs, TASK)
    ensures var s := Run(c, Initial(), es); var t := Run(c, s, fs);
            && TASK in s.tasks && s.tasks[TASK].status.Pending? && s.tasks[TASK].cancelRequested && s.runs == map[]
            && Count(t.runs, TASK) == 1 && TASK in t.tasks && t.tasks[TASK].status.Running?
  {
    es := RequestedAcrossRestart(c);
    ReachableInv(c, es);
    fs := RequestedIsStarted(c, Run(c, Initial(), es), SERVER, TASK);
    RemoteOnlyStops(fs, TASK);
    hide Run, Inv;
  }

  // ---------- a stopped batch goes on ----------

  const BATCH := "batch_b"
  const OTHER_SERVER := "srv_b"
  const OTHER_TASK := "task_b"

  function Target(taskID: string, serverID: string): Task {
    NewTask(taskID, serverID, "probe", map[], BATCH + "_" + serverID, BATCH, "", START)
  }

  predicate Registered(s: State, serverID: string) {
    && serverID in s.servers && s.servers[serverID].digest == "" && s.servers[serverID].id == serverID
    && serverID in s.agents && s.agents[serverID].phase.Idle? && s.agents[serverID].version == "1.0"
  }

  function Registrations(): seq<Event> {
    [ByAdmin(Register(SERVER, "1.0", None, START)), ByAdmin(Register(OTHER_SERVER, "1.0", None, START))]
  }

  /** The batch reaches one server. */
  function Round(serverID: string, taskID: string): seq<Event> {
    [ByRequest(StartBatch(0, "b", serverID, "probe", map[])), ByRequest(Insert(0, taskID, START))]
  }

  lemma TwoRegister(c: Config)
    ensures var s := Run(c, Initial(), Registrations());
            && Registered(s, SERVER) && Registered(s, OTHER_SERVER)
            && s.tasks == map[] && s.handlers == map[] && s.reports == []
  {
    RunTwo(c, Initial(), Registrations()[0], Registrations()[1]);
    hide Run;
  }

  lemma RoundInserts(c: Config, s: State, serverID: string, taskID: string)
    requires Registered(s, serverID) && serverID != LOCAL && s.handlers == map[] && taskID != "" && taskID !in s.tasks
    requires forall id <- s.tasks :: s.tasks[id].key != BATCH + "_" + serverID
    ensures Run(c, s, Round(serverID, taskID)) == s.(tasks := s.tasks[taskID := Target(taskID, serverID)])
  {
    RunTwo(c, s, Round(serverID, taskID)[0], Round(serverID, taskID)[1]);
    hide Run;
    var drafted := DoStartBatch(s, 0, "b", serverID, "probe", map[]);
    assert "batch_" + "b" == BATCH;
    assert drafted == s.(handlers := map[0 := Drafting(Target("", serverID), false)]);
    hide DoStartBatch;
  }

  function TwoTargets(): Tasks {
    map[TASK := Target(TASK, SERVER), OTHER_TASK := Target(OTHER_TASK, OTHER_SERVER)]
  }

  lemma TargetsQueued(c: Config) returns (es: seq<Event>)
    ensures var s := Run(c, Initial(), es); s.tasks == TwoTargets() && Registered(s, SERVER) && s.reports == []
  {
    hide Run, Target, Registrations, Round, Registered;
    TwoRegister(c);
    var s := Run(c, Initial(), Registrations());
    RoundInserts(c, s, SERVER, TASK);
    var t := Run(c, s, Round(SERVER, TASK));
    TargetKeys();
    KeepsRegistered(s, t);
    RoundInserts(c, t, OTHER_SERVER, OTHER_TASK);
    KeepsRegistered(t, Run(c, t, Round(OTHER_SERVER, OTHER_TASK)));
    es := Registrations() + (Round(SERVER, TASK) + Round(OTHER_SERVER, OTHER_TASK));
    RunAppend(c, Initial(), Registrations(), Round(SERVER, TASK) + Round(OTHER_SERVER, OTHER_TASK));
    RunAppend(c, s, Round(SERVER, TASK), Round(OTHER_SERVER, OTHER_TASK));
  }

  lemma TargetKeys()
    ensures Target(TASK, SERVER).key != BATCH + "_" + OTHER_SERVER
  {
    assert (BATCH + "_" + SERVER)[12] != (BATCH + "_" + OTHER_SERVER)[12];
  }

  lemma KeepsRegistered(s: State, t: State)
    requires t.servers == s.servers && t.agents == s.agents
    ensures forall serverID :: Registered(s, serverID) ==> Registered(t, serverID)
  {
  }

  /** The first target's command has failed, and its report has arrived. */
  function OneFailed(): Tasks {
    TwoTargets()[TASK := Reported(Started(Target(TASK, SERVER), START), false, "", "", START)]
  }

  lemma FirstFails(c: Config) returns (es: seq<Event>)
    requires !Halted(TwoTargets(), BATCH, c.failureStopPercent)
    ensures Run(c, Initial(), es).tasks == OneFailed()
  {
    var queued := TargetsQueued(c);
    ReachableInv(c, queued);
    var s := Run(c, Initial(), queued);
    hide Run, Inv, Halted, Started, UpdatesConfirmed, DoDeliver;
    var fails := PendingIsStarted(c, s, SERVER, TASK, false);
    NoUpdates(s.tasks, SERVER, "1.0");
    var deliver := ByTransfer(Deliver(0, START));
    ReportIsStored(Run(c, s, fails));
    es := queued + (fails + [deliver]);
    RunAppend(c, Initial(), queued, fails + [deliver]);
    RunAppend(c, s, fails, [deliver]);
    RunOne(c, Run(c, s, fails), deliver);
  }

  lemma NoUpdates(tasks: Tasks, serverID: string, version: string)
    requires forall id <- tasks :: tasks[id].action != AGENT_UPDATE
    ensures UpdatesConfirmed(tasks, serverID, version, _ => START) == tasks
  {
  }

  lemma ReportIsStored(s: State)
    requires s.reports == [Report(SERVER, TASK, false, "", "")]
    requires s.tasks == TwoTargets()[TASK := Started(Target(TASK, SERVER), START)]
    ensures DoDeliver(s, 0, START).tasks == OneFailed()
  {
  }

  /** "A stopped batch stays stopped" fails for every threshold above one half: of two
      tasks one has failed, which is all of the completed ones; canceling the other
      halves the rate. */
  lemma CancelReopensBatch(c: Config) returns (es: seq<Event>)
    requires 50 < c.failureStopPercent <= 100
    ensures var s := Run(c, Initial(), es); var t := Apply(c, s, ByRequest(Cancel(OTHER_TASK, START)));
            Halted(s.tasks, BATCH, c.failureStopPercent) && !Halted(t.tasks, BATCH, c.failureStopPercent)
  {
    NoneCompleted();
    BeforeCancel();
    AfterCancel();
    hide OneFailed, OneCanceled, CompletedIn, FailedIn, Run;
    es := FirstFails(c);
    CancelEnds(Run(c, Initial(), es));
  }

  function OneCanceled(): Tasks {
    OneFailed()[OTHER_TASK := Target(OTHER_TASK, OTHER_SERVER).(status := Canceled, cancelRequested := true,
                                                                finished := Some(START))]
  }

  lemma CancelEnds(s: State)
    requires s.tasks == OneFailed()
    ensures DoCancel(s, OTHER_TASK, START).tasks == OneCanceled()
  {
    OtherIsPending();
    hide OneFailed;
  }

  lemma OtherIsPending()
    ensures OTHER_TASK in OneFailed() && OneFailed()[OTHER_TASK] == Target(OTHER_TASK, OTHER_SERVER)
  {
    hide Reported, Started, Target;
  }

  lemma NoneCompleted()
    ensures CompletedIn(TwoTargets(), BATCH) == {}
  {
  }

  lemma BeforeCancel()
    ensures CompletedIn(OneFailed(), BATCH) == {TASK} && FailedIn(OneFailed(), BATCH) == {TASK}
  {
  }

  lemma AfterCancel()
    ensures CompletedIn(OneCanceled(), BATCH) == {TASK, OTHER_TASK} && FailedIn(OneCanceled(), BATCH) == {TASK}
  {
  }

  // ---------- a newer task is served first ----------

  const EARLIER: Instant := UTC(2024, 1, 1, 0, 0, 0, 100_000_000)
  const LATER: Instant := UTC(2024, 1, 1, 0, 0, 0, 120_000_000)

  lemma {:induction false} TrimmedTail(s: string, zeros: string)
    requires s != "" && s[|s| - 1] != '0' && AllZeros(zeros)
    ensures TrimZeros(s + zeros) == s
    decreases |s|
  {
    assert (s + zeros)[1..] == s[1..] + zeros;
    assert (s + zeros)[|s| - 1] != '0';
    if |s| == 1 {
      assert s[1..] + zeros == zeros;
    } else {
      TrimmedTail(s[1..], zeros);
    }
  }

  lemma {:induction false} PaddedZeros(n: nat, w: nat, k: nat)
    ensures Padded(n * Power10(k), w + k) == Padded(n, w) + seq(k, _ => '0')
  {
    if k == 0 {
      assert Padded(n, w) + [] == Padded(n, w);
    } else {
      PaddedZeros(n, w, k - 1);
      TenTimes(n, k);
      OneZero(n * Power10(k - 1), w + k);
      hide Padded, Power10;
      assert seq(k, _ => '0') == seq(k - 1, _ => '0') + ['0'];
    }
  }

  lemma TenTimes(n: nat, k: nat)
    requires k > 0
    ensures n * Power10(k) == 10 * (n * Power10(k - 1))
  {
  }

  lemma OneZero(m: nat, w: nat)
    requires w > 0
    ensures Padded(10 * m, w) == Padded(m, w - 1) + ['0']
  {
  }

  lemma ShortFractions()
    ensures Fraction(EARLIER) == "1" && Fraction(LATER) == "12"
  {
    Power10Eight();
    PaddedZeros(1, 1, 8);
    PaddedZeros(12, 2, 7);
    assert Padded(1, 1) == "1" && Padded(12, 2) == "12";
    TrimmedTail("1", seq(8, _ => '0'));
    TrimmedTail("12", seq(7, _ => '0'));
  }

  lemma Power10Eight()
    ensures Power10(7) == 10_000_000 && Power10(8) == 100_000_000
  {
    assert Power10(4) == 10_000;
  }

  /** "Older tasks are served first" fails: a tenth of a second is written .1 and twelve
      hundredths .12, and the Z behind the shorter one is greater than the 2. */
  lemma NewerServedFirst(tasks: Tasks, serverID: string, order: seq<string>, i: nat, j: nat)
    requires PendingInOrder(tasks, serverID, order) && i < |order| && j < |order|
    requires tasks[order[i]].created == EARLIER && tasks[order[j]].created == LATER
    ensures Before(tasks[order[i]].created, tasks[order[j]].created) && j < i
    ensures TextLess(Stamp(LATER), Stamp(EARLIER))
  {
    ShortFractions();
    StampOrder(EARLIER, LATER);
    hide Stamp, Fraction;
    ServedInCreationOrder(tasks, serverID, order, i, j);
  }
}
