/** The guarantees of the system, for every schedule of every configuration. */
module Theorems {
  import opened Timestamps
  import opened Types
  import opened TaskSpec
  import opened Protocol
  import opened Evolution
  import opened Invariants
  import opened Pool
  import opened Claims
  import opened Updates
  import opened Finality

  predicate Inv(c: Config, s: State) {
    && Held(s)
    && Pooled(c, s)
    && CountedState(s)
    && RunsCovered(s)
    && BeatsSettled(s)
  }

  lemma InitialInv(c: Config)
    ensures Inv(c, Initial())
  {
  }

  lemma StepInv(c: Config, s: State, e: Event)
    requires Inv(c, s)
    ensures Inv(c, Apply(c, s, e))
  {
    StepKeepsHeld(c, s, e);
    StepKeepsPool(c, s, e);
    StepKeepsCount(c, s, e);
    StepKeepsCover(c, s, e);
    StepKeepsSettled(c, s, e);
    hide Held, Pooled, CountedState, RunsCovered, BeatsSettled, Apply;
  }

  lemma {:induction false} RunInv(c: Config, s: State, es: seq<Event>)
    requires Inv(c, s)
    ensures Inv(c, Run(c, s, es))
    decreases |es|
  {
    if es != [] {
      StepInv(c, s, es[0]);
      RunInv(c, Apply(c, s, es[0]), es[1..]);
    }
    hide Inv, Apply;
  }

  lemma ReachableInv(c: Config, es: seq<Event>)
    ensures Inv(c, Run(c, Initial(), es))
  {
    InitialInv(c);
    RunInv(c, Initial(), es);
    hide Inv, Apply;
  }

  // ---------- claims and executions ----------

  /** However claims, polls, cancels, results, retries, wake-ups and crashes
      interleave, a task is claimed, and its command started, at most once more
      than restarts have put it back. */
  lemma AtMostOncePerRestart(c: Config, es: seq<Event>, id: string)
    ensures var s := Run(c, Initial(), es);
            && Count(s.runs, id) <= Count(s.claims, id) <= Count(s.requeues, id) + 1
            && (id in s.tasks && s.tasks[id].status.Pending? ==> Count(s.claims, id) == Count(s.requeues, id))
            && (id in s.tasks && s.tasks[id].status.Running? ==> Count(s.claims, id) == Count(s.requeues, id) + 1)
  {
    ReachableInv(c, es);
    var s := Run(c, Initial(), es);
    hide Run, Held, Pooled, BeatsSettled;
    assert id in s.tasks ==> Balanced(s.tasks[id], Count(s.claims, id), Count(s.requeues, id));
  }

  predicate NoCrash(es: seq<Event>) {
    forall i :: 0 <= i < |es| ==> !(es[i].ByAdmin? && es[i].admin.Crash?)
  }

  lemma {:induction false} NoCrashNoRequeue(c: Config, s: State, es: seq<Event>)
    requires NoCrash(es)
    ensures Run(c, s, es).requeues == s.requeues
    decreases |es|
  {
    if es != [] {
      StepRequeuesOnlyByCrash(c, s, es[0]);
      NoCrashNoRequeue(c, Apply(c, s, es[0]), es[1..]);
    }
    hide Apply;
  }

  lemma StepRequeuesOnlyByCrash(c: Config, s: State, e: Event)
    requires !(e.ByAdmin? && e.admin.Crash?)
    ensures Apply(c, s, e).requeues == s.requeues
  {
    hide ApplyRequest, ApplyWorker, ApplyBeat, ApplyTransfer, ApplyAgent;
    match e {
      case ByRequest(r) => RequestFrame(s, r);
      case ByWorker(w) => WorkerFrame(c, s, w);
      case ByAdmin(a) =>
      case ByBeat(b) => BeatFrame(s, b);
      case ByTransfer(x) => TransferFrame(c, s, x);
      case ByAgent(a) => AgentFrame(s, a);
    }
  }

  /** A stretch without restarts adds nothing to this bound on all claims and starts.
      What the stretch itself can start is in `Restarts`. */
  lemma AtMostOnceWithoutRestart(c: Config, es: seq<Event>, fs: seq<Event>, id: string)
    requires NoCrash(fs)
    ensures var s := Run(c, Initial(), es); var t := Run(c, s, fs);
            Count(t.claims, id) <= Count(s.requeues, id) + 1 && Count(t.runs, id) <= Count(s.requeues, id) + 1
  {
    RunAppend(c, Initial(), es, fs);
    AtMostOncePerRestart(c, es + fs, id);
    NoCrashNoRequeue(c, Run(c, Initial(), es), fs);
    hide Run;
  }

  // ---------- the worker pool ----------

  /** No more local tasks run than the configuration allows, and every one of them
      is in the hands of exactly one worker. */
  lemma LocalConcurrencyBounded(c: Config, es: seq<Event>)
    ensures var s := Run(c, Initial(), es);
            && |RunningLocal(s.tasks)| <= c.concurrency
            && forall id <- RunningLocal(s.tasks) ::
                 exists w <- s.workers :: s.workers[w].Active() && s.workers[w].id == id
                   && forall v <- s.workers :: s.workers[v].Active() && s.workers[v].id == id ==> v == w
  {
    ReachableInv(c, es);
    var s := Run(c, Initial(), es);
    hide Run, Held, CountedState, RunsCovered, BeatsSettled;
    RunningBounded(c, s);
    forall id <- RunningLocal(s.tasks)
      ensures exists w <- s.workers :: s.workers[w].Active() && s.workers[w].id == id
                && forall v <- s.workers :: s.workers[v].Active() && s.workers[v].id == id ==> v == w
    {
      var w :| w in s.workers && s.workers[w].Active() && s.workers[w].id == id;
    }
  }

  lemma {:induction false} LocalResultStandsFrom(c: Config, s: State, es: seq<Event>, id: string)
    requires Inv(c, s) && id in s.tasks && s.tasks[id].serverID == LOCAL && s.tasks[id].status.Terminal()
    ensures id in Run(c, s, es).tasks && Run(c, s, es).tasks[id] == s.tasks[id]
    decreases |es|
  {
    if es != [] {
      StepInv(c, s, es[0]);
      LocalResultStands(c, s, es[0], id);
      LocalResultStandsFrom(c, Apply(c, s, es[0]), es[1..], id);
    }
    hide Apply, Held, Pooled, CountedState, RunsCovered, BeatsSettled;
  }

  /** A finished local task never changes again: not by cancels, batch stops,
      wake-ups, late reports or restarts. */
  lemma LocalResultsAreFinal(c: Config, es: seq<Event>, fs: seq<Event>, id: string)
    requires var s := Run(c, Initial(), es);
             id in s.tasks && s.tasks[id].serverID == LOCAL && s.tasks[id].status.Terminal()
    ensures var s := Run(c, Initial(), es); var t := Run(c, s, fs);
            id in t.tasks && t.tasks[id] == s.tasks[id]
  {
    ReachableInv(c, es);
    LocalResultStandsFrom(c, Run(c, Initial(), es), fs, id);
    hide Run, Inv;
  }

  // ---------- cancellation ----------

  /** A canceled task carries the request and stays canceled; a requested
      cancellation is never withdrawn and never ends in success. */
  lemma CancellationIsFinal(c: Config, es: seq<Event>, fs: seq<Event>, id: string)
    requires id in Run(c, Initial(), es).tasks
    ensures var s := Run(c, Initial(), es); var t := Run(c, s, fs);
            && id in t.tasks
            && (s.tasks[id].status.Canceled? ==> s.tasks[id].cancelRequested && t.tasks[id].status.Canceled?)
            && (s.tasks[id].cancelRequested ==> t.tasks[id].cancelRequested && !t.tasks[id].status.Success?)
            && (s.tasks[id].status.Success? ==> !s.tasks[id].cancelRequested)
  {
    ReachableInv(c, es);
    var s := Run(c, Initial(), es);
    RunEvolves(c, s, fs);
    assert GoodTask(s.tasks, s.tasks[id], s.announced);
    var t := Run(c, s, fs);
    assert Evolves(s.tasks[id], t.tasks[id]);
    hide Run, Inv;
  }

  predicate NoCancel(es: seq<Event>, id: string) {
    forall i :: 0 <= i < |es| ==> !Cancels(es[i], id)
  }

  /** A local task whose cancellation was requested and that a restart put back waits,
      unchanged, through everything that happens, until it is canceled again - and
      then it is canceled at once. */
  lemma RequeuedCancellationWaits(c: Config, es: seq<Event>, fs: seq<Event>, id: string, now: Instant)
    requires var s := Run(c, Initial(), es); id in s.tasks && Parked(s.tasks[id])
    requires NoCancel(fs, id)
    ensures var s := Run(c, Initial(), es); var t := Run(c, s, fs);
            && id in t.tasks && t.tasks[id] == s.tasks[id]
            && var canceled := Apply(c, t, ByRequest(Cancel(id, now)));
               id in canceled.tasks && canceled.tasks[id].status.Canceled?
  {
    ReachableInv(c, es);
    hide Run, Inv, Apply, Parked;
    ParkedStaysFrom(c, Run(c, Initial(), es), fs, id);
    ParkedIsCanceled(c, Run(c, Run(c, Initial(), es), fs), id, now);
  }

  lemma {:induction false} ParkedStaysFrom(c: Config, s: State, es: seq<Event>, id: string)
    requires Inv(c, s) && id in s.tasks && Parked(s.tasks[id]) && NoCancel(es, id)
    ensures id in Run(c, s, es).tasks && Run(c, s, es).tasks[id] == s.tasks[id]
    decreases |es|
  {
    if es != [] {
      StepInv(c, s, es[0]);
      ParkedStays(c, s, es[0], id);
      ParkedStaysFrom(c, Apply(c, s, es[0]), es[1..], id);
    }
    hide Apply, Held, Pooled, CountedState, RunsCovered, BeatsSettled;
  }

  // ---------- optimistic concurrency ----------

  /** A heartbeat of the server has carried the digest, and it has been stored. */
  predicate Announced(s: State, serverID: string, digest: string) {
    && (serverID, digest) in s.announced
    && exists n :: 0 <= n < |s.beats| && s.beats[n].serverID == serverID && s.beats[n].digest == digest
  }

  /** An Agent runs a task that expects a digest only if its state had that digest
      at the check, and a heartbeat of the same server had announced it before the
      execution. */
  lemma OnlyAnnouncedStateIsChanged(c: Config, es: seq<Event>, i: nat)
    requires i < |Run(c, Initial(), es).executed|
    ensures var x := Run(c, Initial(), es).executed[i];
            && x.task.serverID == x.serverID
            && (x.task.action != AGENT_UPDATE && x.task.digest != "" ==>
                  && x.seen == Some(x.task.digest)
                  && exists k :: 0 <= k < |es| && |At(c, es, k).executed| <= i
                                 && Announced(At(c, es, k), x.serverID, x.task.digest))
  {
    ReachableInv(c, es);
    var s := Run(c, Initial(), es);
    assert GoodLog(s);
    assert GoodExecution(s, s.executed[i]);
    var x := s.executed[i];
    hide Run, Inv, SameIdentity, GoodLog, At, Announced;
    if NeedsDigest(x.task) {
      AnnouncedEarlier(c, es, i);
    }
  }

  lemma {:induction false} AnnouncedEarlier(c: Config, es: seq<Event>, i: nat)
    requires i < |Run(c, Initial(), es).executed| && NeedsDigest(Run(c, Initial(), es).executed[i].task)
    ensures var x := Run(c, Initial(), es).executed[i];
            exists k :: 0 <= k < |es| && |At(c, es, k).executed| <= i
                   && Announced(At(c, es, k), x.serverID, x.task.digest)
    decreases |es|
  {
    AtBefore(c, es, 0);
    var n := |es| - 1;
    AtNext(c, es, n);
    AtBefore(c, es, n);
    AtBefore(c, es[..n], n);
    var s, t := At(c, es, n), At(c, es, n + 1);
    StepLogs(c, s, es[n]);
    var x := t.executed[i];
    hide Run, At, Announced, Apply;
    if i < |s.executed| {
      assert s.executed[i] == x;
      AnnouncedEarlier(c, es[..n], i);
      var k :| 0 <= k < n && |At(c, es[..n], k).executed| <= i
          && Announced(At(c, es[..n], k), x.serverID, x.task.digest);
      assert At(c, es[..n], k) == At(c, es, k);
    } else {
      ReachableInv(c, es);
      ExecutedAnnounced(c, t, i);
      AnnouncedByBeat(c, es[..n], x.serverID, x.task.digest);
      assert Announced(s, x.serverID, x.task.digest) by {
        AnnouncedIs(s, x.serverID, x.task.digest);
      }
    }
  }

  lemma AnnouncedIs(s: State, serverID: string, digest: string)
    requires (serverID, digest) in s.announced
    requires exists n :: 0 <= n < |s.beats| && s.beats[n].serverID == serverID && s.beats[n].digest == digest
    ensures Announced(s, serverID, digest)
  {
  }

  lemma ExecutedAnnounced(c: Config, s: State, i: nat)
    requires Inv(c, s) && i < |s.executed| && NeedsDigest(s.executed[i].task)
    ensures (s.executed[i].serverID, s.executed[i].task.digest) in s.announced
  {
    assert GoodExecution(s, s.executed[i]);
  }

  /** The log of executions grows one by one, and a step that adds to it announces
      nothing. */
  lemma StepLogs(c: Config, s: State, e: Event)
    ensures var t := Apply(c, s, e);
            && s.executed <= t.executed
            && (t.executed == s.executed || t.announced == s.announced)
  {
    hide ApplyRequest, ApplyWorker, ApplyAdmin, ApplyBeat, ApplyTransfer, ApplyAgent;
    match e {
      case ByRequest(r) => RequestFrame(s, r);
      case ByWorker(w) => WorkerFrame(c, s, w);
      case ByAdmin(a) => AdminFrame(s, a);
      case ByBeat(b) => BeatFrame(s, b);
      case ByTransfer(x) => TransferFrame(c, s, x);
      case ByAgent(a) => AgentFrame(s, a); AgentLogs(s, a);
    }
  }

  lemma AgentLogs(s: State, e: AgentEvent)
    ensures s.executed <= ApplyAgent(s, e).executed
  {
    AgentMoves(s, e);
    MovedLogs(s, ApplyAgent(s, e), e.serverID);
    hide ApplyAgent, AgentMoved;
  }

  lemma MovedLogs(s: State, t: State, serverID: string)
    requires AgentMoved(s, t, serverID)
    ensures s.executed <= t.executed
  {
    if CommandStarted(s, t, serverID) {
      assert s.executed <= t.executed;
    }
  }

  /** Every announced digest was sent by its server. */
  lemma {:induction false} AnnouncedByBeat(c: Config, es: seq<Event>, serverID: string, digest: string)
    requires (serverID, digest) in Run(c, Initial(), es).announced
    ensures Announced(Run(c, Initial(), es), serverID, digest)
    decreases |es|
  {
    if es != [] {
      var n := |es| - 1;
      AtNext(c, es, n);
      AtBefore(c, es, n);
      AtBefore(c, es[..n], n);
      var s := At(c, es, n);
      ReachableInv(c, es[..n]);
      BeatsGrow(c, s, es[n]);
      hide Run, At, Apply, Inv;
      if (serverID, digest) in s.announced {
        AnnouncedByBeat(c, es[..n], serverID, digest);
      } else {
        StepAnnouncesBeats(c, s, es[n], serverID, digest);
      }
      BeatStays(s, Run(c, Initial(), es), serverID, digest);
    }
  }

  lemma BeatStays(s: State, t: State, serverID: string, digest: string)
    requires exists n :: 0 <= n < |s.beats| && s.beats[n].serverID == serverID && s.beats[n].digest == digest
    requires s.beats <= t.beats && (serverID, digest) in t.announced
    ensures Announced(t, serverID, digest)
  {
    var n :| 0 <= n < |s.beats| && s.beats[n].serverID == serverID && s.beats[n].digest == digest;
    assert t.beats[n] == s.beats[n];
  }

  lemma StepAnnouncesBeats(c: Config, s: State, e: Event, serverID: string, digest: string)
    requires Inv(c, s) && (serverID, digest) in Apply(c, s, e).announced && (serverID, digest) !in s.announced
    ensures exists n :: 0 <= n < |s.beats| && s.beats[n].serverID == serverID && s.beats[n].digest == digest
  {
    assert GoodHandlers(s);
    hide Inv, GoodHandlers, ApplyBeat;
    if e.ByBeat? {
      BeatAnnounces(s, e.heartbeat, serverID, digest);
    } else {
      OnlyBeatsAnnounce(c, s, e);
      hide Apply;
    }
  }

  lemma OnlyBeatsAnnounce(c: Config, s: State, e: Event)
    requires !e.ByBeat?
    ensures Apply(c, s, e).announced == s.announced
  {
    hide ApplyRequest, ApplyWorker, ApplyAdmin, ApplyTransfer, ApplyAgent;
    match e {
      case ByRequest(r) => RequestFrame(s, r);
      case ByWorker(w) => WorkerFrame(c, s, w);
      case ByAdmin(a) => AdminFrame(s, a);
      case ByTransfer(x) => TransferFrame(c, s, x);
      case ByAgent(a) => AgentFrame(s, a);
    }
  }

  lemma BeatAnnounces(s: State, e: BeatEvent, serverID: string, digest: string)
    requires GoodHandlers(s) && (serverID, digest) in ApplyBeat(s, e).announced && (serverID, digest) !in s.announced
    ensures exists n :: 0 <= n < |s.beats| && s.beats[n].serverID == serverID && s.beats[n].digest == digest
  {
  }

  /** From any moment at which no task against `digest` is past the check: as long
      as the server's state does not have that digest, no task queued against it is
      run, whatever else happens; and the Agent reports each one it is handed as
      failed for drift. */
  lemma DriftStopsTasks(c: Config, es: seq<Event>, fs: seq<Event>, serverID: string, digest: string)
    requires var s := Run(c, Initial(), es);
             StaysAway(c, s, fs, serverID, digest) && !PastCheck(s, serverID, digest)
    ensures var s := Run(c, Initial(), es); var t := Run(c, s, fs);
            && NoNewRun(s, t, serverID, digest)
            && (serverID in t.agents && t.agents[serverID].phase.Given?
                && NeedsDigest(t.agents[serverID].phase.task) && t.agents[serverID].phase.task.digest == digest ==>
                  var next := Apply(c, t, ByAgent(CheckDigest(serverID)));
                  && next.reports == t.reports + [Report(serverID, t.agents[serverID].phase.task.id, false, "", DRIFT)]
                  && next.agents[serverID].phase.Idle? && next.executed == t.executed)
  {
    ReachableInv(c, es);
    var s := Run(c, Initial(), es);
    AwayRunsNothing(c, s, fs, serverID, digest);
    var t := Run(c, s, fs);
    StaysAwayEnds(c, s, fs, serverID, digest);
    hide Run, Inv, Apply, NoNewRun, PastCheck, StaysAway;
    if serverID in t.agents && t.agents[serverID].phase.Given?
       && NeedsDigest(t.agents[serverID].phase.task) && t.agents[serverID].phase.task.digest == digest {
      DriftIsReported(c, t, serverID);
    }
  }

  lemma {:induction false} StaysAwayEnds(c: Config, s: State, es: seq<Event>, serverID: string, digest: string)
    requires StaysAway(c, s, es, serverID, digest)
    ensures Away(Run(c, s, es), serverID, digest)
    decreases |es|
  {
    if es != [] {
      StaysAwayEnds(c, Apply(c, s, es[0]), es[1..], serverID, digest);
    }
    hide Apply, Away;
  }

  // ---------- updates ----------

  lemma {:induction false} LaterBeatsKnow(c: Config, s: State, es: seq<Event>)
    ensures s.beats <= Run(c, s, es).beats
    ensures forall n :: |s.beats| <= n < |Run(c, s, es).beats| ==> s.tasks.Keys <= Run(c, s, es).beats[n].known
    decreases |es|
  {
    if es != [] {
      var t := Apply(c, s, es[0]);
      BeatsGrow(c, s, es[0]);
      StepEvolves(c, s, es[0]);
      LaterBeatsKnow(c, t, es[1..]);
      forall n | |s.beats| <= n < |Run(c, s, es).beats|
        ensures s.tasks.Keys <= Run(c, s, es).beats[n].known
      {
        if n < |t.beats| {
          assert Run(c, s, es).beats[n] == t.beats[n];
        }
      }
    }
    hide Apply, Evolves;
  }

  /** Once a heartbeat has succeeded, no update to the version that it reported, of
      all the tasks stored when the controller confirmed it, is pending or running. */
  lemma ConfirmedUpdatesFinish(c: Config, es: seq<Event>, serverID: string, id: string)
    requires var t := Run(c, Initial(), es);
             && serverID in t.agents && t.agents[serverID].phase.Ready?
             && id in t.agents[serverID].phase.found && id in t.tasks && t.agents[serverID].version != ""
             && var task := t.tasks[id];
                && task.serverID == serverID && task.action == "agent.update"
                && "version" in task.args && task.args["version"] == Text(t.agents[serverID].version)
    ensures Run(c, Initial(), es).tasks[id].status.Terminal()
  {
    ReachableInv(c, es);
    var t := Run(c, Initial(), es);
    assert GoodPhase(t, serverID, t.agents[serverID]);
    assert Settled(t, t.agents[serverID].phase.beat, t.agents[serverID].phase.found);
    hide Run, Inv;
  }

  /** From any moment on: once a heartbeat that the Agent sends later has
      succeeded, no update to the version the Agent runs that existed at that
      moment is pending or running - whether its result was delivered, was lost,
      or the controller restarted and queued it again. An Agent polls only after
      such a heartbeat. */
  lemma UpdatesConverge(c: Config, es: seq<Event>, fs: seq<Event>, serverID: string, id: string)
    requires var s := Run(c, Initial(), es); var t := Run(c, s, fs);
             && serverID in t.agents && t.agents[serverID].phase.Ready?
             && t.agents[serverID].phase.beat >= |s.beats|
             && id in s.tasks && t.agents[serverID].version != ""
             && var task := s.tasks[id];
                && task.serverID == serverID && task.action == "agent.update"
                && "version" in task.args && task.args["version"] == Text(t.agents[serverID].version)
    ensures var t := Run(c, Run(c, Initial(), es), fs);
            id in t.agents[serverID].phase.found && id in t.tasks && t.tasks[id].status.Terminal()
  {
    hide Run, Inv;
    var s := Run(c, Initial(), es);
    var t := Run(c, s, fs);
    RunAppend(c, Initial(), es, fs);
    ReachableInv(c, es + fs);
    LaterBeatsKnow(c, s, fs);
    RunEvolves(c, s, fs);
    ReadyKnows(c, t, serverID);
    assert id in t.beats[t.agents[serverID].phase.beat].known && Evolves(s.tasks[id], t.tasks[id]);
    ConfirmedUpdatesFinish(c, es + fs, serverID, id);
  }

  lemma ReadyKnows(c: Config, t: State, serverID: string)
    requires Inv(c, t) && serverID in t.agents && t.agents[serverID].phase.Ready?
    ensures var phase := t.agents[serverID].phase; phase.beat < |t.beats| && t.beats[phase.beat].known <= phase.found
  {
    assert GoodPhase(t, serverID, t.agents[serverID]);
  }

  /** An Agent that a poll hands a task had a heartbeat acknowledged just before, and
      that heartbeat has settled every update to the version it reported. */
  lemma PollFollowsHeartbeat(c: Config, es: seq<Event>, serverID: string, order: seq<string>, when: string -> Instant)
    requires var s := Run(c, Initial(), es); var t := Apply(c, s, ByTransfer(Poll(serverID, order, when, true)));
             serverID in t.agents && t.agents[serverID].phase.Given? && t.agents[serverID] != s.agents[serverID]
    ensures var s := Run(c, Initial(), es);
            && serverID in s.agents && s.agents[serverID].phase.Ready? && s.agents[serverID].phase.beat < |s.beats|
            && s.beats[s.agents[serverID].phase.beat].serverID == serverID
            && Settled(s, s.agents[serverID].phase.beat, s.agents[serverID].phase.found)
  {
    ReachableInv(c, es);
    var s := Run(c, Initial(), es);
    assert GoodPhase(s, serverID, s.agents[serverID]);
    hide Run, Polled, PendingListed, Settled;
  }

  // ---------- keys, batches, retries ----------

  /** One task per key, hence one per server in a batch, although the lookup and
      the insertion of two requests may interleave in any way. */
  lemma KeysAreUnique(c: Config, es: seq<Event>, a: string, b: string)
    requires a in Run(c, Initial(), es).tasks && b in Run(c, Initial(), es).tasks
    ensures var tasks := Run(c, Initial(), es).tasks;
            && (tasks[a].key != "" && tasks[a].key == tasks[b].key ==> a == b)
            && (tasks[a].batchID != "" && tasks[a].batchID == tasks[b].batchID && tasks[a].serverID == tasks[b].serverID
                ==> a == b)
  {
    ReachableInv(c, es);
    var s := Run(c, Initial(), es);
    assert GoodTable(s.tasks, s.announced);
    assert GoodTask(s.tasks, s.tasks[a], s.announced) && GoodTask(s.tasks, s.tasks[b], s.announced);
    var tasks := s.tasks;
    if tasks[a].batchID != "" && tasks[a].batchID == tasks[b].batchID && tasks[a].serverID == tasks[b].serverID {
      assert tasks[a].key == tasks[a].batchID + "_" + tasks[a].serverID;
      assert tasks[a].key[|tasks[a].batchID|] == '_';
    }
    hide Run, Inv;
  }

  /** Retries count in no batch. */
  lemma RetriesCountNowhere(c: Config, es: seq<Event>, batchID: string, id: string)
    requires batchID != "" && id in CompletedIn(Run(c, Initial(), es).tasks, batchID)
    ensures Run(c, Initial(), es).tasks[id].retryOf == "" && Run(c, Initial(), es).tasks[id].attempt == 0
  {
    ReachableInv(c, es);
    var s := Run(c, Initial(), es);
    assert GoodTask(s.tasks, s.tasks[id], s.announced);
    hide Run, Inv;
  }

  predicate IsChain(tasks: Tasks, chain: seq<string>) {
    && (forall id <- chain :: id in tasks)
    && forall i :: 0 <= i < |chain| - 1 ==> tasks[chain[i]].retryOf == chain[i + 1]
  }

  /** Every stored task stands at the head of a chain of finished predecessors,
      one for each earlier attempt, down to the first. */
  lemma RetriesFormForest(c: Config, es: seq<Event>, id: string) returns (chain: seq<string>)
    requires id in Run(c, Initial(), es).tasks
    ensures var tasks := Run(c, Initial(), es).tasks;
            && tasks[id].attempt >= 0 && |chain| == tasks[id].attempt + 1
            && IsChain(tasks, chain)
            && chain[0] == id && tasks[chain[|chain| - 1]].retryOf == ""
            && (forall i :: 0 <= i < |chain| ==>
                  && tasks[chain[i]].attempt == tasks[id].attempt - i
                  && tasks[chain[i]].serverID == tasks[id].serverID
                  && tasks[chain[i]].action == tasks[id].action
                  && tasks[chain[i]].args == tasks[id].args)
            && (forall i :: 1 <= i < |chain| ==> tasks[chain[i]].status.Terminal())
  {
    ReachableInv(c, es);
    var s := Run(c, Initial(), es);
    chain := ChainFrom(s.tasks, s.announced, id);
    hide Run, GoodTable;
  }

  lemma {:induction false} ChainFrom(tasks: Tasks, announced: set<(string, string)>, id: string)
    returns (chain: seq<string>)
    requires GoodTable(tasks, announced) && id in tasks
    ensures tasks[id].attempt >= 0 && |chain| == tasks[id].attempt + 1
    ensures IsChain(tasks, chain)
    ensures chain[0] == id && tasks[chain[|chain| - 1]].retryOf == ""
    ensures forall i :: 0 <= i < |chain| ==>
              && tasks[chain[i]].attempt == tasks[id].attempt - i
              && tasks[chain[i]].serverID == tasks[id].serverID
              && tasks[chain[i]].action == tasks[id].action
              && tasks[chain[i]].args == tasks[id].args
    ensures forall i :: 1 <= i < |chain| ==> tasks[chain[i]].status.Terminal()
    decreases tasks[id].attempt
  {
    assert GoodTask(tasks, tasks[id], announced);
    if tasks[id].retryOf == "" {
      chain := [id];
    } else {
      var rest := ChainFrom(tasks, announced, tasks[id].retryOf);
      chain := [id] + rest;
    }
    hide GoodTable, DigestAnnounced, FlagAgrees;
  }
}
