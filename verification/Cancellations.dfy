/** Claims and starts of a task whose cancellation was requested. The local claim refuses
    such a task; the poll does not look at the request; and a request that comes after a
    claim stops nothing. */
module Cancellations {
  import opened Timestamps
  import opened Types
  import opened TaskSpec
  import opened Protocol
  import opened Invariants
  import opened Pool
  import opened Theorems
  import opened Restarts
  import opened Finality

  // ---------- a local task that was put back ----------

  /** A restart puts back only running tasks. */
  lemma ParkedNotRequeued(c: Config, s: State, e: Event, id: string)
    requires id in s.tasks && Parked(s.tasks[id])
    ensures Count(Apply(c, s, e).requeues, id) == Count(s.requeues, id)
  {
    if e.ByAdmin? && e.admin.Crash? {
      hide Recovered, LocalPending;
    } else {
      StepRequeuesOnlyByCrash(c, s, e);
      hide Apply;
    }
  }

  lemma {:induction false} ParkedStaysPutBack(c: Config, s: State, fs: seq<Event>, id: string)
    requires Inv(c, s) && id in s.tasks && Parked(s.tasks[id]) && NoCancel(fs, id)
    ensures id in Run(c, s, fs).tasks && Parked(Run(c, s, fs).tasks[id])
    ensures Count(Run(c, s, fs).requeues, id) == Count(s.requeues, id)
    decreases |fs|
  {
    hide Inv, Apply, Parked, Count;
    if fs != [] {
      ParkedNotRequeued(c, s, fs[0], id);
      StepInv(c, s, fs[0]);
      StepKeepsParked(c, s, fs[0], id);
      ParkedStaysPutBack(c, Apply(c, s, fs[0]), fs[1..], id);
    }
  }

  lemma StepKeepsParked(c: Config, s: State, e: Event, id: string)
    requires Inv(c, s) && id in s.tasks && Parked(s.tasks[id]) && !Cancels(e, id)
    ensures id in Apply(c, s, e).tasks && Parked(Apply(c, s, e).tasks[id])
  {
    assert Held(s) && Pooled(c, s);
    hide Inv, Held, Pooled, Apply;
    ParkedStays(c, s, e, id);
  }

  /** It is not claimed, and nobody has a claim on it that could still start it. */
  lemma ParkedIsIdle(c: Config, s: State, fs: seq<Event>, id: string)
    requires Inv(c, s) && id in s.tasks && Parked(s.tasks[id]) && NoCancel(fs, id)
    ensures Count(Run(c, s, fs).claims, id) == Count(s.claims, id)
    ensures Count(Run(c, s, fs).runs, id) <= Count(s.runs, id)
  {
    ParkedStaysPutBack(c, s, fs, id);
    RunInv(c, s, fs);
    RunAccounted(c, s, fs, id);
    LocalNeverPutBack(c, s, id);
    hide Run, Inv, Count, InHand;
    BalancedCounts(c, s, id);
    BalancedCounts(c, Run(c, s, fs), id);
  }

  // ---------- a remote task ----------

  /** Its Agent restarts, is heard, polls, and is handed the task; it starts it. */
  lemma RequestedIsStarted(c: Config, s: State, serverID: string, id: string) returns (fs: seq<Event>)
    requires Inv(c, s) && id in s.tasks && PendingFor(s.tasks[id], serverID) && serverID in s.agents
             && serverID in s.servers
    requires Startable(s.tasks[id], s.agents[serverID].version)
    requires !Halted(s.tasks, s.tasks[id].batchID, c.failureStopPercent)
    ensures RemoteOnly(fs)
    ensures var t := Run(c, s, fs);
            && Count(t.claims, id) == Count(s.claims, id) + 1 && Count(t.runs, id) == Count(s.runs, id) + 1
            && id in t.tasks && t.tasks[id] == Started(s.tasks[id], START)
  {
    assert Keyed(s.tasks);
    var restart := ByAgent(RestartAgent(serverID, s.agents[serverID].version));
    var idle := Apply(c, s, restart);
    RestartIdles(c, s, serverID);
    hide Inv, Run, Halted, Startable, Keyed, Count, UpdatesConfirmed, RemoteOnly, Apply, Started;
    var rest := PendingIsStarted(c, idle, serverID, id, true);
    OneIsRemote(restart);
    RemoteAppend([restart], rest);
    fs := [restart] + rest;
    RunAppend(c, s, [restart], rest);
    RunOne(c, s, restart);
    assert Started(s.tasks[id], START).status.Running? by {
      StartedRuns(s.tasks[id]);
    }
    StartedIsClaimed(c, s, fs, id);
  }

  lemma StartedRuns(t: Task)
    ensures Started(t, START).status.Running?
  {
  }

  lemma RestartIdles(c: Config, s: State, serverID: string)
    requires serverID in s.agents
    ensures var t := Apply(c, s, ByAgent(RestartAgent(serverID, s.agents[serverID].version)));
            t == s.(agents := s.agents[serverID := s.agents[serverID].(phase := Idle)])
  {
  }

  lemma OneIsRemote(e: Event)
    requires e.ByAgent?
    ensures RemoteOnly([e])
  {
  }

  /** A pending task that runs after a stretch without a restart was claimed once in it. */
  lemma StartedIsClaimed(c: Config, s: State, fs: seq<Event>, id: string)
    requires Inv(c, s) && id in s.tasks && s.tasks[id].status.Pending? && RemoteOnly(fs)
    requires id in Run(c, s, fs).tasks && Run(c, s, fs).tasks[id].status.Running?
    ensures Count(Run(c, s, fs).claims, id) == Count(s.claims, id) + 1
  {
    RemoteOnlyStops(fs, id);
    NoCrashNoRequeue(c, s, fs);
    RunInv(c, s, fs);
    hide Run, Inv, RemoteOnly, Count;
    BalancedCounts(c, s, id);
    BalancedCounts(c, Run(c, s, fs), id);
  }

  // ---------- exactly when ----------

  /** A pending task whose cancellation was requested - by a request that came while it
      ran, before a restart put it back - is not claimed, and not started, until it is
      canceled again, exactly if it is local. For a remote one, of a registered Agent
      and with an execution that is not ruled out from the start, some schedule without
      another request claims and starts it. */
  lemma RequestStopsExactlyLocal(c: Config, es: seq<Event>, serverID: string, id: string)
    requires var s := Run(c, Initial(), es);
             id in s.tasks && PendingFor(s.tasks[id], serverID) && s.tasks[id].cancelRequested
    requires var s := Run(c, Initial(), es);
             serverID != LOCAL ==>
               && serverID in s.agents && serverID in s.servers && Startable(s.tasks[id], s.agents[serverID].version)
               && !Halted(s.tasks, s.tasks[id].batchID, c.failureStopPercent)
    ensures var s := Run(c, Initial(), es);
            && ((forall fs :: NoCancel(fs, id) ==> Count(Run(c, s, fs).claims, id) == Count(s.claims, id))
                <==> serverID == LOCAL)
            && ((forall fs :: NoCancel(fs, id) ==> Count(Run(c, s, fs).runs, id) <= Count(s.runs, id))
                <==> serverID == LOCAL)
  {
    ReachableInv(c, es);
    var s := Run(c, Initial(), es);
    hide Run, Inv, Halted, Startable, Count, NoCancel;
    if serverID == LOCAL {
      forall fs | NoCancel(fs, id)
        ensures Count(Run(c, s, fs).claims, id) == Count(s.claims, id)
                && Count(Run(c, s, fs).runs, id) <= Count(s.runs, id)
      {
        ParkedIsIdle(c, s, fs, id);
      }
    } else {
      var fs := RequestedIsStarted(c, s, serverID, id);
      RemoteOnlyStops(fs, id);
      assert NoCancel(fs, id) && Count(Run(c, s, fs).claims, id) > Count(s.claims, id)
                              && Count(Run(c, s, fs).runs, id) > Count(s.runs, id);
    }
  }

  // ---------- a request behind the claim ----------

  lemma RequestKeepsCounts(tasks: Tasks, id: string, now: Instant, batchID: string)
    requires id in tasks && tasks[id].status.Running?
    ensures CompletedIn(tasks[id := CancelOf(tasks[id], now).value], batchID) == CompletedIn(tasks, batchID)
    ensures FailedIn(tasks[id := CancelOf(tasks[id], now).value], batchID) == FailedIn(tasks, batchID)
  {
  }

  /** A request that arrives between a local claim and the check of the batch does not
      stop the start: only the failure rate of the batch does. */
  lemma RequestBehindClaimStopsNothing(c: Config, es: seq<Event>, w: nat, now: Instant)
    requires var s := Run(c, Initial(), es); w in s.workers && s.workers[w].Claimed?
    ensures var s := Run(c, Initial(), es); var id := s.workers[w].id;
            var t := Apply(c, s, ByRequest(Cancel(id, now))); var u := Apply(c, t, ByWorker(CheckBatch(w)));
            && id in s.tasks && id in t.tasks && t.tasks[id].cancelRequested
            && (Count(u.runs, id) == Count(s.runs, id) + 1
                <==> !Halted(s.tasks, s.tasks[id].batchID, c.failureStopPercent))
  {
    ReachableInv(c, es);
    var s := Run(c, Initial(), es);
    hide Run;
    assert Owned(s);
    assert OwnsRunning(s.tasks, s.workers[w]);
    hide Inv, Owned;
    RequestThenCheck(c, s, w, now);
    hide Apply, Halted, Count;
  }

  lemma RequestThenCheck(c: Config, s: State, w: nat, now: Instant)
    requires w in s.workers && s.workers[w].Claimed? && OwnsRunning(s.tasks, s.workers[w])
    ensures var id := s.workers[w].id;
            var t := Apply(c, s, ByRequest(Cancel(id, now))); var u := Apply(c, t, ByWorker(CheckBatch(w)));
            && id in t.tasks && t.tasks[id].cancelRequested
            && (Count(u.runs, id) == Count(s.runs, id) + 1
                <==> !Halted(s.tasks, s.tasks[id].batchID, c.failureStopPercent))
  {
    var id := s.workers[w].id;
    RequestKeepsCounts(s.tasks, id, now, s.tasks[id].batchID);
    hide CompletedIn, FailedIn;
  }
}
