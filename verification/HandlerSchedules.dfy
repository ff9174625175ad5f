/** Each call of the store is one event of the machine. These lemmas check that a
    handler's events in sequence, with nothing in between, come to what the handler's
    method does; the machine puts anything in between. */
module HandlerSchedules {
  import opened Timestamps
  import opened Types
  import opened TaskSpec
  import opened Redaction
  import opened Protocol
  import Rollout
  import C = Controllers

  // ---------- executeLocal ----------

  /** The batch stop skips the command: then `CommandDone` finds nothing to do. */
  function LocalEvents(w: nat, o: Outcome, cut: (string, nat) -> string, claimed: Instant,
                       finished: Instant): seq<Event> {
    [ByWorker(Acquire(w)), ByWorker(Claim(w, claimed)), ByWorker(CheckBatch(w)),
     ByWorker(CommandDone(w, o.failure.None?, StoredText(o.stdout, OUTPUT_LIMIT, cut),
                          StoredText(ErrorText(o), PROBLEM_LIMIT, cut))),
     ByWorker(Finish(w, finished))]
  }

  /** The last step of an execution, on any state. */
  lemma FinishEnds(s: State, w: nat, finished: Instant)
    requires w in s.workers && s.workers[w].Reporting?
    ensures var r := s.workers[w]; var u := DoFinish(s, w, finished);
            && u.tasks == C.Finished(s.tasks, r.id, r.success, r.output, r.problem, finished)
            && u.workers == s.workers - {w} && u.servers == s.servers && u.agents == s.agents
  {
  }

  /** The steps behind a won claim, as states. */
  function AfterCommand(c: Config, s: State, w: nat, success: bool, output: string, problem: string): State {
    DoCommandDone(DoCheckBatch(c, s, w), w, success, output, problem)
  }

  lemma CommandEnds(c: Config, s: State, w: nat, t: Task, success: bool, output: string, problem: string)
    requires w in s.workers && s.workers[w] == Claimed(t.id) && t.id in s.tasks && s.tasks[t.id] == t
    ensures var u := AfterCommand(c, s, w, success, output, problem);
            && u.tasks == s.tasks && u.servers == s.servers && u.agents == s.agents
            && u.workers == s.workers[w := if Halted(s.tasks, t.batchID, c.failureStopPercent)
                                           then Reporting(t.id, false, "", BATCH_STOPPED)
                                           else Reporting(t.id, success, output, problem)]
  {
  }

  lemma WonClaimEnds(c: Config, s: State, w: nat, t: Task, outcome: (string, Args) -> Outcome,
                     cut: (string, nat) -> string,
                     finished: Instant)
    requires w in s.workers && s.workers[w] == Claimed(t.id) && t.id in s.tasks && s.tasks[t.id] == t
    ensures var o := outcome(t.action, t.args);
            var u := DoFinish(AfterCommand(c, s, w, o.failure.None?, StoredText(o.stdout, OUTPUT_LIMIT, cut),
                                           StoredText(ErrorText(o), PROBLEM_LIMIT, cut)), w, finished);
            && u.tasks == C.Executed(s.tasks, t, c.failureStopPercent, outcome, cut, finished)
            && u.workers == s.workers - {w} && u.servers == s.servers && u.agents == s.agents
  {
    hide StoredText, ErrorText, Halted, AfterCommand, DoFinish, C.Finished, BATCH_STOPPED;
    var o := outcome(t.action, t.args);
    var output, problem := StoredText(o.stdout, OUTPUT_LIMIT, cut), StoredText(ErrorText(o), PROBLEM_LIMIT, cut);
    CommandEnds(c, s, w, t, o.failure.None?, output, problem);
    FinishEnds(AfterCommand(c, s, w, o.failure.None?, output, problem), w, finished);
    assert (s.workers[w := AfterCommand(c, s, w, o.failure.None?, output, problem).workers[w]]) - {w} ==
           s.workers - {w};
  }

  lemma WonClaimIsSchedule(c: Config, s: State, w: nat, o: Outcome, cut: (string, nat) -> string, claimed: Instant,
                           finished: Instant)
    ensures var es := LocalEvents(w, o, cut, claimed, finished);
            && Run(c, s, es[2..]) ==
               DoFinish(AfterCommand(c, s, w, o.failure.None?, StoredText(o.stdout, OUTPUT_LIMIT, cut),
                                     StoredText(ErrorText(o), PROBLEM_LIMIT, cut)), w, finished)
            && es[0] == ByWorker(Acquire(w)) && es[1] == ByWorker(Claim(w, claimed))
  {
    hide StoredText, DoCheckBatch, DoCommandDone, DoFinish;
    var es := LocalEvents(w, o, cut, claimed, finished);
    assert es[2..] == [es[2], es[3], es[4]];
    RunThree(c, s, es[2], es[3], es[4]);
    hide Run;
  }

  lemma LocalStart(c: Config, s: State, w: nat, o: Outcome, cut: (string, nat) -> string, claimed: Instant,
                   finished: Instant)
    ensures var es := LocalEvents(w, o, cut, claimed, finished);
            Run(c, s, es) == Run(c, DoClaim(DoAcquire(c, s, w), w, claimed), es[2..])
  {
    hide StoredText, DoAcquire, DoClaim, ErrorText;
    var es := LocalEvents(w, o, cut, claimed, finished);
    assert es[1..][1..] == es[2..];
    assert Run(c, s, es) == Run(c, DoAcquire(c, s, w), es[1..]);
  }

  /** `executeLocal` behind a free permit. */
  lemma LocalRunIsSchedule(c: Config, s: State, w: nat, outcome: (string, Args) -> Outcome,
                           cut: (string, nat) -> string,
                           claimed: Instant, finished: Instant)
    requires Keyed(s.tasks) && w in s.workers && s.workers[w].Waiting? && |Permits(s.workers)| < c.concurrency
    ensures var id := s.workers[w].id;
            var o := if id in s.tasks then outcome(s.tasks[id].action, s.tasks[id].args) else Outcome(None, "", "");
            var t := Run(c, s, LocalEvents(w, o, cut, claimed, finished));
            && t.tasks == C.LocalRun(s.tasks, id, c.failureStopPercent, outcome, cut, claimed, finished)
            && t.workers == s.workers - {w} && t.servers == s.servers && t.agents == s.agents
  {
    hide Run, LocalEvents, AfterCommand, DoFinish, StoredText, ErrorText, Halted, C.Executed, Permits;
    var id := s.workers[w].id;
    var o := if id in s.tasks then outcome(s.tasks[id].action, s.tasks[id].args) else Outcome(None, "", "");
    LocalStart(c, s, w, o, cut, claimed, finished);
    ClaimEnds(c, s, w, claimed);
    var after := DoClaim(DoAcquire(c, s, w), w, claimed);
    WonClaimIsSchedule(c, after, w, o, cut, claimed, finished);
    if C.Claimable(s.tasks, id) {
      hide DoClaim, DoAcquire;
      WonClaimEnds(c, after, w, Started(s.tasks[id], claimed), outcome, cut, finished);
    } else {
      hide DoClaim, DoAcquire;
      NothingLeft(c, after, w, o.failure.None?, StoredText(o.stdout, OUTPUT_LIMIT, cut),
                  StoredText(ErrorText(o), PROBLEM_LIMIT, cut), finished);
    }
  }

  lemma NothingLeft(c: Config, s: State, w: nat, success: bool, output: string, problem: string, finished: Instant)
    requires w !in s.workers
    ensures DoFinish(AfterCommand(c, s, w, success, output, problem), w, finished) == s
  {
  }

  lemma ClaimEnds(c: Config, s: State, w: nat, claimed: Instant)
    requires w in s.workers && s.workers[w].Waiting? && |Permits(s.workers)| < c.concurrency
    ensures var id := s.workers[w].id; var t := DoClaim(DoAcquire(c, s, w), w, claimed);
            && t.servers == s.servers && t.agents == s.agents
            && (C.Claimable(s.tasks, id) ==>
                  t.workers == s.workers[w := Claimed(id)] && t.tasks == s.tasks[id := Started(s.tasks[id], claimed)])
            && (!C.Claimable(s.tasks, id) ==> t.workers == s.workers - {w} && t.tasks == s.tasks)
  {
  }

  // ---------- requests ----------

  /** A new task is woken if it is local: the handler owes that. */
  function NewLocal(tasks: Tasks, newID: string): set<string> {
    if newID in tasks && tasks[newID].serverID == LOCAL then {newID} else {}
  }

  /** The last two store calls of a request that adds a task. */
  lemma DraftIsStored(s: State, h: nat, newID: string, now: Instant)
    requires h in s.handlers && s.handlers[h].Drafting? && newID != "" && newID !in s.tasks
    ensures var draft := s.handlers[h].draft;
            var used := draft.key != "" && exists id <- s.tasks :: s.tasks[id].key == draft.key;
            var t := DoInsert(DoLookUpKey(s, h), h, newID, now);
            && t.tasks == (if used then s.tasks else s.tasks[newID := draft.(id := newID, created := now)])
            && t.servers == s.servers && t.handlers == s.handlers - {h} && t.owed == s.owed + NewLocal(t.tasks, newID)
  {
  }

  /** `draft` waits at `h`, or nothing does; nothing else has happened. */
  predicate Waits(s: State, t: State, h: nat, draft: Option<Task>) {
    t == if draft.Some? then s.(handlers := s.handlers[h := Drafting(draft.value, true)]) else s
  }

  /** The table after `draft` has been stored - if there is one, and its key is free. */
  function Added(tasks: Tasks, draft: Option<Task>, newID: string, now: Instant): Tasks {
    if draft.None? || (draft.value.key != "" && exists id <- tasks :: tasks[id].key == draft.value.key) then tasks
    else tasks[newID := draft.value.(id := newID, created := now)]
  }

  lemma WaitingIsStored(s: State, t: State, h: nat, draft: Option<Task>, newID: string, now: Instant)
    requires Waits(s, t, h, draft) && h !in s.handlers && newID != "" && newID !in s.tasks
    ensures var u := DoInsert(DoLookUpKey(t, h), h, newID, now);
            && u.tasks == Added(s.tasks, draft, newID, now) && u.servers == s.servers && u.handlers == s.handlers
            && u.owed == s.owed + NewLocal(u.tasks, newID)
  {
    if draft.Some? {
      DraftIsStored(t, h, newID, now);
      assert s.handlers[h := t.handlers[h]] - {h} == s.handlers;
    }
    hide DoInsert, DoLookUpKey;
  }

  function EnqueueDraft(s: State, serverID: string, action: string, args: Args, key: string): Option<Task> {
    if serverID !in s.servers || !Rollout.Eligible(s.servers[serverID], serverID, action, args) then None
    else Some(NewTask("", serverID, action, args, key, "", ExpectedDigest(s.servers[serverID], action), START))
  }

  lemma EnqueueWaits(s: State, h: nat, serverID: string, action: string, args: Args, key: string)
    requires h !in s.handlers
    ensures Waits(s, DoStartEnqueue(s, h, serverID, action, args, key), h, EnqueueDraft(s, serverID, action, args, key))
  {
  }

  lemma EnqueueAdds(s: State, serverID: string, action: string, args: Args, key: string, newID: string, now: Instant)
    ensures Added(s.tasks, EnqueueDraft(s, serverID, action, args, key), newID, now) ==
            C.Enqueued(s.tasks, s.servers, serverID, action, args, key, newID, now)
  {
  }

  /** `enqueueAction`. */
  lemma EnqueueIsSchedule(c: Config, s: State, h: nat, serverID: string, action: string, args: Args, key: string,
                          newID: string, now: Instant)
    requires h !in s.handlers && newID != "" && newID !in s.tasks
    ensures var t := Run(c, s, [ByRequest(StartEnqueue(h, serverID, action, args, key)), ByRequest(LookUpKey(h)),
                                ByRequest(Insert(h, newID, now))]);
            && t.tasks == C.Enqueued(s.tasks, s.servers, serverID, action, args, key, newID, now)
            && t.servers == s.servers && t.handlers == s.handlers && t.owed == s.owed + NewLocal(t.tasks, newID)
  {
    hide DoStartEnqueue, DoLookUpKey, DoInsert, C.Enqueued, Added, Waits, EnqueueDraft;
    RunThree(c, s, ByRequest(StartEnqueue(h, serverID, action, args, key)), ByRequest(LookUpKey(h)),
             ByRequest(Insert(h, newID, now)));
    EnqueueWaits(s, h, serverID, action, args, key);
    WaitingIsStored(s, DoStartEnqueue(s, h, serverID, action, args, key), h,
                    EnqueueDraft(s, serverID, action, args, key), newID, now);
    EnqueueAdds(s, serverID, action, args, key, newID, now);
    hide Run;
  }

  function RetryDraft(s: State, id: string, key: string): Option<Task> {
    if id !in s.tasks || s.tasks[id].serverID !in s.servers || key == "" || !Retryable(s.tasks[id]) then None
    else Some(RetryOf(s.tasks[id], "", key, ExpectedDigest(s.servers[s.tasks[id].serverID], s.tasks[id].action), START))
  }

  lemma RetryWaits(s: State, h: nat, id: string, key: string)
    requires h !in s.handlers
    ensures Waits(s, DoReadOriginal(DoStartRetry(s, h, id, key), h), h, RetryDraft(s, id, key))
  {
    hide RetryOf, ExpectedDigest, Retryable;
    var t := DoStartRetry(s, h, id, key);
    if h in t.handlers {
      var r := t.handlers[h];
      assert s.handlers[h := r] - {h} == s.handlers;
      if RetryDraft(s, id, key).Some? {
        var x := Drafting(RetryDraft(s, id, key).value, true);
        assert s.handlers[h := r][h := x] == s.handlers[h := x];
      }
    }
  }

  lemma RetryAdds(s: State, id: string, key: string, newID: string, now: Instant)
    ensures Added(s.tasks, RetryDraft(s, id, key), newID, now) == C.Retried(s.tasks, s.servers, id, key, newID, now)
  {
  }

  /** The retry of a task, from reading its server to storing the copy. */
  lemma RetryIsSchedule(c: Config, s: State, h: nat, id: string, key: string, newID: string, now: Instant)
    requires h !in s.handlers && newID != "" && newID !in s.tasks
    ensures var t := Run(c, s, [ByRequest(StartRetry(h, id, key)), ByRequest(ReadOriginal(h)), ByRequest(LookUpKey(h)),
                                ByRequest(Insert(h, newID, now))]);
            && t.tasks == C.Retried(s.tasks, s.servers, id, key, newID, now)
            && t.servers == s.servers && t.handlers == s.handlers && t.owed == s.owed + NewLocal(t.tasks, newID)
  {
    hide DoStartRetry, DoReadOriginal, DoLookUpKey, DoInsert, C.Retried, Added, Waits, RetryDraft;
    RunFour(c, s, ByRequest(StartRetry(h, id, key)), ByRequest(ReadOriginal(h)), ByRequest(LookUpKey(h)),
            ByRequest(Insert(h, newID, now)));
    RetryWaits(s, h, id, key);
    WaitingIsStored(s, DoReadOriginal(DoStartRetry(s, h, id, key), h), h, RetryDraft(s, id, key), newID, now);
    RetryAdds(s, id, key, newID, now);
    hide Run;
  }

  lemma BatchWaits(s: State, h: nat, name: string, serverID: string, action: string, args: Args)
    requires h !in s.handlers && serverID in s.servers
    ensures var batch := "batch_" + name;
            DoStartBatch(s, h, name, serverID, action, args) ==
            s.(handlers := s.handlers[h := Drafting(NewTask("", serverID, action, args, batch + "_" + serverID, batch,
                                                            ExpectedDigest(s.servers[serverID], action), START),
                                                    false)])
  {
  }

  lemma DraftIsInserted(s: State, h: nat, draft: Task, newID: string, now: Instant)
    requires h !in s.handlers && newID != "" && newID !in s.tasks
    ensures var task := draft.(id := newID, created := now);
            var t := DoInsert(s.(handlers := s.handlers[h := Drafting(draft, false)]), h, newID, now);
            && t.tasks == (if KeyFree(s.tasks, task) then s.tasks[newID := task] else s.tasks)
            && t.servers == s.servers && t.handlers == s.handlers && t.owed == s.owed + NewLocal(t.tasks, newID)
  {
  }

  /** One round of a rollout's insertion loop. */
  lemma RolloutRoundIsSchedule(c: Config, s: State, h: nat, name: string, b: C.Batch, serverID: string, newID: string)
    requires h !in s.handlers && newID != "" && newID !in s.tasks && serverID in s.servers && b.id == "batch_" + name
    ensures var t := Run(c, s,
                         [ByRequest(StartBatch(h, name, serverID, b.action, b.args)),
                          ByRequest(Insert(h, newID, b.when(newID)))]);
            var task := C.BatchTask(b, s.servers, serverID, newID);
            && t.tasks == (if KeyFree(s.tasks, task) then s.tasks[newID := task] else s.tasks)
            && t.servers == s.servers && t.handlers == s.handlers && t.owed == s.owed + NewLocal(t.tasks, newID)
  {
    hide DoStartBatch, DoInsert, KeyFree, ExpectedDigest;
    RunTwo(c, s, ByRequest(StartBatch(h, name, serverID, b.action, b.args)),
           ByRequest(Insert(h, newID, b.when(newID))));
    hide Run;
    BatchWaits(s, h, name, serverID, b.action, b.args);
    DraftIsInserted(s, h, NewTask("", serverID, b.action, b.args, b.id + "_" + serverID, b.id,
                                  ExpectedDigest(s.servers[serverID], b.action), START), newID, b.when(newID));
  }

  /** The whole loop, round by round. */
  function Rounds(h: nat, name: string, b: C.Batch, targets: seq<string>, newIDs: seq<string>): seq<Event>
    requires |newIDs| == |targets|
  {
    if targets == [] then []
    else
      var n := |targets| - 1;
      Rounds(h, name, b, targets[..n], newIDs[..n])
      + [ByRequest(StartBatch(h, name, targets[n], b.action, b.args)),
         ByRequest(Insert(h, newIDs[n], b.when(newIDs[n])))]
  }

  /** A round for a server that is gone. */
  lemma UnknownRound(c: Config, s: State, h: nat, name: string, b: C.Batch, serverID: string, newID: string)
    requires h !in s.handlers && serverID !in s.servers
    ensures Run(c, s, [ByRequest(StartBatch(h, name, serverID, b.action, b.args)),
                       ByRequest(Insert(h, newID, b.when(newID)))]) == s
  {
    RunTwo(c, s, ByRequest(StartBatch(h, name, serverID, b.action, b.args)),
           ByRequest(Insert(h, newID, b.when(newID))));
    hide Run;
  }

  /** What a round adds. */
  function RoundTask(s: State, b: C.Batch, serverID: string, newID: string): seq<Task> {
    var task := C.BatchTask(b, s.servers, serverID, newID);
    if serverID in s.servers && KeyFree(s.tasks, task) then [task] else []
  }

  lemma RoundAdds(c: Config, s: State, h: nat, name: string, b: C.Batch, serverID: string, newID: string)
    requires h !in s.handlers && newID != "" && newID !in s.tasks && b.id == "batch_" + name
    ensures var t := Run(c, s, [ByRequest(StartBatch(h, name, serverID, b.action, b.args)),
                                ByRequest(Insert(h, newID, b.when(newID)))]);
            var more := RoundTask(s, b, serverID, newID);
            && t.tasks == (if more == [] then s.tasks else s.tasks[newID := more[0]])
            && t.owed == s.owed + (set id <- C.LocalIDs(more))
            && t.servers == s.servers && t.handlers == s.handlers
            && (more != [] ==> more[0].id == newID)
  {
    hide Run, KeyFree;
    if serverID in s.servers {
      RolloutRoundIsSchedule(c, s, h, name, b, serverID, newID);
    } else {
      UnknownRound(c, s, h, name, b, serverID, newID);
    }
  }

  predicate FreshIDs(tasks: Tasks, ids: seq<string>) {
    && (forall i, j :: 0 <= i < j < |ids| ==> ids[i] != ids[j])
    && (forall i :: 0 <= i < |ids| ==> ids[i] != "" && ids[i] !in tasks)
  }

  /** The loop's last round, on the table that the others left. */
  lemma RolledBy(c: Config, s: State, t: State, b: C.Batch, targets: seq<string>, newIDs: seq<string>)
    requires |newIDs| == |targets| > 0 && t.servers == s.servers
    requires t.tasks == C.Rolled(s.tasks, s.servers, b, targets[..|targets| - 1], newIDs[..|targets| - 1]).0
    ensures var n := |targets| - 1;
            var created := C.Rolled(s.tasks, s.servers, b, targets[..n], newIDs[..n]).1;
            var more := RoundTask(t, b, targets[n], newIDs[n]);
            C.Rolled(s.tasks, s.servers, b, targets, newIDs) ==
            (if more == [] then t.tasks else t.tasks[newIDs[n] := more[0]], created + more)
  {
    hide KeyFree;
    assert C.Rolled(s.tasks, s.servers, b, targets[..|targets| - 1], newIDs[..|targets| - 1]).1 + [] ==
           C.Rolled(s.tasks, s.servers, b, targets[..|targets| - 1], newIDs[..|targets| - 1]).1;
  }

  lemma {:induction false} LocalIDsTogether(a: seq<Task>, b: seq<Task>)
    ensures C.LocalIDs(a + b) == C.LocalIDs(a) + C.LocalIDs(b)
  {
    if b == [] {
      assert a + b == a;
    } else {
      assert (a + b)[..|a + b| - 1] == a + b[..|b| - 1];
      LocalIDsTogether(a, b[..|b| - 1]);
    }
  }

  /** The insertion loop of a rollout, with nothing in between; it owes the wake-up of
      exactly the tasks that the handler wakes. */
  lemma {:induction false} RolloutIsSchedule(c: Config, s: State, h: nat, name: string, b: C.Batch,
                                             targets: seq<string>, newIDs: seq<string>)
    requires h !in s.handlers && b.id == "batch_" + name && |newIDs| == |targets| && FreshIDs(s.tasks, newIDs)
    ensures var t := Run(c, s, Rounds(h, name, b, targets, newIDs));
            var (table, created) := C.Rolled(s.tasks, s.servers, b, targets, newIDs);
            && t.tasks == table && t.owed == s.owed + (set id <- C.LocalIDs(created))
            && t.servers == s.servers && t.handlers == s.handlers
            && forall id <- table :: id in s.tasks || id in newIDs
  {
    hide Run, RoundTask, C.LocalIDs, KeyFree, C.BatchTask;
    if targets != [] {
      var n := |targets| - 1;
      var before := Rounds(h, name, b, targets[..n], newIDs[..n]);
      var round := [ByRequest(StartBatch(h, name, targets[n], b.action, b.args)),
                    ByRequest(Insert(h, newIDs[n], b.when(newIDs[n])))];
      var t := Run(c, s, before);
      RolloutIsSchedule(c, s, h, name, b, targets[..n], newIDs[..n]);
      RunAppend(c, s, before, round);
      RoundAdds(c, t, h, name, b, targets[n], newIDs[n]);
      RolledBy(c, s, t, b, targets, newIDs);
      LocalIDsTogether(C.Rolled(s.tasks, s.servers, b, targets[..n], newIDs[..n]).1,
                       RoundTask(t, b, targets[n], newIDs[n]));
      hide C.Rolled;
    } else {
      NothingRolled(c, s);
    }
  }

  lemma NothingRolled(c: Config, s: State)
    ensures Run(c, s, []) == s && C.LocalIDs([]) == []
  {
  }

  // ---------- wake-ups and revocations ----------

  /** A wake-up: a worker waits for a permit, and nobody owes it any more. */
  lemma WakeUpIsSchedule(c: Config, s: State, w: nat, id: string)
    requires w !in s.workers && id in s.tasks && s.tasks[id].serverID == "local"
    ensures Run(c, s, [ByWorker(Spawn(w, id))]) == s.(workers := s.workers[w := Waiting(id)], owed := s.owed - {id})
  {
    RunOne(c, s, ByWorker(Spawn(w, id)));
    hide Run;
  }

  /** Every server but the local one can be removed. */
  lemma RevocationIsSchedule(c: Config, s: State, id: string)
    ensures Run(c, s, [ByAdmin(Revoke(id))]) == if id == "local" then s else s.(servers := s.servers - {id})
  {
    RunOne(c, s, ByAdmin(Revoke(id)));
    hide Run;
  }

  // ---------- Agents ----------

  /** A heartbeat, from authentication to the confirmed updates. */
  lemma HeartbeatIsSchedule(c: Config, s: State, h: nat, n: nat, now: Instant, when: string -> Instant)
    requires h !in s.handlers && n < |s.beats| && s.beats[n].serverID in s.servers
    requires Rollout.KeyedServers(s.servers)
    ensures var b := s.beats[n]; var record := s.servers[b.serverID];
            var t := Run(c, s, [ByBeat(VerifyBeat(h, n)), ByBeat(StoreBeat(h, now)), ByBeat(ConfirmBeat(h, when))]);
            && t.servers == s.servers[record.id :=
                 record.(agentVersion := b.version, agentFeatures := b.features, digest := b.digest, online := true,
                         lastSeen := now)]
            && t.tasks == UpdatesConfirmed(s.tasks, record.id, b.version, when)
            && t.handlers == s.handlers[h := Acknowledged(n, s.tasks.Keys)]
  {
    hide UpdatesConfirmed;
    var b := s.beats[n];
    var verified := DoVerifyBeat(s, h, n);
    var stored := DoStoreBeat(verified, h, now);
    assert stored.handlers == s.handlers[h := Stored(n)] && stored.tasks == s.tasks && stored.beats == s.beats;
    hide DoVerifyBeat, DoStoreBeat;
    RunThree(c, s, ByBeat(VerifyBeat(h, n)), ByBeat(StoreBeat(h, now)), ByBeat(ConfirmBeat(h, when)));
    hide Run;
  }

  /** A poll whose reply arrives: the claim in creation order, and what the Agent gets. */
  lemma PollIsSchedule(c: Config, s: State, serverID: string, order: seq<string>, when: string -> Instant)
    requires serverID in s.agents && s.agents[serverID].phase.Ready?
    requires PendingInOrder(s.tasks, serverID, order)
    ensures var (tasks, claimed) := Polled(s.tasks, order, c.failureStopPercent, when);
            var t := Run(c, s, [ByTransfer(Poll(serverID, order, when, true))]);
            && t.tasks == tasks && t.servers == s.servers
            && serverID in t.agents && t.agents[serverID].phase == if claimed.Some? then Given(claimed.value) else Idle
  {
    hide Polled, Stamp;
    RunOne(c, s, ByTransfer(Poll(serverID, order, when, true)));
    hide Run;
  }

  /** A result, whose texts are stored redacted and cut. */
  lemma ResultIsSchedule(c: Config, s: State, n: nat, serverID: string, taskID: string, success: bool, output: string,
                         problem: string,
                         cut: (string, nat) -> string, now: Instant)
    requires n < |s.reports|
    requires s.reports[n] == Report(serverID, taskID, success, StoredText(output, OUTPUT_LIMIT, cut),
                                    StoredText(problem, PROBLEM_LIMIT, cut))
    ensures Run(c, s, [ByTransfer(Deliver(n, now))]).tasks ==
            if taskID in s.tasks && s.tasks[taskID].serverID == serverID
            then C.Finished(s.tasks, taskID, success, StoredText(output, OUTPUT_LIMIT, cut),
                            StoredText(problem, PROBLEM_LIMIT, cut), now)
            else s.tasks
  {
    hide StoredText, Reported;
    RunOne(c, s, ByTransfer(Deliver(n, now)));
    hide Run;
  }

  /** A start on the database that a crash left. */
  lemma RestartIsSchedule(c: Config, s: State, now: Instant)
    ensures var t := Run(c, s, [ByAdmin(Crash(now))]);
            && t.tasks == Recovered(s.tasks) && t.servers == s.servers[LOCAL := Server(LOCAL, true, "", [], "", now)]
            && t.workers == map[] && t.handlers == map[] && t.agents == s.agents && t.reports == s.reports
            && t.owed == LocalPending(t.tasks)
  {
    hide Recovered;
    RunOne(c, s, ByAdmin(Crash(now)));
    hide Run;
  }
}
