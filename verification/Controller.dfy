/** The controller's handlers as they are written: store calls one after the other,
    and loops over servers. Each is proved against what it does when nothing else
    happens meanwhile; `HandlerSchedules` says that this is a schedule of the
    machine in `Protocol`, where everything else does happen meanwhile. */
module Controllers {
  import opened Timestamps
  import opened Types
  import opened TaskSpec
  import opened Storage
  import opened Redaction
  import Rollout

  lemma BatchStoppedIsPlain()
    ensures NoQuote(BATCH_STOPPED) && |BATCH_STOPPED| == 46
  {
    BatchStoppedHalves();
    assert NoQuote("batch stopped after ") && NoQuote("reaching failure threshold");
    hide BATCH_STOPPED;
  }

  lemma BatchStoppedHalves()
    ensures BATCH_STOPPED == "batch stopped after " + "reaching failure threshold"
  {
  }

  function Finished(tasks: Tasks, id: string, success: bool, output: string, problem: string, now: Instant): Tasks {
    if id in tasks then tasks[id := Reported(tasks[id], success, output, problem, now)] else tasks
  }

  predicate Claimable(tasks: Tasks, id: string) {
    id in tasks && tasks[id].status.Pending? && !tasks[id].cancelRequested
  }

  /** What happens to a claimed task `t`. */
  function Executed(running: Tasks, t: Task, percent: int, outcome: (string, Args) -> Outcome,
                    cut: (string, nat) -> string, finished: Instant): Tasks {
    if Halted(running, t.batchID, percent) then Finished(running, t.id, false, "", BATCH_STOPPED, finished)
    else
      var o := outcome(t.action, t.args);
      Finished(running, t.id, o.failure.None?, StoredText(o.stdout, OUTPUT_LIMIT, cut),
               StoredText(ErrorText(o), PROBLEM_LIMIT, cut), finished)
  }

  /** Everything that one local execution does to the table. */
  function LocalRun(tasks: Tasks, id: string, percent: int, outcome: (string, Args) -> Outcome,
                    cut: (string, nat) -> string, claimed: Instant, finished: Instant): Tasks {
    if !Claimable(tasks, id) then tasks
    else
      var t := Started(tasks[id], claimed);
      Executed(tasks[id := t], t, percent, outcome, cut, finished)
  }

  /** What a local execution writes, field by field. */
  lemma LocalRunWrites(tasks: Tasks, id: string, percent: int, outcome: (string, Args) -> Outcome,
                       cut: (string, nat) -> string, claimed: Instant, finished: Instant)
    requires Keyed(tasks)
    ensures var after := LocalRun(tasks, id, percent, outcome, cut, claimed, finished);
            if id !in tasks || tasks[id].status != Pending || tasks[id].cancelRequested then after == tasks
            else
              var t := tasks[id].(started := Some(claimed), finished := Some(finished));
              var o := outcome(t.action, t.args);
              after == tasks[id :=
                if Halted(tasks, t.batchID, percent)
                then t.(status := Failed, output := "", error := "batch stopped after reaching failure threshold")
                else t.(status := if o.failure.None? then Success else Failed,
                        output := StoredText(o.stdout, 32768, cut),
                        error := StoredText(if o.failure.Some? then o.stderr + "\n" + o.failure.value else o.stderr,
                                            8192, cut))]
  {
    hide StoredText;
    if Claimable(tasks, id) {
      StartKeepsVerdict(tasks, id, claimed, percent);
    }
    hide Halted;
  }

  lemma StartKeepsVerdict(tasks: Tasks, id: string, now: Instant, percent: int)
    requires Claimable(tasks, id)
    ensures var batchID := tasks[id].batchID;
            Halted(tasks[id := Started(tasks[id], now)], batchID, percent) <==> Halted(tasks, batchID, percent)
  {
    var batchID, after := tasks[id].batchID, tasks[id := Started(tasks[id], now)];
    assert CompletedIn(after, batchID) == CompletedIn(tasks, batchID);
    assert FailedIn(after, batchID) == FailedIn(tasks, batchID);
  }

  /** One rollout: its identifier and what it asks for. */
  datatype Batch = Batch(id: string, action: string, args: Args, when: string -> Instant)

  function BatchTask(b: Batch, servers: Rollout.Servers, serverID: string, id: string): Task {
    var digest := if serverID in servers then ExpectedDigest(servers[serverID], b.action) else "";
    NewTask(id, serverID, b.action, b.args, b.id + "_" + serverID, b.id, digest, b.when(id))
  }

  /** The targets without repetitions. */
  function Firsts(ids: seq<string>): seq<string> {
    if ids == [] then []
    else
      var before := Firsts(ids[..|ids| - 1]);
      if ids[|ids| - 1] in before then before else before + [ids[|ids| - 1]]
  }

  lemma {:induction false} FirstsAreDistinct(ids: seq<string>)
    ensures NoDuplicates(Firsts(ids))
    ensures forall id :: id in Firsts(ids) <==> id in ids
  {
    if ids != [] {
      FirstsAreDistinct(ids[..|ids| - 1]);
      assert ids == ids[..|ids| - 1] + [ids[|ids| - 1]];
    }
  }

  function Targets(tasks: seq<Task>): seq<string> {
    seq(|tasks|, i requires 0 <= i < |tasks| => tasks[i].serverID)
  }

  lemma TargetsAppend(tasks: seq<Task>, t: Task)
    ensures Targets(tasks + [t]) == Targets(tasks) + [t.serverID]
  {
  }

  /** The tasks that start a local execution. */
  function LocalIDs(tasks: seq<Task>): seq<string> {
    if tasks == [] then []
    else
      var last := tasks[|tasks| - 1];
      LocalIDs(tasks[..|tasks| - 1]) + if last.serverID == LOCAL then [last.id] else []
  }

  /** Where they come from: the places of the local tasks, in order. */
  lemma {:induction false} LocalIDsFrom(tasks: seq<Task>) returns (at: seq<nat>)
    ensures |at| == |LocalIDs(tasks)|
    ensures forall i :: 0 <= i < |at| ==>
              at[i] < |tasks| && tasks[at[i]].id == LocalIDs(tasks)[i] && tasks[at[i]].serverID == "local"
    ensures forall i, j :: 0 <= i < j < |at| ==> at[i] < at[j]
    ensures forall k :: 0 <= k < |tasks| && tasks[k].serverID == "local" ==> k in at
  {
    if tasks == [] {
      at := [];
    } else {
      var n := |tasks| - 1;
      at := LocalIDsFrom(tasks[..n]);
      if tasks[n].serverID == "local" {
        at := at + [n];
      }
    }
  }

  /** They are the ids of exactly the local tasks, each once, in the order of the tasks. */
  lemma LocalIDsAre(tasks: seq<Task>) returns (at: seq<nat>)
    requires forall i, j :: 0 <= i < j < |tasks| ==> tasks[i].id != tasks[j].id
    ensures forall id :: id in LocalIDs(tasks) <==> exists t <- tasks :: t.id == id && t.serverID == "local"
    ensures NoDuplicates(LocalIDs(tasks)) && |at| == |LocalIDs(tasks)|
    ensures forall i :: 0 <= i < |at| ==>
              at[i] < |tasks| && tasks[at[i]].id == LocalIDs(tasks)[i] && tasks[at[i]].serverID == "local"
    ensures forall i, j :: 0 <= i < j < |at| ==> at[i] < at[j]
  {
    at := LocalIDsFrom(tasks);
    hide LocalIDs;
    forall t <- tasks | t.serverID == "local"
      ensures t.id in LocalIDs(tasks)
    {
      var k :| 0 <= k < |tasks| && tasks[k] == t;
      assert k in at;
    }
    forall id <- LocalIDs(tasks)
      ensures exists t <- tasks :: t.id == id && t.serverID == "local"
    {
      var i :| 0 <= i < |at| && LocalIDs(tasks)[i] == id;
      assert tasks[at[i]] in tasks;
    }
  }

  /** Where the insertion loop of a rollout stands: the targets met so far have one
      task each, and the table has grown by exactly these. */
  ghost predicate RolledOut(table: Tasks, before: Tasks, created: seq<Task>, b: Batch, servers: Rollout.Servers,
                            targets: seq<string>, newIDs: seq<string>)
  {
    && Targets(created) == Firsts(Rollout.Kept(targets, id => id in servers))
    && GrownBy(table, before, created, b, servers, newIDs)
  }

  ghost predicate GrownBy(table: Tasks, before: Tasks, created: seq<Task>, b: Batch, servers: Rollout.Servers,
                          newIDs: seq<string>) {
    && (forall t <- created :: t.id in newIDs && t == BatchTask(b, servers, t.serverID, t.id))
    && (forall t <- created :: t.id in table && table[t.id] == t)
    && (forall id <- before :: id in table && table[id] == before[id])
    && (forall id <- table :: id in before || (id in newIDs && table[id] in created))
  }

  /** The table and the new tasks after the insertion loop over `targets`. */
  function Rolled(tasks: Tasks, servers: Rollout.Servers, b: Batch, targets: seq<string>, newIDs: seq<string>)
    : (Tasks, seq<Task>)
    requires |newIDs| == |targets|
    decreases |targets|
  {
    if targets == [] then (tasks, [])
    else
      var n := |targets| - 1;
      var (table, created) := Rolled(tasks, servers, b, targets[..n], newIDs[..n]);
      var task := BatchTask(b, servers, targets[n], newIDs[n]);
      if targets[n] in servers && KeyFree(table, task) then (table[task.id := task], created + [task])
      else (table, created)
  }

  lemma RolledStep(tasks: Tasks, servers: Rollout.Servers, b: Batch, targets: seq<string>, newIDs: seq<string>, i: nat)
    requires |newIDs| == |targets| && i < |targets|
    ensures var (table, created) := Rolled(tasks, servers, b, targets[..i], newIDs[..i]);
            var task := BatchTask(b, servers, targets[i], newIDs[i]);
            Rolled(tasks, servers, b, targets[..i + 1], newIDs[..i + 1]) ==
            if targets[i] in servers && KeyFree(table, task) then (table[task.id := task], created + [task])
            else (table, created)
  {
    hide KeyFree, BatchTask;
    assert targets[..i + 1][..i] == targets[..i] && newIDs[..i + 1][..i] == newIDs[..i];
  }

  /** The created tasks, field by field. */
  lemma CreatedTasks(table: Tasks, before: Tasks, created: seq<Task>, b: Batch, servers: Rollout.Servers,
                     targets: seq<string>, newIDs: seq<string>, t: Task)
    requires RolledOut(table, before, created, b, servers, targets, newIDs) && Rollout.KeyedServers(servers)
    requires t in created
    ensures t.serverID in servers
    ensures var digest := if t.serverID == "local" || b.action == "agent.update" then ""
                          else servers[t.serverID].digest;
            t == Task(t.id, t.serverID, b.action, b.args, Pending, "", "", b.when(t.id), None, None,
                      b.id + "_" + t.serverID, b.id, digest, false, 0, "")
  {
    var known := Rollout.Kept(targets, id => id in servers);
    FirstsAreDistinct(known);
    Rollout.KeptAreKept(targets, id => id in servers);
    var i :| 0 <= i < |created| && created[i] == t;
    assert Targets(created)[i] in Firsts(known);
    hide Rollout.Kept, Firsts;
  }

  /** A rollout wakes at most one task: there is one local target. */
  lemma WokenTasks(table: Tasks, before: Tasks, created: seq<Task>, b: Batch, servers: Rollout.Servers,
                   targets: seq<string>, newIDs: seq<string>)
    requires RolledOut(table, before, created, b, servers, targets, newIDs)
    ensures forall id :: id in LocalIDs(created) <==> exists t <- created :: t.id == id && t.serverID == "local"
    ensures |LocalIDs(created)| <= 1
  {
    FirstsAreDistinct(Rollout.Kept(targets, id => id in servers));
    hide Rollout.Kept, Firsts, BatchTask;
    forall i, j | 0 <= i < j < |created|
      ensures created[i].serverID != created[j].serverID && created[i].id != created[j].id
    {
      assert Targets(created)[i] != Targets(created)[j];
      assert created[i] in created && created[j] in created;
    }
    var at := LocalIDsAre(created);
    if |at| > 1 {
      TwoLocals(created, at);
      assert false;
    }
  }

  lemma TwoLocals(tasks: seq<Task>, at: seq<nat>)
    requires |at| > 1 && at[0] < at[1] < |tasks| && forall i :: 0 <= i < |at| ==> at[i] < |tasks|
    requires forall i :: 0 <= i < |at| ==> tasks[at[i]].serverID == "local"
    ensures exists i, j :: 0 <= i < j < |tasks| && tasks[i].serverID == tasks[j].serverID
  {
    assert tasks[at[0]].serverID == tasks[at[1]].serverID;
  }

  lemma SameTarget(batchID: string, a: string, b: string)
    requires batchID + "_" + a == batchID + "_" + b
    ensures a == b
  {
    assert (batchID + "_" + a)[|batchID| + 1..] == a;
    assert (batchID + "_" + b)[|batchID| + 1..] == b;
  }

  /** The unique index refuses the task of a target exactly when the target has one. */
  lemma KeyFreeOnce(table: Tasks, before: Tasks, created: seq<Task>, b: Batch, servers: Rollout.Servers,
                    targets: seq<string>,
                    newIDs: seq<string>, serverID: string, id: string)
    requires RolledOut(table, before, created, b, servers, targets, newIDs)
    requires b.id != "" && id !in before && id !in newIDs
    requires forall other <- before :: before[other].key != b.id + "_" + serverID
    ensures KeyFree(table, BatchTask(b, servers, serverID, id)) <==> serverID !in Targets(created)
  {
    if serverID in Targets(created) {
      var i :| 0 <= i < |created| && created[i].serverID == serverID;
      assert created[i] in created && table[created[i].id].key == b.id + "_" + serverID;
    } else {
      forall other <- table
        ensures table[other].key != b.id + "_" + serverID
      {
        if other !in before && table[other].key == b.id + "_" + serverID {
          var i :| 0 <= i < |created| && created[i] == table[other];
          assert Targets(created)[i] == created[i].serverID;
          SameTarget(b.id, created[i].serverID, serverID);
          assert false;
        }
      }
    }
  }

  lemma KeptStep(servers: Rollout.Servers, targets: seq<string>, serverID: string)
    ensures var before := Firsts(Rollout.Kept(targets, x => x in servers));
            var after := Firsts(Rollout.Kept(targets + [serverID], x => x in servers));
            after == if serverID in servers && serverID !in before then before + [serverID] else before
  {
    Rollout.KeptAppend(targets, serverID, x => x in servers);
    var kept := Rollout.Kept(targets, x => x in servers);
    assert (kept + [serverID])[..|kept|] == kept && kept + [] == kept;
  }

  lemma RolloutSkips(table: Tasks, before: Tasks, created: seq<Task>, b: Batch, servers: Rollout.Servers,
                     targets: seq<string>,
                     newIDs: seq<string>, serverID: string, id: string)
    requires RolledOut(table, before, created, b, servers, targets, newIDs)
    requires serverID !in servers || serverID in Targets(created)
    ensures RolledOut(table, before, created, b, servers, targets + [serverID], newIDs + [id])
  {
    KeptStep(servers, targets, serverID);
    hide BatchTask, Rollout.Kept, Firsts, Targets;
    assert GrownBy(table, before, created, b, servers, newIDs + [id]);
  }

  lemma GrownByOne(table: Tasks, before: Tasks, created: seq<Task>, b: Batch, servers: Rollout.Servers,
                   newIDs: seq<string>, task: Task)
    requires GrownBy(table, before, created, b, servers, newIDs)
    requires task.id !in before && task.id !in newIDs && task == BatchTask(b, servers, task.serverID, task.id)
    ensures GrownBy(table[task.id := task], before, created + [task], b, servers, newIDs + [task.id])
  {
  }

  lemma RolloutAdds(table: Tasks, before: Tasks, created: seq<Task>, b: Batch, servers: Rollout.Servers,
                    targets: seq<string>,
                    newIDs: seq<string>, serverID: string, id: string)
    requires RolledOut(table, before, created, b, servers, targets, newIDs)
    requires serverID in servers && serverID !in Targets(created) && id !in before && id !in newIDs
    ensures var task := BatchTask(b, servers, serverID, id);
            RolledOut(table[id := task], before, created + [task], b, servers, targets + [serverID], newIDs + [id])
  {
    var task := BatchTask(b, servers, serverID, id);
    assert task.id == id && task.serverID == serverID;
    hide BatchTask, Rollout.Kept, Firsts, Targets, GrownBy;
    KeptStep(servers, targets, serverID);
    TargetsAppend(created, task);
    GrownByOne(table, before, created, b, servers, newIDs, task);
  }

  /** One round of the loop, with the insertion's outcome. */
  lemma RolloutStep(table: Tasks, before: Tasks, created: seq<Task>, b: Batch, servers: Rollout.Servers,
                    targets: seq<string>,
                    newIDs: seq<string>, serverID: string, id: string)
    requires RolledOut(table, before, created, b, servers, targets, newIDs)
    requires b.id != "" && id !in before && id !in newIDs
    requires forall other <- before :: before[other].key != b.id + "_" + serverID
    ensures var task := BatchTask(b, servers, serverID, id);
            if serverID !in servers || !KeyFree(table, task)
            then RolledOut(table, before, created, b, servers, targets + [serverID], newIDs + [id])
            else RolledOut(table[id := task], before, created + [task], b, servers, targets + [serverID], newIDs + [id])
  {
    KeyFreeOnce(table, before, created, b, servers, targets, newIDs, serverID, id);
    hide RolledOut, KeyFree, Targets, BatchTask;
    if serverID in servers && serverID !in Targets(created) {
      RolloutAdds(table, before, created, b, servers, targets, newIDs, serverID, id);
    } else {
      RolloutSkips(table, before, created, b, servers, targets, newIDs, serverID, id);
    }
  }

  /** The servers that a rollout goes to. */
  function Chosen(servers: Rollout.Servers, ids: seq<string>, b: Batch, strategy: Rollout.Strategy): seq<string>
    requires Rollout.ValidStrategy(strategy)
  {
    var eligible := Rollout.Kept(ids, id => Rollout.RolloutTakes(servers, b.action, b.args, id));
    eligible[..Rollout.LimitOf(eligible, strategy)]
  }

  /** They are a prefix of the eligible servers of the request: all, the first, or a
      percentage rounded up. */
  lemma ChosenIs(servers: Rollout.Servers, ids: seq<string>, b: Batch, strategy: Rollout.Strategy)
    requires Rollout.ValidStrategy(strategy)
    ensures var takes := (id: string) => id in servers && Rollout.Eligible(servers[id], id, b.action, b.args);
            var eligible := Rollout.Kept(ids, takes);
            var targets := Chosen(servers, ids, b, strategy); var n, k := |eligible|, |targets|;
            && targets <= eligible
            && (n > 0 ==> k > 0)
            && match strategy
               case All => targets == eligible
               case Canary => k <= 1
               case Percentage(p) => (k - 1) * 100 < n * p <= k * 100
  {
    hide Rollout.Eligible;
    Rollout.KeptSame(ids, id => id in servers && Rollout.Eligible(servers[id], id, b.action, b.args),
                     id => Rollout.RolloutTakes(servers, b.action, b.args, id));
    Rollout.LimitIsCeiling(|Rollout.Kept(ids, id => Rollout.RolloutTakes(servers, b.action, b.args, id))|, strategy);
    hide Rollout.RolloutTakes, Rollout.Kept;
  }

  lemma ChosenAreKnown(servers: Rollout.Servers, ids: seq<string>, b: Batch, strategy: Rollout.Strategy)
    requires Rollout.ValidStrategy(strategy)
    ensures var targets := Chosen(servers, ids, b, strategy);
            && |targets| <= |ids|
            && (forall id <- targets :: id in ids)
            && Rollout.Kept(targets, id => id in servers) == targets
  {
    hide Rollout.Eligible;
    var keep := (id: string) => Rollout.RolloutTakes(servers, b.action, b.args, id);
    var eligible := Rollout.Kept(ids, keep);
    Rollout.KeptAreKept(ids, keep);
    Rollout.KeptSame(ids, keep, id => Rollout.RolloutTakes(servers, b.action, b.args, id));
    assert forall id <- Chosen(servers, ids, b, strategy) :: id in eligible && keep(id);
    KnownAreKept(servers, Chosen(servers, ids, b, strategy));
  }

  lemma {:induction false} KnownAreKept(servers: Rollout.Servers, targets: seq<string>)
    requires forall id <- targets :: id in servers
    ensures Rollout.Kept(targets, id => id in servers) == targets
  {
    if targets != [] {
      KnownAreKept(servers, targets[1..]);
      assert targets == [targets[0]] + targets[1..];
    }
  }

  /** Whatever the request repeats: every known target has exactly one task of the
      batch. */
  lemma OneTaskPerTarget(table: Tasks, before: Tasks, created: seq<Task>, b: Batch, servers: Rollout.Servers,
                         targets: seq<string>,
                         newIDs: seq<string>, target: string)
    requires RolledOut(table, before, created, b, servers, targets, newIDs)
    requires forall id <- before :: before[id].batchID != b.id
    requires target in targets && target in servers
    ensures exists id <- table ::
              && table[id].batchID == b.id && table[id].serverID == target
              && forall other <- table :: table[other].batchID == b.id && table[other].serverID == target ==>
                 table[other] == table[id]
  {
    var known := Rollout.Kept(targets, id => id in servers);
    KeptFinds(targets, servers, target);
    FirstsAreDistinct(known);
    assert target in Targets(created);
    var i :| 0 <= i < |created| && created[i].serverID == target;
    var id := created[i].id;
    assert created[i] in created && table[id] == created[i];
    forall other <- table | table[other].batchID == b.id && table[other].serverID == target
      ensures table[other] == table[id]
    {
      var j :| 0 <= j < |created| && created[j] == table[other];
      assert Targets(created)[i] == Targets(created)[j];
    }
  }

  lemma {:induction false} KeptFinds(ids: seq<string>, servers: Rollout.Servers, target: string)
    requires target in ids && target in servers
    ensures target in Rollout.Kept(ids, id => id in servers)
  {
    if ids[0] != target {
      KeptFinds(ids[1..], servers, target);
    }
  }

  lemma TargetsOfRollout(table: Tasks, before: Tasks, created: seq<Task>, b: Batch, servers: Rollout.Servers,
                         targets: seq<string>,
                         newIDs: seq<string>)
    requires RolledOut(table, before, created, b, servers, targets, newIDs)
    requires Rollout.Kept(targets, id => id in servers) == targets
    ensures Targets(created) == Firsts(targets)
  {
  }

  /** What an enqueued request does to the table. */
  function Enqueued(tasks: Tasks, servers: Rollout.Servers, serverID: string, action: string, args: Args, key: string,
                    newID: string, now: Instant): Tasks
  {
    if serverID !in servers || !Rollout.Eligible(servers[serverID], serverID, action, args)
       || (key != "" && exists id <- tasks :: tasks[id].key == key)
    then tasks
    else tasks[newID := NewTask(newID, serverID, action, args, key, "", ExpectedDigest(servers[serverID], action), now)]
  }

  /** What a retry does to the table. */
  function Retried(tasks: Tasks, servers: Rollout.Servers, id: string, key: string, newID: string,
                   now: Instant): Tasks {
    if id !in tasks || tasks[id].serverID !in servers || !Retryable(tasks[id]) || key == ""
       || (exists other <- tasks :: tasks[other].key == key)
    then tasks
    else tasks[newID := RetryOf(tasks[id], newID, key, ExpectedDigest(servers[tasks[id].serverID], tasks[id].action),
                                now)]
  }

  /** The assignments of the result handler: the default text comes before redaction
      there, and after it in `finishTask`. */
  function ResultOf(t: Task, success: bool, output: string, problem: string, cut: (string, nat) -> string,
                    now: Instant): Task {
    var status := if t.cancelRequested then Canceled else if success then Success else Failed;
    var text := if t.cancelRequested && problem == "" then "task canceled" else problem;
    t.(status := status, finished := Some(now),
       output := StoredText(output, OUTPUT_LIMIT, cut), error := StoredText(text, PROBLEM_LIMIT, cut))
  }

  lemma ResultIsReport(t: Task, success: bool, output: string, problem: string, cut: (string, nat) -> string,
                       now: Instant)
    ensures ResultOf(t, success, output, problem, cut, now) ==
            Reported(t, success, StoredText(output, OUTPUT_LIMIT, cut), StoredText(problem, PROBLEM_LIMIT, cut), now)
  {
    EmptyIsEmpty(problem, PROBLEM_LIMIT, cut);
    PlainTextIsStored("task canceled", PROBLEM_LIMIT, cut);
    hide StoredText;
  }

  lemma StoredUnderItsID(store: Store, id: string)
    requires store.Valid() && id in store.Tasks()
    ensures store.Tasks()[id].id == id
  {
    hide Stamp;
  }

  lemma ServersKeyed(store: Store)
    requires store.Valid()
    ensures Rollout.KeyedServers(store.servers)
  {
    hide Agreed, UniqueKeys;
  }

  lemma SameKeyStays(store: Store, id: string, t: Task)
    requires store.Valid() && id in store.Tasks() && t.id == id && store.Tasks()[id].key == t.key
    ensures KeyFree(store.Tasks(), t)
  {
    hide Stamp;
    SameKeyFits(store.Tasks(), t);
  }

  class Controller {
    const store: Store
    const failureStopPercent: int
    const cut: (string, nat) -> string

    constructor (store: Store, failureStopPercent: int, cut: (string, nat) -> string)
      ensures this.store == store && this.failureStopPercent == failureStopPercent && this.cut == cut
    {
      this.store, this.failureStopPercent, this.cut := store, failureStopPercent, cut;
    }

    /** Errors of the store are swallowed. */
    method FinishTask(id: string, success: bool, output: string, problem: string, now: Instant)
      requires store.Valid()
      modifies store`rows
      ensures store.Valid()
      ensures store.Tasks() == Finished(old(store.Tasks()), id, success, StoredText(output, OUTPUT_LIMIT, cut),
                                        StoredText(problem, PROBLEM_LIMIT, cut), now)
    {
      var outputText := Truncate(Redact(output), OUTPUT_LIMIT, cut);
      var problemText := Truncate(Redact(problem), PROBLEM_LIMIT, cut);
      var _ := store.FinishTask(id, success, outputText, problemText, now);
    }

    /** One `executeLocal` behind the semaphore; `outcome` stands for the command. */
    method ExecuteLocal(id: string, outcome: (string, Args) -> Outcome, claimed: Instant, finished: Instant)
      requires store.Valid()
      modifies store`rows
      ensures store.Valid()
      ensures store.Tasks() == LocalRun(old(store.Tasks()), id, failureStopPercent, outcome, cut, claimed, finished)
    {
      hide Store.Valid, Records, Executed, Halted;
      var task := store.ClaimTask(id, claimed);
      if task.Ok? {
        ExecuteClaimed(task.value, outcome, finished);
      }
    }

    method ExecuteClaimed(task: Task, outcome: (string, Args) -> Outcome, finished: Instant)
      requires store.Valid()
      modifies store`rows
      ensures store.Valid()
      ensures store.Tasks() == Executed(old(store.Tasks()), task, failureStopPercent, outcome, cut, finished)
    {
      hide Store.Valid, Records, Redact, StoredText, Halted, Finished;
      var stop := store.BatchShouldStop(task.batchID, failureStopPercent);
      if stop {
        FinishTask(task.id, false, "", BATCH_STOPPED, finished);
        BatchStoppedIsPlain();
        PlainTextIsStored("", OUTPUT_LIMIT, cut);
        PlainTextIsStored(BATCH_STOPPED, PROBLEM_LIMIT, cut);
        return;
      }
      var result := outcome(task.action, task.args);
      StoredTextIsOnePass(result, cut);
      if result.failure.Some? {
        FinishTask(task.id, false, result.stdout, Redact(result.stderr + "\n" + result.failure.value), finished);
        return;
      }
      FinishTask(task.id, true, Redact(result.stdout), Redact(result.stderr), finished);
    }

    /** A validated request: an eligible server gets one pending task, or the request
        gets the task that already has its key. `wake` starts a local execution. */
    method EnqueueAction(serverID: string, action: string, args: Args, key: string, newID: string, now: Instant)
      returns (r: Result<Task>, wake: bool)
      requires store.Valid() && newID !in store.Tasks()
      modifies store`rows
      ensures store.Valid()
      ensures store.Tasks() == Enqueued(old(store.Tasks()), store.servers, serverID, action, args, key, newID, now)
      ensures r.Ok? <==> serverID in store.servers && Rollout.Eligible(store.servers[serverID], serverID, action, args)
      ensures r.Ok? ==> r.value.key == key && r.value.id in store.Tasks() && store.Tasks()[r.value.id] == r.value
      ensures r.Ok? && r.value.id !in old(store.Tasks()) ==>
                var digest := if serverID == "local" || action == "agent.update" then ""
                              else store.servers[serverID].digest;
                r.value == Task(newID, serverID, action, args, Pending, "", "", now, None, None,
                                key, "", digest, false, 0, "")
      ensures r.Err? ==> r.error == if serverID in store.servers then Rejected else NotFound
      ensures wake <==> r.Ok? && r.value.id !in old(store.Tasks()) && serverID == LOCAL
    {
      hide Store.Valid, Records;
      wake := false;
      if serverID !in store.servers {
        return Err(NotFound), false;
      }
      ServersKeyed(store);
      var server := store.servers[serverID];
      if serverID != LOCAL && !server.online {
        return Err(Rejected), false;
      }
      if action == AGENT_UPDATE {
        var version := TextOf(args, "version");
        if serverID == LOCAL {
          return Err(Rejected), false;
        }
        var supports := Rollout.SupportsAgentUpdate(server);
        if !supports {
          return Err(Rejected), false;
        }
        if server.agentVersion == version {
          return Err(Rejected), false;
        }
      }
      var existing := store.FindTaskByIdempotency(key);
      if existing.Ok? {
        return existing, false;
      }
      var task := NewTask(newID, serverID, action, args, key, "", ExpectedDigest(server, action), now);
      r := store.PutTask(task);
      if r.Ok? && serverID == LOCAL {
        wake := true;
      }
    }

    /** A validated rollout: the eligible servers of the request, of these the prefix
        that the strategy takes, and of each of these exactly one task. */
    method BatchAction(ids: seq<string>, b: Batch, strategy: Rollout.Strategy, newIDs: seq<string>)
      returns (created: seq<Task>, woken: seq<string>)
      requires store.Valid() && b.id != "" && Rollout.ValidStrategy(strategy)
      requires |newIDs| == |ids| && NoDuplicates(newIDs) && forall id <- newIDs :: id !in store.Tasks()
      requires forall id <- store.Tasks(), target <- ids :: store.Tasks()[id].key != b.id + "_" + target
      modifies store`rows
      ensures store.Valid()
      ensures |Chosen(store.servers, ids, b, strategy)| <= |newIDs|
      ensures var targets := Chosen(store.servers, ids, b, strategy);
              && Targets(created) == Firsts(targets)
              && RolledOut(store.Tasks(), old(store.Tasks()), created, b, store.servers, targets, newIDs[..|targets|])
      ensures forall t <- created :: t.serverID in store.servers
      ensures forall t <- created ::
                var digest := if t.serverID == "local" || b.action == "agent.update" then ""
                              else store.servers[t.serverID].digest;
                t == Task(t.id, t.serverID, b.action, b.args, Pending, "", "", b.when(t.id), None, None,
                          b.id + "_" + t.serverID, b.id, digest, false, 0, "")
      ensures forall id :: id in woken <==> exists t <- created :: t.id == id && t.serverID == "local"
      ensures |woken| <= 1
    {
      hide Store.Valid, Records, RolledOut, Firsts, Rollout.RolloutTakes, Rollout.Limit, Rollout.Kept;
      var eligible := Rollout.BatchEligible(store.servers, ids, b.action, b.args);
      var targets := eligible[..Rollout.LimitOf(eligible, strategy)];
      ChosenAreKnown(store.servers, ids, b, strategy);
      assert targets == Chosen(store.servers, ids, b, strategy);
      created, woken := InsertBatch(targets, b, newIDs[..|targets|]);
      TargetsOfRollout(store.Tasks(), old(store.Tasks()), created, b, store.servers, targets, newIDs[..|targets|]);
      WokenTasks(store.Tasks(), old(store.Tasks()), created, b, store.servers, targets, newIDs[..|targets|]);
      ServersKeyed(store);
      forall t <- created {
        CreatedTasks(store.Tasks(), old(store.Tasks()), created, b, store.servers, targets, newIDs[..|targets|], t);
      }
    }

    /** A retry also wakes the worker of a task that was there already. */
    method RetryTask(id: string, key: string, newID: string, now: Instant) returns (r: Result<Task>, wake: bool)
      requires store.Valid() && newID !in store.Tasks() && key != ""
      modifies store`rows
      ensures store.Valid()
      ensures store.Tasks() == Retried(old(store.Tasks()), store.servers, id, key, newID, now)
      ensures r.Ok? <==> && id in old(store.Tasks()) && old(store.Tasks())[id].serverID in store.servers
                         && old(store.Tasks())[id].status in {Failed, Canceled}
      ensures r.Ok? ==> r.value.key == key && r.value.id in store.Tasks() && store.Tasks()[r.value.id] == r.value
      ensures r.Ok? && r.value.id !in old(store.Tasks()) ==>
                var t := old(store.Tasks())[id];
                var digest := if t.serverID == "local" || t.action == "agent.update" then ""
                              else store.servers[t.serverID].digest;
                r.value == Task(newID, t.serverID, t.action, t.args, Pending, "", "", now, None, None,
                                key, "", digest, false, t.attempt + 1, id)
      ensures wake <==> r.Ok? && r.value.serverID == LOCAL
    {
      hide Store.Valid, Records;
      var task := store.GetTask(id);
      if task.Err? {
        return task, false;
      }
      if task.value.serverID !in store.servers {
        return Err(NotFound), false;
      }
      StoredUnderItsID(store, id);
      ServersKeyed(store);
      r := store.CloneTask(id, key, ExpectedDigest(store.servers[task.value.serverID], task.value.action), newID, now);
      wake := r.Ok? && r.value.serverID == LOCAL;
    }

    /** An authenticated Agent's heartbeat: `record` is its server as authentication
        read it. */
    method Heartbeat(record: Server, version: string, features: seq<string>, digest: string, now: Instant,
                     when: string -> Instant)
      requires store.Valid()
      modifies store`rows, store`servers
      ensures store.Valid()
      ensures store.servers == old(store.servers)[record.id :=
                record.(agentVersion := version, agentFeatures := features, digest := digest, online := true,
                        lastSeen := now)]
      ensures store.Tasks() == UpdatesConfirmed(old(store.Tasks()), record.id, version, when)
    {
      hide Store.Valid, Records, UpdatesConfirmed;
      var server := record;
      server := server.(agentVersion := version, agentFeatures := features);
      server := server.(digest := digest, online := true, lastSeen := now);
      store.PutServer(server);
      store.ConfirmAgentUpdate(server.id, version, when);
    }

    /** An Agent's result is recorded if the task is its own. */
    method AgentResult(serverID: string, taskID: string, success: bool, output: string, problem: string, now: Instant)
      returns (accepted: bool)
      requires store.Valid()
      modifies store`rows
      ensures store.Valid()
      ensures accepted <==> taskID in old(store.Tasks()) && old(store.Tasks())[taskID].serverID == serverID
      ensures store.Tasks() ==
              if accepted
              then Finished(old(store.Tasks()), taskID, success, StoredText(output, OUTPUT_LIMIT, cut),
                            StoredText(problem, PROBLEM_LIMIT, cut), now)
              else old(store.Tasks())
    {
      hide Store.Valid, Records, Redact, Truncate;
      var task := store.GetTask(taskID);
      if task.Err? || task.value.serverID != serverID {
        return false;
      }
      StoredUnderItsID(store, taskID);
      ResultIsReport(task.value, success, output, problem, cut, now);
      var update := (t: Task) => Ok(ResultOf(t, success, output, problem, cut, now));
      SameKeyStays(store, taskID, update(task.value).value);
      var _ := store.UpdateTask(taskID, update);
      return true;
    }

    /** After a start: running tasks go back to the queue, and every pending local
        task is woken up, in the order of creation. */
    method Restart(now: Instant) returns (woken: seq<string>)
      requires store.Valid()
      modifies store`rows, store`servers
      ensures store.Valid()
      ensures store.Tasks() == Recovered(old(store.Tasks()))
      ensures store.servers == old(store.servers)[LOCAL := Server(LOCAL, true, "", [], "", now)]
      ensures PendingInOrder(store.Tasks(), LOCAL, woken)
    {
      hide Store.Valid, Records, Recovered, PendingInOrder;
      store.RecoverRunningTasks();
      store.PutServer(Server(LOCAL, true, "", [], "", now));
      woken := store.ListPendingTaskIDs(LOCAL);
    }

    /** The insertion loop of a rollout. An id that the request repeats runs into the
        unique key: every known target gets exactly one task, in request order. */
    method InsertBatch(targets: seq<string>, b: Batch, newIDs: seq<string>)
      returns (created: seq<Task>, woken: seq<string>)
      requires store.Valid() && b.id != ""
      requires |newIDs| == |targets| && NoDuplicates(newIDs) && forall id <- newIDs :: id !in store.Tasks()
      requires forall id <- store.Tasks(), target <- targets :: store.Tasks()[id].key != b.id + "_" + target
      modifies store`rows
      ensures store.Valid()
      ensures (store.Tasks(), created) == Rolled(old(store.Tasks()), store.servers, b, targets, newIDs)
      ensures RolledOut(store.Tasks(), old(store.Tasks()), created, b, store.servers, targets, newIDs)
      ensures woken == LocalIDs(created)
    {
      hide Store.Valid, Records, RolledOut, KeyFree, Rolled;
      ghost var before := store.Tasks();
      RolloutStart(before, b, store.servers);
      created, woken := [], [];
      for i := 0 to |targets|
        invariant store.Valid()
        invariant RolledOut(store.Tasks(), before, created, b, store.servers, targets[..i], newIDs[..i])
        invariant (store.Tasks(), created) == Rolled(before, store.servers, b, targets[..i], newIDs[..i])
        invariant woken == LocalIDs(created)
      {
        assert targets[..i + 1] == targets[..i] + [targets[i]] && newIDs[..i + 1] == newIDs[..i] + [newIDs[i]];
        RolledStep(before, store.servers, b, targets, newIDs, i);
        RolloutStep(store.Tasks(), before, created, b, store.servers, targets[..i], newIDs[..i], targets[i], newIDs[i]);
        if targets[i] in store.servers {
          var task := BatchTask(b, store.servers, targets[i], newIDs[i]);
          var put := store.PutTask(task);
          if put.Ok? {
            created := created + [task];
            if targets[i] == LOCAL {
              woken := woken + [task.id];
            }
          }
        }
      }
      assert targets[..|targets|] == targets && newIDs[..|newIDs|] == newIDs;
    }
  }

  lemma RolloutStart(before: Tasks, b: Batch, servers: Rollout.Servers)
    ensures RolledOut(before, before, [], b, servers, [], []) && Rolled(before, servers, b, [], []) == (before, [])
  {
  }
}
