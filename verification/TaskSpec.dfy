/** What each store operation means, on records alone: no rows, no columns, no
    loops. `Store` proves its methods against these functions, and `Protocol`
    interleaves them. */
module TaskSpec {
  import opened Timestamps
  import opened Types

  // ---------- one record ----------

  function Started(t: Task, now: Instant): Task {
    t.(status := Running, started := Some(now))
  }

  function Requeued(t: Task): Task {
    t.(status := Pending, started := None, error := "controller restarted; task requeued")
  }

  const BATCH_STOPPED := "batch stopped after reaching failure threshold"

  function BatchStopped(t: Task, now: Instant): Task {
    t.(status := Failed, error := BATCH_STOPPED, finished := Some(now))
  }

  function CancelOf(t: Task, now: Instant): Result<Task> {
    match t.status
    case Pending => Ok(t.(status := Canceled, cancelRequested := true, finished := Some(now)))
    case Running => Ok(t.(cancelRequested := true))
    case _ => Err(AlreadyFinished)
  }

  /** The final record of an execution, for local workers and for Agents alike;
      `output` and `problem` are the texts after redaction and truncation. */
  function Reported(t: Task, success: bool, output: string, problem: string, now: Instant): Task {
    var done := t.(finished := Some(now), output := output, error := problem);
    if t.cancelRequested then
      done.(status := Canceled, error := if problem == "" then "task canceled" else problem)
    else
      done.(status := if success then Success else Failed)
  }

  predicate AwaitsVersion(t: Task, serverID: string, version: string) {
    && t.serverID == serverID
    && (t.status.Pending? || t.status.Running?)
    && t.action == AGENT_UPDATE
    && TextOf(t.args, "version") == version
  }

  function Confirmed(t: Task, version: string, now: Instant): Task {
    var done := t.(finished := Some(now), output := "Agent heartbeat confirmed version " + version);
    if t.cancelRequested then
      done.(status := Canceled, error := "task canceled after Agent update")
    else
      done.(status := Success, error := "")
  }

  predicate Retryable(t: Task) {
    t.status.Failed? || t.status.Canceled?
  }

  function RetryOf(original: Task, id: string, key: string, digest: string, now: Instant): Task {
    Task(id, original.serverID, original.action, original.args, Pending, "", "", now, None, None,
         key, "", digest, false, original.attempt + 1, original.id)
  }

  /** A queued task of the first attempt. */
  function NewTask(id: string, serverID: string, action: string, args: Args, key: string, batchID: string,
                   digest: string, now: Instant): Task {
    Task(id, serverID, action, args, Pending, "", "", now, None, None, key, batchID, digest, false, 0, "")
  }

  /** The state that a task for this server is written against: none for updates and
      for the local server. */
  function ExpectedDigest(server: Server, action: string): string {
    if action == AGENT_UPDATE || server.id == LOCAL then "" else server.digest
  }

  // ---------- the whole table ----------

  predicate Keyed(tasks: Tasks) {
    forall id <- tasks :: tasks[id].id == id
  }

  /** The partial unique index over non-empty idempotency keys. */
  predicate UniqueKeys(tasks: Tasks) {
    forall a <- tasks, b <- tasks :: tasks[a].key == tasks[b].key && tasks[a].key != "" ==> a == b
  }

  predicate KeyFree(tasks: Tasks, t: Task) {
    t.key != "" ==> forall id <- tasks :: tasks[id].key == t.key ==> id == t.id
  }

  function Put(tasks: Tasks, t: Task): Result<Tasks> {
    if KeyFree(tasks, t) then Ok(tasks[t.id := t]) else Err(KeyTaken)
  }

  function Recovered(tasks: Tasks): Tasks {
    map id <- tasks :: if tasks[id].status.Running? then Requeued(tasks[id]) else tasks[id]
  }

  function UpdatesConfirmed(tasks: Tasks, serverID: string, version: string, when: string -> Instant): Tasks {
    map id <- tasks ::
      if serverID != "" && version != "" && AwaitsVersion(tasks[id], serverID, version)
      then Confirmed(tasks[id], version, when(id)) else tasks[id]
  }

  /** What a confirmation does to one record, field by field: it closes the open update
      of that server to that version, and leaves every other record as it is. */
  lemma ConfirmationWrites(tasks: Tasks, serverID: string, version: string, when: string -> Instant, id: string)
    requires id in tasks
    ensures var t := tasks[id];
            UpdatesConfirmed(tasks, serverID, version, when)[id] ==
            if && serverID != "" && version != "" && t.serverID == serverID && t.action == "agent.update"
               && "version" in t.args && t.args["version"] == Text(version) && t.status in {Pending, Running}
            then t.(status := if t.cancelRequested then Canceled else Success, finished := Some(when(id)),
                    output := "Agent heartbeat confirmed version " + version,
                    error := if t.cancelRequested then "task canceled after Agent update" else "")
            else t
  {
  }

  /** The records of `ids` rewritten by `f`, all others kept. */
  function Rewritten(tasks: Tasks, ids: seq<string>, f: Task -> Task): Tasks {
    map id <- tasks :: if id in ids then f(tasks[id]) else tasks[id]
  }

  lemma RewrittenStart(tasks: Tasks, ids: seq<string>, f: Task -> Task)
    ensures Rewritten(tasks, ids[..0], f) == tasks
    ensures Rewritten(tasks, ids[..|ids|], f) == Rewritten(tasks, ids, f)
  {
  }

  lemma RewrittenStep(tasks: Tasks, ids: seq<string>, i: nat, f: Task -> Task)
    requires i < |ids| && ids[i] in tasks && ids[i] !in ids[..i]
    ensures Rewritten(tasks, ids[..i], f)[ids[i]] == tasks[ids[i]]
    ensures Rewritten(tasks, ids[..i + 1], f) == Rewritten(tasks, ids[..i], f)[ids[i] := f(tasks[ids[i]])]
  {
  }

  predicate PendingFor(t: Task, serverID: string) {
    t.serverID == serverID && t.status.Pending?
  }

  /** `order` lists the pending tasks of a server, each once. */
  predicate PendingListed(tasks: Tasks, serverID: string, order: seq<string>) {
    && (forall i, j :: 0 <= i < j < |order| ==> order[i] != order[j])
    && (forall id <- order :: id in tasks && PendingFor(tasks[id], serverID))
    && (forall id <- tasks :: PendingFor(tasks[id], serverID) ==> id in order)
  }

  /** ... by stored creation time. Equal stored times may come in any order, as in
      the query. */
  predicate PendingInOrder(tasks: Tasks, serverID: string, order: seq<string>) {
    && PendingListed(tasks, serverID, order)
    && (forall i, j :: 0 <= i < j < |order| ==>
          TextLeq(Stamp(tasks[order[i]].created), Stamp(tasks[order[j]].created)))
  }

  /** Of two pending tasks the older one is served first, except when both were
      created in one second and the older one's trimmed fraction is a proper prefix
      of the newer one's: then it is served second. */
  lemma ServedInCreationOrder(tasks: Tasks, serverID: string, order: seq<string>, i: nat, j: nat)
    requires PendingInOrder(tasks, serverID, order) && i < |order| && j < |order|
    requires Before(tasks[order[i]].created, tasks[order[j]].created)
    ensures var t, u := tasks[order[i]].created, tasks[order[j]].created;
            i < j <==> !(SameSecond(t, u) && ProperPrefix(Fraction(t), Fraction(u)))
  {
    hide Stamp, Fraction;
    var t, u := tasks[order[i]].created, tasks[order[j]].created;
    StampOrder(t, u);
    TextLessTotal(Stamp(t), Stamp(u));
  }

  // ---------- batches ----------

  function CompletedIn(tasks: Tasks, batchID: string): set<string> {
    set id <- tasks | tasks[id].batchID == batchID && tasks[id].status.Terminal()
  }

  function FailedIn(tasks: Tasks, batchID: string): set<string> {
    set id <- tasks | tasks[id].batchID == batchID && tasks[id].status.Failed?
  }

  /** The failure rate of `failed` in `completed`, in whole percent, has reached
      the threshold. */
  predicate RateReached(failed: nat, completed: nat, threshold: int) {
    completed > 0 && failed * 100 / completed >= threshold
  }

  /** The test that `ClaimPendingTask` makes before it hands out a task. */
  predicate Halted(tasks: Tasks, batchID: string, threshold: int) {
    && batchID != ""
    && threshold > 0
    && RateReached(|FailedIn(tasks, batchID)|, |CompletedIn(tasks, batchID)|, threshold)
  }

  /** How many of the candidates in `order` belong to halted batches, before the
      first one that does not. */
  function HaltedPrefix(tasks: Tasks, order: seq<string>, threshold: int): (k: nat)
    requires forall id <- order :: id in tasks
    ensures k <= |order|
    ensures forall i :: 0 <= i < k ==> Halted(tasks, tasks[order[i]].batchID, threshold)
    ensures k < |order| ==> !Halted(tasks, tasks[order[k]].batchID, threshold)
  {
    if order == [] || !Halted(tasks, tasks[order[0]].batchID, threshold) then 0
    else 1 + HaltedPrefix(tasks, order[1..], threshold)
  }

  /** The first `k` candidates are failed; nothing else changes. */
  function PrefixFailed(tasks: Tasks, order: seq<string>, k: nat, when: string -> Instant): Tasks
    requires k <= |order|
  {
    map id <- tasks :: if id in order[..k] then BatchStopped(tasks[id], when(id)) else tasks[id]
  }

  /** One poll, decided on one snapshot: every candidate before the first one
      whose batch is not halted is failed, that one is started. */
  function Polled(tasks: Tasks, order: seq<string>, threshold: int, when: string -> Instant): (r: (Tasks, Option<Task>))
    requires forall id <- order :: id in tasks
  {
    var k := HaltedPrefix(tasks, order, threshold);
    var failed := PrefixFailed(tasks, order, k, when);
    if k == |order| then (failed, None)
    else
      var claimed := Started(tasks[order[k]], when(order[k]));
      (failed[order[k] := claimed], Some(claimed))
  }

  /** How a poll goes on when the candidates before `i` were all halted. */
  lemma PolledAt(tasks: Tasks, order: seq<string>, threshold: int, when: string -> Instant, i: nat)
    requires forall id <- order :: id in tasks
    requires i <= HaltedPrefix(tasks, order, threshold)
    ensures PrefixFailed(tasks, order, 0, when) == tasks
    ensures forall j :: 0 <= j < i ==> Halted(tasks, tasks[order[j]].batchID, threshold)
    ensures i < |order| && Halted(tasks, tasks[order[i]].batchID, threshold) ==>
            i + 1 <= HaltedPrefix(tasks, order, threshold)
    ensures i < |order| && !Halted(tasks, tasks[order[i]].batchID, threshold) ==>
              var claimed := Started(tasks[order[i]], when(order[i]));
              Polled(tasks, order, threshold, when) ==
                (PrefixFailed(tasks, order, i, when)[order[i] := claimed], Some(claimed))
    ensures i == |order| ==> Polled(tasks, order, threshold, when) == (PrefixFailed(tasks, order, i, when), None)
  {
  }

  // ---------- batch arithmetic ----------

  lemma FailedWithinCompleted(tasks: Tasks, batchID: string)
    ensures FailedIn(tasks, batchID) <= CompletedIn(tasks, batchID)
    ensures |FailedIn(tasks, batchID)| <= |CompletedIn(tasks, batchID)|
  {
    SubsetSize(FailedIn(tasks, batchID), CompletedIn(tasks, batchID));
  }

  lemma SubsetSize<T>(a: set<T>, b: set<T>)
    requires a <= b
    ensures |a| <= |b|
  {
    assert b == a + (b - a);
  }

  /** One more failure never lowers the rate in whole percent. */
  lemma RateMonotone(failed: nat, completed: nat)
    requires failed <= completed && completed > 0
    ensures (failed + 1) * 100 / (completed + 1) >= failed * 100 / completed
  {
    var q := failed * 100 / completed;
    QuotientBounds(failed * 100, completed, q, 100);
    QuotientBounds((failed + 1) * 100, completed + 1, q, 101);
  }

  /** Euclid's division, as bounds on the quotient. */
  lemma QuotientBounds(n: nat, d: nat, low: nat, high: nat)
    requires d > 0
    ensures n / d * d <= n
    ensures low * d <= n ==> low <= n / d
    ensures n <= high * d ==> n / d <= high
  {
    var q := n / d;
    assert n == q * d + n % d;
    if low > q {
      Times(q + 1, low, d);
    }
    if high < q {
      Times(high + 1, q, d);
    }
  }

  lemma Times(a: nat, b: nat, c: nat)
    requires a <= b
    ensures a * c <= b * c
  {
  }

  /** `BatchShouldStop` gives up on thresholds above 100 and the poll does not;
      no rate exceeds 100 percent, so the two tests always agree. */
  lemma ThresholdTestsAgree(tasks: Tasks, batchID: string, threshold: int)
    ensures Halted(tasks, batchID, threshold) <==>
            !(batchID == "" || threshold <= 0 || threshold > 100)
            && RateReached(|FailedIn(tasks, batchID)|, |CompletedIn(tasks, batchID)|, threshold)
  {
    FailedWithinCompleted(tasks, batchID);
    var failed, completed := |FailedIn(tasks, batchID)|, |CompletedIn(tasks, batchID)|;
    if completed > 0 {
      QuotientBounds(failed * 100, completed, 0, 100);
    }
  }

  lemma VerdictKept(failed: nat, completed: nat, threshold: int)
    requires failed <= completed && RateReached(failed, completed, threshold)
    ensures RateReached(failed + 1, completed + 1, threshold)
  {
    RateMonotone(failed, completed);
  }

  /** Replacing a pending record by one that is finished moves it into its
      batch's counts, and touches no other batch. */
  lemma CountsAfterFinish(tasks: Tasks, id: string, t: Task, b: string)
    requires id in tasks && !tasks[id].status.Terminal()
    requires t.status.Terminal() && t.batchID == tasks[id].batchID
    ensures b == t.batchID ==>
              && |CompletedIn(tasks[id := t], b)| == |CompletedIn(tasks, b)| + 1
              && |FailedIn(tasks[id := t], b)| == |FailedIn(tasks, b)| + if t.status.Failed? then 1 else 0
    ensures b != t.batchID ==>
              && CompletedIn(tasks[id := t], b) == CompletedIn(tasks, b)
              && FailedIn(tasks[id := t], b) == FailedIn(tasks, b)
  {
    if b == t.batchID {
      assert CompletedIn(tasks[id := t], b) == CompletedIn(tasks, b) + {id};
      assert FailedIn(tasks[id := t], b) == FailedIn(tasks, b) + if t.status.Failed? then {id} else {};
    }
  }

  /** Failing a pending task of a halted batch changes no batch's verdict. */
  lemma FailingKeepsVerdicts(tasks: Tasks, id: string, now: Instant, threshold: int, b: string)
    requires id in tasks && tasks[id].status.Pending?
    requires Halted(tasks, tasks[id].batchID, threshold)
    ensures Halted(tasks[id := BatchStopped(tasks[id], now)], b, threshold) <==> Halted(tasks, b, threshold)
  {
    CountsAfterFinish(tasks, id, BatchStopped(tasks[id], now), b);
    if b == tasks[id].batchID {
      FailedWithinCompleted(tasks, b);
      VerdictKept(|FailedIn(tasks, b)|, |CompletedIn(tasks, b)|, threshold);
    }
  }

  /** Recounting after each failed candidate gives the verdict of the snapshot. */
  lemma {:induction false} SnapshotVerdicts(tasks: Tasks, order: seq<string>, k: nat, threshold: int,
                                            when: string -> Instant, b: string)
    requires k <= |order|
    requires forall i, j :: 0 <= i < j < |order| ==> order[i] != order[j]
    requires forall id <- order :: id in tasks && tasks[id].status.Pending?
    requires forall i :: 0 <= i < k ==> Halted(tasks, tasks[order[i]].batchID, threshold)
    ensures Halted(PrefixFailed(tasks, order, k, when), b, threshold) <==> Halted(tasks, b, threshold)
  {
    if k == 0 {
      assert PrefixFailed(tasks, order, k, when) == tasks;
    } else {
      var id := order[k - 1];
      var before := PrefixFailed(tasks, order, k - 1, when);
      SnapshotVerdicts(tasks, order, k - 1, threshold, when, tasks[id].batchID);
      SnapshotVerdicts(tasks, order, k - 1, threshold, when, b);
      PrefixFailedStep(tasks, order, k - 1, when);
      FailingKeepsVerdicts(before, id, when(id), threshold, b);
    }
  }

  lemma PrefixFailedStep(tasks: Tasks, order: seq<string>, k: nat, when: string -> Instant)
    requires k < |order|
    requires forall i, j :: 0 <= i < j < |order| ==> order[i] != order[j]
    requires order[k] in tasks
    ensures var id := order[k]; var before := PrefixFailed(tasks, order, k, when);
            && before[id] == tasks[id]
            && PrefixFailed(tasks, order, k + 1, when) == before[id := BatchStopped(before[id], when(id))]
  {
  }

  /** One round of the polling loop, on the table as the earlier rounds left it. */
  lemma PollRound(tasks: Tasks, order: seq<string>, i: nat, threshold: int, when: string -> Instant)
    requires forall i, j :: 0 <= i < j < |order| ==> order[i] != order[j]
    requires forall id <- order :: id in tasks && tasks[id].status.Pending?
    requires i < |order| && i <= HaltedPrefix(tasks, order, threshold)
    ensures var id := order[i]; var t := tasks[id]; var table := PrefixFailed(tasks, order, i, when);
            && table[id] == t
            && (Halted(table, t.batchID, threshold) ==>
                  && i + 1 <= HaltedPrefix(tasks, order, threshold)
                  && PrefixFailed(tasks, order, i + 1, when) == table[id := BatchStopped(t, when(id))])
            && (!Halted(table, t.batchID, threshold) ==>
                  Polled(tasks, order, threshold, when) ==
                    (table[id := Started(t, when(id))], Some(Started(t, when(id)))))
  {
    PolledAt(tasks, order, threshold, when, i);
    SnapshotVerdicts(tasks, order, i, threshold, when, tasks[order[i]].batchID);
    PrefixFailedStep(tasks, order, i, when);
  }
}
