/** The store: rows with indexed columns beside the encoded record, changed by
    transactions. Every method is one transaction; the local variable `tx` is the
    table as the transaction sees it, and assigning it to `rows` is the commit.
    The record column is taken as decoded: the codec round-trips. */
module Storage {
  import opened Timestamps
  import opened Types
  import opened TaskSpec
  import Enrollment

  datatype Row = Row(serverID: string, status: Status, batchID: string, key: string, created: string, data: Task)

  type Rows = map<string, Row>

  datatype EnrollmentRow = EnrollmentRow(used: bool, data: EnrollmentToken)

  /** The columns that are written with a record. */
  function RowOf(t: Task): Row {
    Row(t.serverID, t.status, t.batchID, t.key, Stamp(t.created), t)
  }

  /** Every column holds the projection of the record beside it. */
  ghost predicate Agreed(rows: Rows) {
    forall id <- rows :: rows[id] == RowOf(rows[id].data) && rows[id].data.id == id
  }

  ghost function Records(rows: Rows): Tasks {
    map id <- rows :: rows[id].data
  }

  predicate KeyColumnFree(rows: Rows, t: Task) {
    t.key != "" ==> forall id <- rows :: rows[id].key == t.key ==> id == t.id
  }

  /** Insert, or update on a conflicting id; the unique index over the key column
      refuses a key that another row holds. */
  function Upsert(rows: Rows, t: Task): Result<Rows> {
    if KeyColumnFree(rows, t) then Ok(rows[t.id := RowOf(t)]) else Err(KeyTaken)
  }

  lemma UpsertIsPut(rows: Rows, t: Task)
    requires Agreed(rows)
    ensures KeyColumnFree(rows, t) <==> KeyFree(Records(rows), t)
    ensures Agreed(rows[t.id := RowOf(t)])
    ensures Records(rows[t.id := RowOf(t)]) == Records(rows)[t.id := t]
  {
    hide Stamp;
    assert forall id <- rows :: Records(rows)[id].key == rows[id].key;
  }

  lemma RecordOf(rows: Rows, id: string)
    requires Agreed(rows) && id in rows
    ensures rows[id].data.id == id && rows[id].key == rows[id].data.key
    ensures Records(rows)[id] == rows[id].data
  {
    hide Stamp;
  }

  lemma RecordsOf(rows: Rows, ids: seq<string>)
    requires Agreed(rows) && forall id <- ids :: id in rows
    ensures forall id <- ids :: id in Records(rows) && Records(rows)[id] == rows[id].data && rows[id].data.id == id
  {
  }

  lemma PutKeepsUniqueKeys(tasks: Tasks, t: Task)
    requires Keyed(tasks) && UniqueKeys(tasks) && KeyFree(tasks, t)
    ensures Keyed(tasks[t.id := t]) && UniqueKeys(tasks[t.id := t])
  {
  }

  /** A record can always be replaced by one with the same id and key. */
  lemma SameKeyFits(tasks: Tasks, t: Task)
    requires UniqueKeys(tasks) && t.id in tasks && tasks[t.id].key == t.key
    ensures KeyFree(tasks, t)
  {
  }

  predicate NoDuplicates(ids: seq<string>) {
    forall i, j :: 0 <= i < j < |ids| ==> ids[i] != ids[j]
  }

  /** `ids` names exactly the rows that satisfy `where`, each once. */
  ghost predicate Selects(rows: Rows, where: Row -> bool, ids: seq<string>) {
    && NoDuplicates(ids)
    && (forall id <- ids :: id in rows && where(rows[id]))
    && (forall id <- rows :: where(rows[id]) ==> id in ids)
  }

  /** A query without ORDER BY: the cursor meets the rows in any order. */
  method Select(rows: Rows, where: Row -> bool) returns (ids: seq<string>)
    ensures Selects(rows, where, ids)
  {
    ids := [];
    var left := set id <- rows | where(rows[id]);
    while left != {}
      invariant NoDuplicates(ids)
      invariant forall id <- left :: id in rows && where(rows[id])
      invariant forall i :: 0 <= i < |ids| ==> ids[i] in rows && where(rows[ids[i]]) && ids[i] !in left
      invariant forall id <- rows :: where(rows[id]) ==> id in ids || id in left
      decreases |left|
    {
      var id :| id in left;
      ids, left := ids + [id], left - {id};
    }
  }

  ghost predicate ByCreated(rows: Rows, ids: seq<string>)
    requires forall id <- ids :: id in rows
  {
    forall i, j :: 0 <= i < j < |ids| ==> TextLeq(rows[ids[i]].created, rows[ids[j]].created)
  }

  lemma LeastCreated(rows: Rows, ids: set<string>) returns (least: string)
    requires ids != {} && forall id <- ids :: id in rows
    ensures least in ids && forall id <- ids :: TextLeq(rows[least].created, rows[id].created)
  {
    var x :| x in ids;
    if ids == {x} {
      return x;
    }
    var l := LeastCreated(rows, ids - {x});
    TextLessTotal(rows[x].created, rows[l].created);
    if TextLeq(rows[l].created, rows[x].created) {
      return l;
    }
    forall id <- ids
      ensures TextLeq(rows[x].created, rows[id].created)
    {
      if id != x && rows[l].created != rows[id].created {
        TextLessTransitive(rows[x].created, rows[l].created, rows[id].created);
      }
    }
    return x;
  }

  /** The same query with ORDER BY created_at; equal texts come in any order. */
  method SelectByCreated(rows: Rows, where: Row -> bool) returns (ids: seq<string>)
    ensures Selects(rows, where, ids) && ByCreated(rows, ids)
  {
    hide TextLess;
    ids := [];
    var left := set id <- rows | where(rows[id]);
    while left != {}
      invariant NoDuplicates(ids)
      invariant forall id <- left :: id in rows && where(rows[id])
      invariant forall i :: 0 <= i < |ids| ==> ids[i] in rows && where(rows[ids[i]]) && ids[i] !in left
      invariant forall id <- rows :: where(rows[id]) ==> id in ids || id in left
      invariant forall id <- ids, next <- left :: TextLeq(rows[id].created, rows[next].created)
      invariant ByCreated(rows, ids)
      decreases |left|
    {
      ghost var least := LeastCreated(rows, left);
      var id :| id in left && forall other <- left :: TextLeq(rows[id].created, rows[other].created);
      ids, left := ids + [id], left - {id};
    }
  }

  /** An ordered query over the pending column lists the pending records in order. */
  lemma PendingQuery(rows: Rows, serverID: string, ids: seq<string>)
    requires Agreed(rows)
    requires Selects(rows, (r: Row) => r.serverID == serverID && r.status == Pending, ids) && ByCreated(rows, ids)
    ensures PendingInOrder(Records(rows), serverID, ids)
  {
    hide Stamp, TextLess, Agreed;
    ColumnsProject(rows);
  }

  /** Rewriting the rows that the status column finds is recovery. */
  lemma RunningQuery(rows: Rows, ids: seq<string>)
    requires Agreed(rows) && Selects(rows, (r: Row) => r.status == Running, ids)
    ensures Rewritten(Records(rows), ids, Requeued) == Recovered(Records(rows))
  {
    hide Stamp, Agreed;
    ColumnsProject(rows);
  }

  lemma ColumnsProject(rows: Rows)
    requires Agreed(rows)
    ensures forall id <- rows ::
              && rows[id].serverID == Records(rows)[id].serverID
              && rows[id].status == Records(rows)[id].status
              && rows[id].batchID == Records(rows)[id].batchID
              && rows[id].key == Records(rows)[id].key
              && rows[id].created == Stamp(Records(rows)[id].created)
  {
  }

  /** `putTask` inside a transaction, for a record that keeps its id and key. */
  method Replace(tx: Rows, t: Task) returns (next: Rows)
    requires Agreed(tx) && UniqueKeys(Records(tx))
    requires t.id in tx && tx[t.id].key == t.key
    ensures Agreed(next) && UniqueKeys(Records(next))
    ensures next.Keys == tx.Keys && Records(next) == Records(tx)[t.id := t]
  {
    hide Stamp;
    SameKeyFits(Records(tx), t);
    UpsertIsPut(tx, t);
    PutKeepsUniqueKeys(Records(tx), t);
    next := Upsert(tx, t).value;
  }

  class Store {
    var rows: Rows
    var servers: map<string, Server>
    var enrollments: map<string, EnrollmentRow>

    /** Index agreement, the unique key index, the `used` column of enrollments, and
        servers under their ids. */
    ghost predicate Valid()
      reads this
    {
      && Agreed(rows)
      && UniqueKeys(Records(rows))
      && (forall hash <- enrollments :: enrollments[hash].used == enrollments[hash].data.used)
      && (forall id <- servers :: servers[id].id == id)
    }

    ghost function Tasks(): Tasks
      reads this
    {
      Records(rows)
    }

    ghost function Tokens(): map<string, EnrollmentToken>
      reads this
    {
      map hash <- enrollments :: enrollments[hash].data
    }

    constructor ()
      ensures Valid() && Tasks() == map[] && servers == map[] && enrollments == map[]
    {
      rows, servers, enrollments := map[], map[], map[];
    }

    method PutTask(t: Task) returns (r: Result<Task>)
      requires Valid()
      modifies this`rows
      ensures Valid()
      ensures r == if KeyFree(old(Tasks()), t) then Ok(t) else Err(KeyTaken)
      ensures Tasks() == if r.Ok? then old(Tasks())[t.id := t] else old(Tasks())
    {
      hide Stamp;
      UpsertIsPut(rows, t);
      var put := Upsert(rows, t);
      if put.Err? {
        return Err(put.error);
      }
      PutKeepsUniqueKeys(Records(rows), t);
      rows := put.value;
      return Ok(t);
    }

    /** The column query and the record scan find the same tasks. */
    method ListPendingTaskIDs(serverID: string) returns (ids: seq<string>)
      requires Valid()
      ensures PendingInOrder(Tasks(), serverID, ids)
    {
      ids := SelectByCreated(rows, (r: Row) => r.serverID == serverID && r.status == Pending);
      PendingQuery(rows, serverID, ids);
    }

    method GetTask(id: string) returns (r: Result<Task>)
      requires Valid()
      ensures r == if id in Tasks() then Ok(Tasks()[id]) else Err(NotFound)
    {
      hide Stamp;
      if id !in rows {
        return Err(NotFound);
      }
      return Ok(rows[id].data);
    }

    /** The key column finds the one record that carries the key. */
    method FindTaskByIdempotency(key: string) returns (r: Result<Task>)
      requires Valid()
      ensures r.Ok? ==> key != "" && r.value.key == key && r.value.id in Tasks() && Tasks()[r.value.id] == r.value
      ensures r.Ok? ==> forall id <- Tasks() :: Tasks()[id].key == key ==> id == r.value.id
      ensures r.Err? ==> r.error == NotFound && (key == "" || forall id <- Tasks() :: Tasks()[id].key != key)
    {
      hide Stamp;
      if key == "" {
        return Err(NotFound);
      }
      assert forall id <- rows :: Records(rows)[id].key == rows[id].key;
      if id :| id in rows && rows[id].key == key {
        return Ok(rows[id].data);
      }
      return Err(NotFound);
    }

    method ClaimTask(id: string, now: Instant) returns (r: Result<Task>)
      requires Valid()
      modifies this`rows
      ensures Valid()
      ensures r.Ok? <==> id in old(Tasks()) && old(Tasks())[id].status.Pending? && !old(Tasks())[id].cancelRequested
      ensures r.Ok? ==> r.value == Started(old(Tasks())[id], now) && Tasks() == old(Tasks())[id := r.value]
      ensures r.Err? ==> r.error == NotFound && Tasks() == old(Tasks())
    {
      hide Stamp;
      if id !in rows {
        return Err(NotFound);
      }
      var task := rows[id].data;
      if task.status != Pending || task.cancelRequested {
        return Err(NotFound);
      }
      task := Started(task, now);
      rows := Replace(rows, task);
      return Ok(task);
    }

    /** Every running task goes back to the queue in one transaction; no other
        record changes. */
    method RecoverRunningTasks()
      requires Valid()
      modifies this`rows
      ensures Valid()
      ensures Tasks() == Recovered(old(Tasks()))
    {
      hide Stamp;
      var running := Select(rows, (r: Row) => r.status == Running);
      var tx := RequeueEach(rows, running);
      RunningQuery(rows, running);
      rows := tx;
    }

    static method RequeueEach(table: Rows, running: seq<string>) returns (tx: Rows)
      requires Agreed(table) && UniqueKeys(Records(table))
      requires NoDuplicates(running) && forall id <- running :: id in table
      ensures Agreed(tx) && UniqueKeys(Records(tx))
      ensures Records(tx) == Rewritten(Records(table), running, Requeued)
    {
      hide Stamp, Agreed, UniqueKeys, Records;
      RecordsOf(table, running);
      RewrittenStart(Records(table), running, Requeued);
      tx := table;
      for i := 0 to |running|
        invariant tx.Keys == table.Keys && Agreed(tx) && UniqueKeys(Records(tx))
        invariant Records(tx) == Rewritten(Records(table), running[..i], Requeued)
      {
        RewrittenStep(Records(table), running, i, Requeued);
        RecordOf(tx, running[i]);
        tx := Replace(tx, Requeued(table[running[i]].data));
      }
    }

    /** The read-modify-write transaction behind `finishTask` and the Agent's
        result. */
    method UpdateTask(id: string, update: Task -> Result<Task>) returns (r: Result<Task>)
      requires Valid()
      modifies this`rows
      ensures Valid()
      ensures id !in old(Tasks()) ==> r == Err(NotFound)
      ensures id in old(Tasks()) ==>
                var u := update(old(Tasks())[id]);
                r == if u.Ok? && !KeyFree(old(Tasks()), u.value) then Err(KeyTaken) else u
      ensures Tasks() == if r.Ok? then old(Tasks())[r.value.id := r.value] else old(Tasks())
    {
      hide Stamp;
      if id !in rows {
        return Err(NotFound);
      }
      var u := update(rows[id].data);
      if u.Err? {
        return u;
      }
      r := PutTask(u.value);
    }

    method FinishTask(id: string, success: bool, output: string, problem: string, now: Instant)
      returns (r: Result<Task>)
      requires Valid()
      modifies this`rows
      ensures Valid()
      ensures r == if id in old(Tasks()) then
                     Ok(Reported(old(Tasks())[id], success, output, problem, now))
                   else Err(NotFound)
      ensures Tasks() == if r.Ok? then old(Tasks())[id := r.value] else old(Tasks())
    {
      hide Stamp;
      if id in rows {
        SameKeyFits(Tasks(), Reported(Tasks()[id], success, output, problem, now));
      }
      r := UpdateTask(id, (t: Task) => Ok(Reported(t, success, output, problem, now)));
    }

    method CancelTask(id: string, now: Instant) returns (r: Result<Task>)
      requires Valid()
      modifies this`rows
      ensures Valid()
      ensures r == if id in old(Tasks()) then CancelOf(old(Tasks())[id], now) else Err(NotFound)
      ensures Tasks() == if r.Ok? then old(Tasks())[id := r.value] else old(Tasks())
    {
      hide Stamp;
      if id !in rows {
        return Err(NotFound);
      }
      var task := rows[id].data;
      match task.status {
        case Pending =>
          task := task.(status := Canceled, cancelRequested := true, finished := Some(now));
        case Running =>
          task := task.(cancelRequested := true);
        case _ =>
          return Err(AlreadyFinished);
      }
      rows := Replace(rows, task);
      return Ok(task);
    }

    /** Three separate store operations; `newID` is the generated identifier. A
        key in use returns its task; otherwise one pending copy is added. */
    method CloneTask(id: string, key: string, digest: string, newID: string, now: Instant) returns (r: Result<Task>)
      requires Valid()
      requires newID !in Tasks()
      modifies this`rows
      ensures Valid()
      ensures id !in old(Tasks()) ==> r == Err(NotFound)
      ensures id in old(Tasks()) && !Retryable(old(Tasks())[id]) ==> r == Err(NotRetryable)
      ensures id in old(Tasks()) && Retryable(old(Tasks())[id]) && key == "" ==> r == Err(KeyRequired)
      ensures id in old(Tasks()) && Retryable(old(Tasks())[id]) && key != "" ==> r.Ok? && r.value.key == key
      ensures r.Ok? ==>
              (r.value.id !in old(Tasks()) <==> forall other <- old(Tasks()) :: old(Tasks())[other].key != key)
      ensures r.Ok? && r.value.id in old(Tasks()) ==> r.value == old(Tasks())[r.value.id] && Tasks() == old(Tasks())
      ensures r.Ok? && r.value.id !in old(Tasks()) ==>
                var t := old(Tasks())[id];
                && r.value == Task(newID, t.serverID, t.action, t.args, Pending, "", "", now, None, None,
                                   key, "", digest, false, t.attempt + 1, id)
                && Tasks() == old(Tasks())[newID := r.value]
      ensures r.Err? ==> Tasks() == old(Tasks())
    {
      hide Stamp;
      var original := GetTask(id);
      if original.Err? {
        return original;
      }
      if original.value.status != Failed && original.value.status != Canceled {
        return Err(NotRetryable);
      }
      if key == "" {
        return Err(KeyRequired);
      }
      var existing := FindTaskByIdempotency(key);
      if existing.Ok? {
        return existing;
      }
      r := PutTask(RetryOf(original.value, newID, key, digest, now));
    }

    method BatchShouldStop(batchID: string, threshold: int) returns (stop: bool)
      requires Valid()
      ensures stop <==> Halted(Tasks(), batchID, threshold)
    {
      hide Stamp;
      ThresholdTestsAgree(Tasks(), batchID, threshold);
      if batchID == "" || threshold <= 0 || threshold > 100 {
        return false;
      }
      var failed, completed := BatchCounts(rows, batchID);
      return completed > 0 && failed * 100 / completed >= threshold;
    }

    /** The two SUMs over the batch and status columns. */
    static method BatchCounts(rows: Rows, batchID: string) returns (failed: nat, completed: nat)
      requires Agreed(rows)
      ensures failed == |FailedIn(Records(rows), batchID)|
      ensures completed == |CompletedIn(Records(rows), batchID)|
    {
      hide Stamp;
      var completedIDs :=
        set id <- rows | rows[id].batchID == batchID && rows[id].status in {Success, Failed, Canceled};
      var failedIDs := set id <- rows | rows[id].batchID == batchID && rows[id].status == Failed;
      assert completedIDs == CompletedIn(Records(rows), batchID);
      assert failedIDs == FailedIn(Records(rows), batchID);
      failed, completed := |failedIDs|, |completedIDs|;
    }

    /** The loop recounts the batch after every row it fails, and still decides as
        if on one snapshot. */
    static method ServeFirst(table: Rows, candidates: seq<string>, threshold: int, when: string -> Instant)
      returns (tx: Rows, r: Option<Task>)
      requires Agreed(table) && UniqueKeys(Records(table)) && NoDuplicates(candidates)
      requires forall id <- candidates :: id in table && table[id].data.status.Pending?
      ensures Agreed(tx) && UniqueKeys(Records(tx))
      ensures Records(tx) == Polled(Records(table), candidates, threshold, when).0
      ensures r == Polled(Records(table), candidates, threshold, when).1
    {
      hide Stamp, Agreed, UniqueKeys, Records, Halted, HaltedPrefix, PrefixFailed, Polled, BatchStopped, Started;
      ghost var tasks := Records(table);
      RecordsOf(table, candidates);
      PolledAt(tasks, candidates, threshold, when, 0);
      tx := table;
      for i := 0 to |candidates|
        invariant tx.Keys == table.Keys && Agreed(tx) && UniqueKeys(Records(tx))
        invariant i <= HaltedPrefix(tasks, candidates, threshold)
        invariant Records(tx) == PrefixFailed(tasks, candidates, i, when)
      {
        PollRound(tasks, candidates, i, threshold, when);
        tx, r := ServeOne(tx, table[candidates[i]].data, threshold, when(candidates[i]));
        if r.Some? {
          return;
        }
      }
      PolledAt(tasks, candidates, threshold, when, |candidates|);
      r := None;
    }

    /** One round of the loop: fail the candidate with its batch, or start it. */
    static method ServeOne(table: Rows, task: Task, threshold: int, now: Instant)
      returns (tx: Rows, claimed: Option<Task>)
      requires Agreed(table) && UniqueKeys(Records(table))
      requires task.id in table && Records(table)[task.id] == task
      ensures Agreed(tx) && UniqueKeys(Records(tx))
      ensures var halted := Halted(Records(table), task.batchID, threshold);
              var next := if halted then BatchStopped(task, now) else Started(task, now);
              tx.Keys == table.Keys && Records(tx) == Records(table)[task.id := next]
              && claimed == if halted then None else Some(next)
    {
      hide Stamp, Halted;
      var stop := MustStop(table, task.batchID, threshold);
      if stop {
        tx := Replace(table, BatchStopped(task, now));
        claimed := None;
      } else {
        var started := Started(task, now);
        tx := Replace(table, started);
        claimed := Some(started);
      }
    }

    /** The inline test of the loop, on the table as it is by then. */
    static method MustStop(tx: Rows, batchID: string, threshold: int) returns (stop: bool)
      requires Agreed(tx)
      ensures stop <==> Halted(Records(tx), batchID, threshold)
    {
      stop := false;
      if batchID != "" && threshold > 0 {
        var failed, completed := BatchCounts(tx, batchID);
        stop := completed > 0 && failed * 100 / completed >= threshold;
      }
    }

    /** `order` is the order in which the query met the pending rows. */
    method ClaimPendingTask(serverID: string, threshold: int, when: string -> Instant)
      returns (r: Result<Task>, ghost order: seq<string>)
      requires Valid()
      modifies this`rows
      ensures Valid()
      ensures PendingInOrder(old(Tasks()), serverID, order)
      ensures Tasks() == Polled(old(Tasks()), order, threshold, when).0
      ensures r == match Polled(old(Tasks()), order, threshold, when).1 case Some(t) => Ok(t) case None => Err(NotFound)
    {
      hide Stamp;
      var candidates := SelectByCreated(rows, (r: Row) => r.serverID == serverID && r.status == Pending);
      PendingQuery(rows, serverID, candidates);
      order := candidates;
      var tx, claimed := ServeFirst(rows, candidates, threshold, when);
      rows := tx;
      r := if claimed.Some? then Ok(claimed.value) else Err(NotFound);
    }

    /** One transaction closes every pending or running update of a server to the
        version it now reports; `ConfirmationWrites` says what that does to a record. */
    method ConfirmAgentUpdate(serverID: string, version: string, when: string -> Instant)
      requires Valid()
      modifies this`rows
      ensures Valid()
      ensures Tasks() == UpdatesConfirmed(old(Tasks()), serverID, version, when)
    {
      hide Stamp;
      if serverID == "" || version == "" {
        assert Tasks() == UpdatesConfirmed(Tasks(), serverID, version, when);
        return;
      }
      var open := Select(rows, (r: Row) => r.serverID == serverID && (r.status == Pending || r.status == Running));
      var updates := FilterUpdates(rows, open, serverID, version);
      var tx := ConfirmEach(rows, updates, version, when);
      rows := tx;
    }

    /** The cursor keeps the updates to the version among the open tasks. */
    static method FilterUpdates(table: Rows, open: seq<string>, serverID: string, version: string)
      returns (updates: seq<string>)
      requires Agreed(table)
      requires Selects(table, (r: Row) => r.serverID == serverID && (r.status == Pending || r.status == Running), open)
      ensures NoDuplicates(updates)
      ensures forall id :: id in updates <==> id in table && AwaitsVersion(table[id].data, serverID, version)
    {
      hide Stamp;
      updates := [];
      for i := 0 to |open|
        invariant NoDuplicates(updates)
        invariant forall id :: id in updates <==> id in open[..i] && AwaitsVersion(table[id].data, serverID, version)
      {
        var task := table[open[i]].data;
        if task.action == AGENT_UPDATE && TextOf(task.args, "version") == version {
          updates := updates + [task.id];
        }
        assert open[..i + 1] == open[..i] + [open[i]];
      }
      assert open[..|open|] == open;
    }

    static method ConfirmEach(table: Rows, updates: seq<string>, version: string, when: string -> Instant)
      returns (tx: Rows)
      requires Agreed(table) && UniqueKeys(Records(table)) && NoDuplicates(updates)
      requires forall id <- updates :: id in table
      ensures Agreed(tx) && UniqueKeys(Records(tx))
      ensures Records(tx) == map id <- Records(table) ::
                if id in updates then Confirmed(Records(table)[id], version, when(id)) else Records(table)[id]
    {
      hide Stamp, Agreed, UniqueKeys, Records;
      ghost var confirm := (t: Task) => Confirmed(t, version, when(t.id));
      RecordsOf(table, updates);
      RewrittenStart(Records(table), updates, confirm);
      tx := table;
      for i := 0 to |updates|
        invariant tx.Keys == table.Keys && Agreed(tx) && UniqueKeys(Records(tx))
        invariant Records(tx) == Rewritten(Records(table), updates[..i], confirm)
      {
        RewrittenStep(Records(table), updates, i, confirm);
        RecordOf(tx, updates[i]);
        var task := Completed(table[updates[i]].data, version, when(updates[i]));
        tx := Replace(tx, task);
      }
    }

    /** The assignments of the confirming loop, one by one. */
    static method Completed(t: Task, version: string, now: Instant) returns (task: Task)
      ensures task == Confirmed(t, version, now)
    {
      task := t.(finished := Some(now), error := "", output := "Agent heartbeat confirmed version " + version);
      if task.cancelRequested {
        task := task.(status := Canceled, error := "task canceled after Agent update");
      } else {
        task := task.(status := Success);
      }
    }

    // ---------- servers and enrollments ----------

    method PutServer(server: Server)
      requires Valid()
      modifies this`servers
      ensures Valid()
      ensures servers == old(servers)[server.id := server]
    {
      servers := servers[server.id := server];
    }

    method DeleteServer(id: string)
      requires Valid()
      modifies this`servers
      ensures Valid()
      ensures servers == old(servers) - {id}
    {
      servers := servers - {id};
    }

    method PutEnrollment(hash: string, token: EnrollmentToken)
      requires Valid()
      modifies this`enrollments
      ensures Valid()
      ensures enrollments == old(enrollments)[hash := EnrollmentRow(token.used, token)]
    {
      enrollments := enrollments[hash := EnrollmentRow(token.used, token)];
    }

    /** All or nothing: the token is spent and the server inserted, or neither.
        The guarded UPDATE matches on the `used` column without looking at how
        many rows it hit; it hits its row because the column agrees. */
    method ConsumeEnrollment(hash: string, server: Server, now: Instant) returns (r: Result<()>)
      requires Valid()
      modifies this`enrollments, this`servers
      ensures Valid()
      ensures var was := Enrollment.Consume(old(Tokens()), old(servers), hash, server, now);
              && (r.Ok? <==> was.Ok?)
              && (was.Ok? ==> Tokens() == was.value.tokens && servers == was.value.servers)
              && (was.Err? ==> r == Err(was.error))
      ensures r.Err? ==> servers == old(servers) && enrollments == old(enrollments)
    {
      hide Stamp, Before, Agreed, UniqueKeys;
      if hash !in enrollments {
        return Err(NotFound);
      }
      var token := enrollments[hash].data;
      if token.used || Before(token.expires, now) {
        return Err(TokenSpent);
      }
      token := token.(used := true);
      var tx := map h <- enrollments ::
        if h == hash && !enrollments[h].used then EnrollmentRow(true, token) else enrollments[h];
      if server.id in servers {
        return Err(ServerExists);
      }
      enrollments, servers := tx, servers[server.id := server];
      return Ok(());
    }
  }
}
