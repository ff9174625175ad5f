/** Optimistic concurrency from end to end: the state that a request saw at its server is
    the state that its task expects, and the only one on which the Agent runs it. */
module Expectations {
  import opened Timestamps
  import opened Types
  import opened TaskSpec
  import opened Protocol
  import opened Evolution
  import opened Invariants
  import opened Theorems
  import Rollout

  // ---------- what the controller knows of a server ----------

  /** A heartbeat that gets through stores the state that the Agent's server was in when
      it was sent. */
  lemma HeardStateIsStored(c: Config, s: State, serverID: string, features: seq<string>, h: nat, now: Instant)
    requires serverID in s.agents && s.agents[serverID].phase.Idle? && serverID in s.servers && h !in s.handlers
    requires s.servers[serverID].id == serverID
    ensures var a := s.agents[serverID];
            var t := Run(c, s,
                         [ByBeat(SendBeat(serverID, features)), ByBeat(VerifyBeat(h, |s.beats|)),
                          ByBeat(StoreBeat(h, now))]);
            t.servers == s.servers[serverID := Server(serverID, true, a.version, features,
                                                      if a.digest.Some? then a.digest.value else "", now)]
  {
    RunThree(c, s, ByBeat(SendBeat(serverID, features)), ByBeat(VerifyBeat(h, |s.beats|)), ByBeat(StoreBeat(h, now)));
    hide Run;
    var sent := DoSendBeat(s, serverID, features);
    assert sent.servers == s.servers && sent.handlers == s.handlers && |sent.beats| == |s.beats| + 1;
    var b := sent.beats[|s.beats|];
    assert b.serverID == serverID && b.version == s.agents[serverID].version && b.features == features;
    hide DoSendBeat;
  }

  // ---------- requests that draft a task ----------

  predicate Drafts(e: RequestEvent) {
    e.StartEnqueue? || e.StartBatch? || e.StartRetry?
  }

  /** The server and the action that a request is about. */
  function About(s: State, e: RequestEvent): (string, string)
    requires Drafts(e)
  {
    match e
    case StartEnqueue(_, serverID, action, _, _) => (serverID, action)
    case StartBatch(_, _, serverID, action, _) => (serverID, action)
    case StartRetry(_, id, _) => if id in s.tasks then (s.tasks[id].serverID, s.tasks[id].action) else ("", "")
  }

  /** What its task has to expect: the state stored for the server - for an update, and
      for the local server, nothing. */
  function ToExpect(s: State, serverID: string, action: string): string {
    if serverID == "local" || action == "agent.update" || serverID !in s.servers then "" else s.servers[serverID].digest
  }

  /** The request in progress is going to store a task of that server and action that
      expects `digest`. */
  predicate Carries(s: State, h: Handler, serverID: string, action: string, digest: string) {
    match h
    case Drafting(draft, _) => draft.serverID == serverID && draft.action == action && draft.digest == digest
    case Retrying(original, _, expected) =>
      && original in s.tasks && s.tasks[original].serverID == serverID && s.tasks[original].action == action
      && expected == digest
    case _ => false
  }

  lemma RequestCarries(s: State, e: RequestEvent)
    requires Drafts(e) && GoodServers(s) && e.h !in s.handlers && e.h in ApplyRequest(s, e).handlers
    ensures var t := ApplyRequest(s, e); var (serverID, action) := About(s, e);
            Carries(t, t.handlers[e.h], serverID, action, ToExpect(s, serverID, action))
  {
    hide Rollout.Eligible;
  }

  // ---------- until the task is stored ----------

  /** The event begins another request under the same number. */
  predicate Reuses(e: Event, h: nat) {
    || (e.ByRequest? && Drafts(e.request) && e.request.h == h)
    || (e.ByBeat? && e.heartbeat.VerifyBeat? && e.heartbeat.h == h)
  }

  /** The request is still going to store that task, or is over. */
  predicate Waits(s: State, h: nat, serverID: string, action: string, digest: string) {
    h in s.handlers ==> Carries(s, s.handlers[h], serverID, action, digest)
  }

  lemma CarriesStays(s: State, t: State, h: Handler, serverID: string, action: string, digest: string)
    requires Carries(s, h, serverID, action, digest) && TableEvolves(s.tasks, t.tasks)
    ensures Carries(t, h, serverID, action, digest)
  {
  }

  lemma RequestWaits(s: State, e: RequestEvent, h: nat, serverID: string, action: string, digest: string)
    requires Waits(s, h, serverID, action, digest) && !Reuses(ByRequest(e), h)
    ensures var t := ApplyRequest(s, e);
            h in t.handlers ==>
              && h in s.handlers
              && (t.handlers[h] == s.handlers[h] || Carries(t, t.handlers[h], serverID, action, digest))
  {
    hide Rollout.Eligible, KeyFree, CancelOf, Retryable;
  }

  lemma BeatWaits(s: State, e: BeatEvent, h: nat, serverID: string, action: string, digest: string)
    requires Waits(s, h, serverID, action, digest) && !Reuses(ByBeat(e), h)
    ensures var t := ApplyBeat(s, e); h in t.handlers ==> h in s.handlers && t.handlers[h] == s.handlers[h]
  {
    hide UpdatesConfirmed;
  }

  lemma StepWaits(c: Config, s: State, e: Event, h: nat, serverID: string, action: string, digest: string)
    requires Inv(c, s) && Waits(s, h, serverID, action, digest) && !Reuses(e, h)
    ensures Waits(Apply(c, s, e), h, serverID, action, digest)
  {
    var t := Apply(c, s, e);
    StepEvolves(c, s, e);
    hide Inv, Reuses, TableEvolves, Carries;
    hide ApplyRequest, ApplyWorker, ApplyAdmin, ApplyBeat, ApplyTransfer, ApplyAgent;
    match e {
      case ByRequest(r) => RequestWaits(s, r, h, serverID, action, digest);
      case ByWorker(w) => WorkerFrame(c, s, w);
      case ByAdmin(a) => AdminFrame(s, a);
      case ByBeat(b) => BeatWaits(s, b, h, serverID, action, digest);
      case ByTransfer(x) => TransferFrame(c, s, x);
      case ByAgent(a) => AgentFrame(s, a);
    }
    hide Apply;
    if h in t.handlers && h in s.handlers && t.handlers[h] == s.handlers[h] {
      CarriesStays(s, t, s.handlers[h], serverID, action, digest);
    }
  }

  lemma {:induction false} RunWaits(c: Config, s: State, es: seq<Event>, h: nat, serverID: string, action: string,
                                    digest: string)
    requires Inv(c, s) && Waits(s, h, serverID, action, digest)
    requires forall i :: 0 <= i < |es| ==> !Reuses(es[i], h)
    ensures Inv(c, Run(c, s, es)) && Waits(Run(c, s, es), h, serverID, action, digest)
    decreases |es|
  {
    hide Inv, Apply, Waits, Reuses;
    if es != [] {
      StepWaits(c, s, es[0], h, serverID, action, digest);
      StepInv(c, s, es[0]);
      RunWaits(c, Apply(c, s, es[0]), es[1..], h, serverID, action, digest);
    }
  }

  // ---------- from then on ----------

  lemma InsertStores(c: Config, s: State, h: nat, newID: string, now: Instant, serverID: string, action: string,
                     digest: string)
    requires Waits(s, h, serverID, action, digest)
    requires newID !in s.tasks && newID in DoInsert(s, h, newID, now).tasks
    ensures var t := DoInsert(s, h, newID, now).tasks[newID];
            t.serverID == serverID && t.action == action && t.digest == digest
  {
    hide KeyFree;
  }

  /** The record keeps its expectation, and so does every execution of it. */
  lemma ExpectationStays(c: Config, s: State, fs: seq<Event>, id: string)
    requires Inv(c, s) && id in s.tasks
    ensures var t := Run(c, s, fs); var task := s.tasks[id];
            && id in t.tasks && t.tasks[id].digest == task.digest && t.tasks[id].serverID == task.serverID
            && t.tasks[id].action == task.action
            && (forall i :: 0 <= i < |t.executed| && t.executed[i].task.id == id ==>
                  && t.executed[i].serverID == task.serverID
                  && (task.action != "agent.update" && task.digest != "" ==> t.executed[i].seen == Some(task.digest)))
  {
    RunEvolves(c, s, fs);
    RunInv(c, s, fs);
    var t := Run(c, s, fs);
    assert Evolves(s.tasks[id], t.tasks[id]);
    hide Run;
    ExecutedAsStored(c, t, id);
    hide Inv;
  }

  lemma ExecutedAsStored(c: Config, t: State, id: string)
    requires Inv(c, t) && id in t.tasks
    ensures forall i :: 0 <= i < |t.executed| && t.executed[i].task.id == id ==>
              && t.executed[i].serverID == t.tasks[id].serverID
              && (t.tasks[id].action != "agent.update" && t.tasks[id].digest != "" ==>
                    t.executed[i].seen == Some(t.tasks[id].digest))
  {
    assert GoodLog(t);
    hide Inv;
    forall i | 0 <= i < |t.executed| && t.executed[i].task.id == id
      ensures t.executed[i].serverID == t.tasks[id].serverID
      ensures t.tasks[id].action != "agent.update" && t.tasks[id].digest != "" ==>
                t.executed[i].seen == Some(t.tasks[id].digest)
    {
      assert GoodExecution(t, t.executed[i]);
    }
  }

  /** A schedule from a request to the storing of its task, and on. */
  datatype Course = Course(before: seq<Event>, start: RequestEvent, between: seq<Event>, id: string, now: Instant,
                           after: seq<Event>)

  function AtStart(c: Config, r: Course): State {
    Run(c, Initial(), r.before)
  }

  function AtInsert(c: Config, r: Course): State {
    Run(c, Apply(c, AtStart(c, r), ByRequest(r.start)), r.between)
  }

  function AtEnd(c: Config, r: Course): State
    requires Drafts(r.start)
  {
    Run(c, Apply(c, AtInsert(c, r), ByRequest(Insert(r.start.h, r.id, r.now))), r.after)
  }

  /** The request is taken up, no other uses its number, and its insertion adds the task. */
  predicate Stores(c: Config, r: Course) {
    && Drafts(r.start)
    && r.start.h !in AtStart(c, r).handlers
    && r.start.h in Apply(c, AtStart(c, r), ByRequest(r.start)).handlers
    && (forall i :: 0 <= i < |r.between| ==> !Reuses(r.between[i], r.start.h))
    && r.id !in AtInsert(c, r).tasks
    && r.id in Apply(c, AtInsert(c, r), ByRequest(Insert(r.start.h, r.id, r.now))).tasks
  }

  lemma StartCarries(c: Config, r: Course)
    requires Stores(c, r)
    ensures var s := AtStart(c, r); var t := Apply(c, s, ByRequest(r.start));
            var (serverID, action) := About(s, r.start);
            && Inv(c, t) && Waits(t, r.start.h, serverID, action, ToExpect(s, serverID, action))
            && serverID in s.servers
  {
    var s := AtStart(c, r);
    ReachableInv(c, r.before);
    assert GoodServers(s);
    hide Run, Inv, GoodServers, Carries, ApplyRequest;
    RequestCarries(s, r.start);
    ServerIsKnown(s, r.start);
    StepInv(c, s, ByRequest(r.start));
  }

  lemma CourseKeeps(c: Config, r: Course)
    requires Stores(c, r)
    ensures var s, t := AtStart(c, r), AtEnd(c, r); var (serverID, action) := About(s, r.start);
            var digest := ToExpect(s, serverID, action);
            && serverID in s.servers && r.id in t.tasks
            && t.tasks[r.id].serverID == serverID && t.tasks[r.id].action == action && t.tasks[r.id].digest == digest
            && forall i :: 0 <= i < |t.executed| && t.executed[i].task.id == r.id ==>
                 && t.executed[i].serverID == serverID
                 && (action != "agent.update" && digest != "" ==> t.executed[i].seen == Some(digest))
  {
    StartCarries(c, r);
    hide Inv, Waits, Reuses, ToExpect, Run, About;
    var s, h := AtStart(c, r), r.start.h;
    var (serverID, action) := About(s, r.start);
    var digest, u := ToExpect(s, serverID, action), AtInsert(c, r);
    RunWaits(c, Apply(c, s, ByRequest(r.start)), r.between, h, serverID, action, digest);
    hide Apply;
    StoredKeeps(c, u, h, r.id, r.now, r.after, serverID, action, digest);
  }

  /** From the insertion on. */
  lemma StoredKeeps(c: Config, u: State, h: nat, id: string, now: Instant, after: seq<Event>, serverID: string,
                    action: string, digest: string)
    requires Inv(c, u) && Waits(u, h, serverID, action, digest) && id !in u.tasks
    requires id in Apply(c, u, ByRequest(Insert(h, id, now))).tasks
    ensures var t := Run(c, Apply(c, u, ByRequest(Insert(h, id, now))), after);
            && id in t.tasks
            && t.tasks[id].serverID == serverID && t.tasks[id].action == action && t.tasks[id].digest == digest
            && forall i :: 0 <= i < |t.executed| && t.executed[i].task.id == id ==>
                 && t.executed[i].serverID == serverID
                 && (action != "agent.update" && digest != "" ==> t.executed[i].seen == Some(digest))
  {
    hide Inv, Waits, Run, DoInsert;
    var e := ByRequest(Insert(h, id, now));
    assert Apply(c, u, e) == DoInsert(u, h, id, now);
    hide Apply;
    InsertStores(c, u, h, id, now, serverID, action, digest);
    StepInv(c, u, e);
    ExpectationStays(c, Apply(c, u, e), after, id);
  }

  /** In every run, for every enqueued action, batch target and retry, whatever happens
      between the request and the insertion and after it: the task expects the state that
      was stored for its server when the request read it, and the Agent runs it only on
      that state. */
  lemma RunsOnlyOnStateAtRequest(c: Config, r: Course)
    requires Stores(c, r)
    ensures var s, t := AtStart(c, r), AtEnd(c, r); var (serverID, action) := About(s, r.start);
            && r.id in t.tasks && t.tasks[r.id].serverID == serverID && t.tasks[r.id].action == action
            && serverID in s.servers
            && (serverID != "local" && action != "agent.update" ==>
                  var digest := s.servers[serverID].digest;
                  && t.tasks[r.id].digest == digest
                  && (digest != "" ==>
                        forall i :: 0 <= i < |t.executed| && t.executed[i].task.id == r.id ==>
                          t.executed[i].serverID == serverID && t.executed[i].seen == Some(digest)))
            && (serverID == "local" || action == "agent.update" ==> t.tasks[r.id].digest == "")
  {
    hide Inv, Run, Apply, Carries, Reuses, Stores;
    CourseKeeps(c, r);
  }

  lemma ServerIsKnown(s: State, e: RequestEvent)
    requires Drafts(e) && e.h !in s.handlers && e.h in ApplyRequest(s, e).handlers
    ensures About(s, e).0 in s.servers
  {
    hide Rollout.Eligible;
  }

  /** So a task passes the check of the Agent that was handed it exactly if the Agent's
      state is the one stored at the request - or none was: a task that was retried after
      the controller has heard of the state there is no longer refused for drift. */
  lemma CheckPassesExactly(c: Config, r: Course, serverID: string)
    requires Stores(c, r)
    requires var t := AtEnd(c, r);
             serverID in t.agents && t.agents[serverID].phase.Given? && t.agents[serverID].phase.task.id == r.id
    ensures var s, t := AtStart(c, r), AtEnd(c, r); var (server, action) := About(s, r.start);
            var next := Apply(c, t, ByAgent(CheckDigest(serverID)));
            && server == serverID && server in s.servers && serverID in next.agents
            && (next.agents[serverID].phase.Cleared? <==>
                  || action == "agent.update" || s.servers[server].digest == ""
                  || t.agents[serverID].digest == Some(s.servers[server].digest))
            && (next.agents[serverID].phase.Cleared? ==> next.reports == t.reports)
  {
    RunsOnlyOnStateAtRequest(c, r);
    var t := AtEnd(c, r);
    EndInv(c, r);
    hide AtStart, AtEnd, Stores, About, Inv, Apply;
    GivenAsStored(c, t, serverID);
    CheckDecides(c, t, serverID);
  }

  lemma CheckDecides(c: Config, t: State, serverID: string)
    requires serverID in t.agents && t.agents[serverID].phase.Given?
    ensures var task := t.agents[serverID].phase.task; var next := Apply(c, t, ByAgent(CheckDigest(serverID)));
            && serverID in next.agents
            && (next.agents[serverID].phase.Cleared? <==>
                  task.action == "agent.update" || task.digest == "" || t.agents[serverID].digest == Some(task.digest))
            && (next.agents[serverID].phase.Cleared? ==> next.reports == t.reports)
  {
  }

  lemma EndInv(c: Config, r: Course)
    requires Drafts(r.start)
    ensures Inv(c, AtEnd(c, r))
  {
    var e := ByRequest(Insert(r.start.h, r.id, r.now));
    ReachableInv(c, r.before);
    StepInv(c, AtStart(c, r), ByRequest(r.start));
    RunInv(c, Apply(c, AtStart(c, r), ByRequest(r.start)), r.between);
    StepInv(c, AtInsert(c, r), e);
    RunInv(c, Apply(c, AtInsert(c, r), e), r.after);
    hide Inv, Run, Apply;
  }

  lemma GivenAsStored(c: Config, t: State, serverID: string)
    requires Inv(c, t) && serverID in t.agents && t.agents[serverID].phase.Given?
    ensures var task := t.agents[serverID].phase.task;
            && task.id in t.tasks && t.tasks[task.id].digest == task.digest && t.tasks[task.id].action == task.action
            && task.serverID == serverID && t.tasks[task.id].serverID == serverID && serverID != "local"
  {
    assert GoodPhase(t, serverID, t.agents[serverID]);
  }
}
