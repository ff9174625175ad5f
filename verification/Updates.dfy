/** Agent updates whose result got lost, and state drift between a heartbeat and the
    execution of a task. */
module Updates {
  import opened Timestamps
  import opened Types
  import opened TaskSpec
  import opened Patterns
  import opened Protocol
  import opened Evolution
  import opened Invariants
  import opened Pool
  import opened Claims
  import Rollout

  // ---------- confirmation ----------

  /** Confirming again, with whatever clock, changes nothing. */
  lemma ConfirmationIdempotent(tasks: Tasks, serverID: string, version: string, when: string -> Instant,
                               later: string -> Instant)
    ensures var once := UpdatesConfirmed(tasks, serverID, version, when);
            UpdatesConfirmed(once, serverID, version, later) == once
  {
    var once := UpdatesConfirmed(tasks, serverID, version, when);
    var twice := UpdatesConfirmed(once, serverID, version, later);
    forall id <- once
      ensures twice[id] == once[id]
    {
    }
  }

  predicate UpdateTo(t: Task, serverID: string, version: string) {
    t.serverID == serverID && t.action == AGENT_UPDATE && TextOf(t.args, "version") == version
  }

  /** Every update to the reported version that the confirmation found is finished. */
  predicate Settled(s: State, beat: nat, found: set<string>)
    requires beat < |s.beats|
  {
    var b := s.beats[beat];
    b.version != "" ==>
      forall id <- found :: id in s.tasks && UpdateTo(s.tasks[id], b.serverID, b.version) ==>
             s.tasks[id].status.Terminal()
  }

  predicate BeatsSettled(s: State) {
    && (forall h <- s.handlers :: s.handlers[h].Acknowledged? && s.handlers[h].beat < |s.beats| ==>
          Settled(s, s.handlers[h].beat, s.handlers[h].found))
    && (forall a <- s.agents :: s.agents[a].phase.Ready? && s.agents[a].phase.beat < |s.beats| ==>
          Settled(s, s.agents[a].phase.beat, s.agents[a].phase.found))
  }

  lemma SettledKept(s: State, t: State, beat: nat, found: set<string>)
    requires beat < |s.beats| && s.beats <= t.beats && Settled(s, beat, found)
    requires TableEvolves(s.tasks, t.tasks) && found <= s.tasks.Keys
    ensures Settled(t, beat, found)
  {
  }

  lemma ConfirmBeatSettles(s: State, h: nat, when: string -> Instant)
    requires GoodMessages(s) && h in s.handlers && s.handlers[h].Stored? && s.handlers[h].beat < |s.beats|
    ensures Settled(DoConfirmBeat(s, h, when), s.handlers[h].beat, s.tasks.Keys)
  {
  }

  /** A heartbeat's confirmation, with every task it found. */
  predicate ConfirmedNow(s: State, e: BeatEvent, h: nat, next: Handler) {
    && e.ConfirmBeat? && e.h == h && h in s.handlers
    && s.handlers[h].Stored? && s.handlers[h].beat < |s.beats|
    && next == Acknowledged(s.handlers[h].beat, s.tasks.Keys)
  }

  /** Acknowledged and ready heartbeats come from confirmed ones. */
  lemma NewlySettled(c: Config, s: State, e: Event)
    requires Keyed(s.tasks)
    ensures var t := Apply(c, s, e);
            && (forall h <- t.handlers :: t.handlers[h].Acknowledged? ==>
                  || (h in s.handlers && s.handlers[h] == t.handlers[h])
                  || (e.ByBeat? && ConfirmedNow(s, e.heartbeat, h, t.handlers[h])))
            && (forall a <- t.agents :: t.agents[a].phase.Ready? ==>
                  || (a in s.agents && s.agents[a].phase == t.agents[a].phase)
                  || (exists h <- s.handlers ::
                        s.handlers[h] == Acknowledged(t.agents[a].phase.beat, t.agents[a].phase.found)))
  {
    hide ApplyRequest, ApplyWorker, ApplyAdmin, ApplyBeat, ApplyTransfer, ApplyAgent;
    match e {
      case ByRequest(r) => RequestFrame(s, r); RequestAcknowledgesNothing(s, r);
      case ByWorker(w) => WorkerFrame(c, s, w);
      case ByAdmin(a) => AdminFrame(s, a);
      case ByBeat(b) => BeatAcknowledges(s, b); BeatMoves(s, b);
      case ByTransfer(x) => TransferFrame(c, s, x); TransferMoves(c, s, x);
      case ByAgent(a) => AgentMoves(s, a);
    }
  }

  lemma RequestAcknowledgesNothing(s: State, e: RequestEvent)
    ensures forall h <- ApplyRequest(s, e).handlers :: ApplyRequest(s, e).handlers[h].Acknowledged? ==>
              h in s.handlers && s.handlers[h] == ApplyRequest(s, e).handlers[h]
  {
    RequestHandlers(s, e);
    hide ApplyRequest;
  }

  lemma BeatAcknowledges(s: State, e: BeatEvent)
    ensures var t := ApplyBeat(s, e);
            forall h <- t.handlers :: t.handlers[h].Acknowledged? ==>
              || (h in s.handlers && s.handlers[h] == t.handlers[h])
              || ConfirmedNow(s, e, h, t.handlers[h])
  {
    hide UpdatesConfirmed, DoSendBeat, DoGiveUp;
    if e.SendBeat? || e.GiveUp? {
      QuietHandlers(s, e);
    }
  }

  lemma QuietHandlers(s: State, e: BeatEvent)
    requires e.SendBeat? || e.GiveUp?
    ensures ApplyBeat(s, e).handlers == s.handlers
  {
  }

  lemma BeatsGrow(c: Config, s: State, e: Event)
    ensures s.beats <= Apply(c, s, e).beats
    ensures forall n :: |s.beats| <= n < |Apply(c, s, e).beats| ==> Apply(c, s, e).beats[n].known == s.tasks.Keys
  {
    hide ApplyRequest, ApplyWorker, ApplyBeat, ApplyTransfer, ApplyAgent;
    match e {
      case ByRequest(r) => RequestFrame(s, r);
      case ByWorker(w) => WorkerFrame(c, s, w);
      case ByAdmin(a) =>
      case ByBeat(b) => BeatFrame(s, b); NewBeatKnowsAll(s, b);
      case ByTransfer(x) => TransferFrame(c, s, x);
      case ByAgent(a) => AgentFrame(s, a);
    }
  }

  lemma NewBeatKnowsAll(s: State, e: BeatEvent)
    ensures forall n :: |s.beats| <= n < |ApplyBeat(s, e).beats| ==> ApplyBeat(s, e).beats[n].known == s.tasks.Keys
  {
  }

  lemma StepKeepsSettled(c: Config, s: State, e: Event)
    requires Held(s) && BeatsSettled(s)
    ensures BeatsSettled(Apply(c, s, e))
  {
    var t := Apply(c, s, e);
    assert GoodMessages(s) && GoodHandlers(s) && GoodAgents(s);
    BeatsGrow(c, s, e);
    StepEvolves(c, s, e);
    NewlySettled(c, s, e);
    StepKeepsHeld(c, s, e);
    assert GoodHandlers(t) && GoodAgents(t);
    hide Held, Apply, Settled, TableEvolves, GoodHandlers, GoodAgents;
    forall h <- t.handlers | t.handlers[h].Acknowledged? && t.handlers[h].beat < |t.beats|
      ensures Settled(t, t.handlers[h].beat, t.handlers[h].found)
    {
      if h in s.handlers && s.handlers[h] == t.handlers[h] {
        HandlerStaysSettled(s, t, h);
      } else {
        ConfirmBeatSettles(s, h, e.heartbeat.when);
        ConfirmedApply(c, s, e);
      }
    }
    forall a <- t.agents | t.agents[a].phase.Ready? && t.agents[a].phase.beat < |t.beats|
      ensures Settled(t, t.agents[a].phase.beat, t.agents[a].phase.found)
    {
      AgentStaysSettled(s, t, a);
    }
  }

  lemma HandlerStaysSettled(s: State, t: State, h: nat)
    requires GoodMessages(s) && GoodHandlers(s) && BeatsSettled(s)
    requires s.beats <= t.beats && TableEvolves(s.tasks, t.tasks)
    requires h in s.handlers && s.handlers[h].Acknowledged?
    ensures Settled(t, s.handlers[h].beat, s.handlers[h].found)
  {
    hide Settled, TableEvolves, GoodMessages;
    assert GoodHandler(s, s.handlers[h]);
    SettledKept(s, t, s.handlers[h].beat, s.handlers[h].found);
  }

  lemma AgentStaysSettled(s: State, t: State, a: string)
    requires GoodMessages(s) && GoodHandlers(s) && GoodAgents(s) && BeatsSettled(s)
    requires s.beats <= t.beats && TableEvolves(s.tasks, t.tasks) && a in t.agents && t.agents[a].phase.Ready?
    requires || (a in s.agents && s.agents[a].phase == t.agents[a].phase)
             || (exists h <- s.handlers ::
                   s.handlers[h] == Acknowledged(t.agents[a].phase.beat, t.agents[a].phase.found))
    ensures Settled(t, t.agents[a].phase.beat, t.agents[a].phase.found)
  {
    hide Settled, TableEvolves, GoodMessages;
    var n, found := t.agents[a].phase.beat, t.agents[a].phase.found;
    if a in s.agents && s.agents[a].phase == t.agents[a].phase {
      assert GoodPhase(s, a, s.agents[a]);
      SettledKept(s, t, n, found);
    } else {
      var h :| h in s.handlers && s.handlers[h] == Acknowledged(n, found);
      HandlerStaysSettled(s, t, h);
    }
  }

  lemma ConfirmedApply(c: Config, s: State, e: Event)
    requires e.ByBeat? && e.heartbeat.ConfirmBeat?
    ensures Apply(c, s, e) == DoConfirmBeat(s, e.heartbeat.h, e.heartbeat.when)
  {
  }

  // ---------- drift ----------

  /** Whether the Agent has already passed the check with a task against `digest`. */
  predicate PastCheck(s: State, serverID: string, digest: string) {
    serverID in s.agents && s.agents[serverID].phase.Cleared?
      && NeedsDigest(s.agents[serverID].phase.task) && s.agents[serverID].phase.task.digest == digest
  }

  predicate Away(s: State, serverID: string, digest: string) {
    serverID in s.agents ==> s.agents[serverID].digest != Some(digest)
  }

  /** The Agent's state does not have `digest` anywhere along a schedule. */
  predicate StaysAway(c: Config, s: State, es: seq<Event>, serverID: string, digest: string)
    decreases |es|
  {
    Away(s, serverID, digest) && (es != [] ==> StaysAway(c, Apply(c, s, es[0]), es[1..], serverID, digest))
  }

  predicate RanAgainst(x: Execution, serverID: string, digest: string) {
    x.serverID == serverID && NeedsDigest(x.task) && x.task.digest == digest
  }

  /** `t`'s log continues `s`'s without a run against `digest`. */
  predicate NoNewRun(s: State, t: State, serverID: string, digest: string) {
    s.executed <= t.executed
    && forall i :: |s.executed| <= i < |t.executed| ==> !RanAgainst(t.executed[i], serverID, digest)
  }

  lemma AgentAwayRunsNothing(s: State, e: AgentEvent, serverID: string, digest: string)
    requires Away(s, serverID, digest) && !PastCheck(s, serverID, digest)
    ensures !PastCheck(ApplyAgent(s, e), serverID, digest)
    ensures NoNewRun(s, ApplyAgent(s, e), serverID, digest)
  {
    hide Bump, ValidVersion, TextOf, AGENT_UPDATE, DRIFT, INVALID_VERSION;
  }

  lemma OthersClearNothing(c: Config, s: State, e: Event)
    requires !e.ByAgent? && Keyed(s.tasks)
    ensures var t := Apply(c, s, e);
            && t.executed == s.executed
            && forall a <- t.agents :: t.agents[a].phase.Cleared? ==> a in s.agents && t.agents[a] == s.agents[a]
  {
    hide ApplyRequest, ApplyWorker, ApplyAdmin, ApplyBeat, ApplyTransfer;
    match e {
      case ByRequest(r) => RequestFrame(s, r);
      case ByWorker(w) => WorkerFrame(c, s, w);
      case ByAdmin(a) => AdminFrame(s, a);
      case ByBeat(b) => BeatFrame(s, b); BeatGivesNothing(s, b);
      case ByTransfer(x) => TransferFrame(c, s, x); TransferMoves(c, s, x);
    }
  }

  lemma StepAwayRunsNothing(c: Config, s: State, e: Event, serverID: string, digest: string)
    requires Keyed(s.tasks) && Away(s, serverID, digest) && !PastCheck(s, serverID, digest)
    ensures !PastCheck(Apply(c, s, e), serverID, digest)
    ensures NoNewRun(s, Apply(c, s, e), serverID, digest)
  {
    hide ApplyRequest, ApplyWorker, ApplyAdmin, ApplyBeat, ApplyTransfer, ApplyAgent;
    if e.ByAgent? {
      AgentAwayRunsNothing(s, e.agent, serverID, digest);
    } else {
      OthersClearNothing(c, s, e);
    }
  }

  /** While the state stays away from `digest`, no task that expects it runs,
      whatever else happens and in whatever order. */
  lemma {:induction false} AwayRunsNothing(c: Config, s: State, es: seq<Event>, serverID: string, digest: string)
    requires Held(s) && StaysAway(c, s, es, serverID, digest) && !PastCheck(s, serverID, digest)
    ensures !PastCheck(Run(c, s, es), serverID, digest)
    ensures NoNewRun(s, Run(c, s, es), serverID, digest)
    decreases |es|
  {
    if es != [] {
      StepAwayRunsNothing(c, s, es[0], serverID, digest);
      StepKeepsHeld(c, s, es[0]);
      AwayRunsNothing(c, Apply(c, s, es[0]), es[1..], serverID, digest);
    }
    hide Apply, PastCheck;
  }

  /** A task handed to an Agent whose state has drifted is not run: exactly one
      failure report for it leaves the Agent, and the Agent goes on. */
  lemma DriftIsReported(c: Config, s: State, serverID: string)
    requires serverID in s.agents && s.agents[serverID].phase.Given?
    requires var task := s.agents[serverID].phase.task;
             NeedsDigest(task) && s.agents[serverID].digest != Some(task.digest)
    ensures var t := Apply(c, s, ByAgent(CheckDigest(serverID)));
            && t.reports == s.reports + [Report(serverID, s.agents[serverID].phase.task.id, false, "", DRIFT)]
            && t.agents == s.agents[serverID := s.agents[serverID].(phase := Idle)]
            && t.executed == s.executed && t.runs == s.runs && t.tasks == s.tasks
  {
  }
}
