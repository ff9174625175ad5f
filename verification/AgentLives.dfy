/** The life of an Agent at the machine: whatever the other parties do between two of its
    ticks, some schedule of the machine shows exactly the actions of its loop, in order. */
module AgentLives {
  import opened Timestamps
  import opened Types
  import opened TaskSpec
  import opened Protocol
  import opened Invariants
  import opened AgentLoop
  import R = Restarts

  // ---------- what the machine shows of an Agent ----------

  /** Executions and reports of the server that a step adds. */
  function Logged(s: State, t: State, serverID: string): seq<Action> {
    (if |t.executed| > |s.executed| && t.executed[|s.executed|].serverID == serverID
     then [Launched(t.executed[|s.executed|].task)] else [])
    + (if |t.reports| > |s.reports| && t.reports[|s.reports|].serverID == serverID
       then [SentResult(t.reports[|s.reports|].taskID, t.reports[|s.reports|].success,
                        t.reports[|s.reports|].output, t.reports[|s.reports|].problem)] else [])
  }

  /** A heartbeat that has ended, or a poll. */
  function Asked(before: Phase, after: Phase): seq<Action> {
    if before.AwaitingAck? && !after.AwaitingAck? then [SentBeat(after.Ready?)]
    else if before.Ready? && !after.Ready? then [SentPoll]
    else []
  }

  /** What a step shows of the Agent; a restart is no request. */
  function Seen(c: Config, s: State, e: Event, serverID: string): seq<Action> {
    var t := Apply(c, s, e);
    if serverID !in s.agents || serverID !in t.agents || (e.ByAgent? && e.agent.RestartAgent?) then []
    else Asked(s.agents[serverID].phase, t.agents[serverID].phase) + Logged(s, t, serverID)
  }

  function Observed(c: Config, s: State, es: seq<Event>, serverID: string): seq<Action>
    decreases |es|
  {
    if es == [] then [] else Seen(c, s, es[0], serverID) + Observed(c, Apply(c, s, es[0]), es[1..], serverID)
  }

  lemma {:induction false} ObservedAppend(c: Config, s: State, es: seq<Event>, fs: seq<Event>, serverID: string)
    ensures Observed(c, s, es + fs, serverID) == Observed(c, s, es, serverID) + Observed(c, Run(c, s, es), fs, serverID)
    decreases |es|
  {
    hide Apply, Seen;
    if es == [] {
      assert es + fs == fs;
    } else {
      ObservedAppend(c, Apply(c, s, es[0]), es[1..], fs, serverID);
      assert (es + fs)[1..] == es[1..] + fs;
    }
  }

  lemma ObservedOne(c: Config, s: State, e: Event, serverID: string)
    ensures Observed(c, s, [e], serverID) == Seen(c, s, e, serverID)
    ensures Run(c, s, [e]) == Apply(c, s, e)
  {
    RunOne(c, s, e);
    assert [e][1..] == [];
    assert Observed(c, Apply(c, s, e), [], serverID) == [];
    hide Run, Apply, Seen;
  }

  lemma ObservedTwo(c: Config, s: State, e: Event, f: Event, serverID: string)
    ensures Observed(c, s, [e, f], serverID) == Seen(c, s, e, serverID) + Seen(c, Apply(c, s, e), f, serverID)
    ensures Run(c, s, [e, f]) == Apply(c, Apply(c, s, e), f)
  {
    hide Seen, Apply, Run, Observed;
    assert [e, f] == [e] + [f];
    ObservedAppend(c, s, [e], [f], serverID);
    ObservedOne(c, s, e, serverID);
    ObservedOne(c, Apply(c, s, e), f, serverID);
    RunTwo(c, s, e, f);
  }

  /** The Agent waits for its next tick, running `version`. */
  predicate Rests(s: State, serverID: string, version: string) {
    serverID in s.agents && s.agents[serverID].phase.Idle? && s.agents[serverID].version == version
  }

  // ---------- between two ticks ----------

  /** No step of this Agent's program. */
  predicate Elsewhere(e: Event, serverID: string) {
    match e
    case ByBeat(b) => !((b.SendBeat? || b.GiveUp?) && b.serverID == serverID)
    case ByAgent(a) => a.serverID == serverID ==> a.LocalEdit?
    case _ => true
  }

  lemma ElsewhereRests(c: Config, s: State, e: Event, serverID: string, version: string)
    requires Rests(s, serverID, version) && Elsewhere(e, serverID)
    ensures Rests(Apply(c, s, e), serverID, version) && Seen(c, s, e, serverID) == []
  {
    hide ApplyRequest, ApplyWorker, ApplyAdmin, ApplyBeat, ApplyTransfer, ApplyAgent, Seen, Logged;
    NothingLogged(s, Apply(c, s, e), serverID);
    match e {
      case ByRequest(r) => RequestFrame(s, r);
      case ByWorker(w) => WorkerFrame(c, s, w);
      case ByAdmin(a) => AdminRests(s, a, serverID, version);
      case ByBeat(b) => BeatFrame(s, b); OtherBeatRests(s, b, serverID, version);
      case ByTransfer(x) => TransferFrame(c, s, x); TransferRests(c, s, x, serverID, version);
      case ByAgent(a) => OtherAgentRests(s, a, serverID, version);
    }
    hide Apply;
    RestingSeen(c, s, e, serverID, version);
  }

  lemma NothingLogged(s: State, t: State, serverID: string)
    ensures t.executed == s.executed && t.reports == s.reports ==> Logged(s, t, serverID) == []
  {
  }

  lemma RestingSeen(c: Config, s: State, e: Event, serverID: string, version: string)
    requires Rests(s, serverID, version) && Rests(Apply(c, s, e), serverID, version)
    requires Logged(s, Apply(c, s, e), serverID) == []
    ensures Seen(c, s, e, serverID) == []
  {
    hide Apply, Logged;
  }

  lemma AdminRests(s: State, e: AdminEvent, serverID: string, version: string)
    requires Rests(s, serverID, version)
    ensures Rests(ApplyAdmin(s, e), serverID, version)
    ensures ApplyAdmin(s, e).executed == s.executed && ApplyAdmin(s, e).reports == s.reports
  {
    AdminFrame(s, e);
    if e.Register? && e.serverID == serverID {
      assert ApplyAdmin(s, e) == s;
    }
    hide ApplyAdmin;
  }

  lemma OtherBeatRests(s: State, e: BeatEvent, serverID: string, version: string)
    requires Rests(s, serverID, version) && Elsewhere(ByBeat(e), serverID)
    ensures Rests(ApplyBeat(s, e), serverID, version)
  {
    hide UpdatesConfirmed;
  }

  lemma TransferRests(c: Config, s: State, e: TransferEvent, serverID: string, version: string)
    requires Rests(s, serverID, version)
    ensures Rests(ApplyTransfer(c, s, e), serverID, version)
  {
    hide Polled, PendingListed, Reported;
  }

  lemma OtherAgentRests(s: State, e: AgentEvent, serverID: string, version: string)
    requires Rests(s, serverID, version) && Elsewhere(ByAgent(e), serverID)
    ensures Rests(ApplyAgent(s, e), serverID, version) && Logged(s, ApplyAgent(s, e), serverID) == []
  {
    if e.serverID != serverID {
      AgentMoves(s, e);
      hide ApplyAgent, PhaseMoved;
    }
  }

  lemma {:induction false} WaitRests(c: Config, s: State, es: seq<Event>, serverID: string, version: string)
    requires Rests(s, serverID, version) && forall i :: 0 <= i < |es| ==> Elsewhere(es[i], serverID)
    ensures Rests(Run(c, s, es), serverID, version) && Observed(c, s, es, serverID) == []
    decreases |es|
  {
    hide Apply, Seen, Rests, Elsewhere;
    if es != [] {
      ElsewhereRests(c, s, es[0], serverID, version);
      WaitRests(c, Apply(c, s, es[0]), es[1..], serverID, version);
    }
  }

  // ---------- a tick ----------

  /** What others do before a tick, the tick, and the listing that its poll is served from. */
  datatype Day = Day(before: seq<Event>, request: nat, order: seq<string>, when: string -> Instant, tick: Tick)

  function BeatSteps(s: State, serverID: string, ok: bool, request: nat): seq<Event> {
    if ok then R.BeatEvents(serverID, |s.beats|, request)
    else [ByBeat(SendBeat(serverID, [])), ByBeat(GiveUp(serverID))]
  }

  function PollSteps(serverID: string, day: Day): seq<Event> {
    if !day.tick.pollOK then [ByBeat(GiveUp(serverID))]
    else [ByTransfer(Poll(serverID, day.order, day.when, true))]
         + if day.tick.task.None? then []
           else [ByAgent(LocalEdit(serverID, day.tick.digest))]
                + [ByAgent(CheckDigest(serverID)), ByAgent(Execute(day.tick.task.value, serverID, day.tick))]
  }

  function TickSteps(s: State, serverID: string, day: Day): seq<Event> {
    BeatSteps(s, serverID, day.tick.beatOK, day.request) + if day.tick.beatOK then PollSteps(serverID, day) else []
  }

  /** A heartbeat can get through if its server is registered. */
  predicate CanBeat(s: State, serverID: string, request: nat) {
    serverID in s.servers && request !in s.handlers
  }

  /** The poll hands out the task that the Agent gets. */
  predicate Serves(c: Config, tasks: Tasks, serverID: string, day: Day) {
    day.tick.pollOK ==>
      && PendingListed(tasks, serverID, day.order)
      && Polled(tasks, day.order, c.failureStopPercent, day.when).1 == day.tick.task
  }

  /** The controller's side of the tick fits what the Agent is answered. */
  predicate Meets(c: Config, s: State, serverID: string, version: string, day: Day) {
    day.tick.beatOK ==>
      && CanBeat(s, serverID, day.request)
      && Serves(c, UpdatesConfirmed(s.tasks, serverID, version, _ => START), serverID, day)
  }

  function TickActions(version: string, tick: Tick): seq<Action> {
    if tick.beatOK then [SentBeat(true)] + Turn(version, tick).0 else [SentBeat(false)]
  }

  predicate Stops(version: string, tick: Tick) {
    tick.beatOK && Turn(version, tick).1
  }

  lemma BeatFails(c: Config, s: State, serverID: string, version: string)
    requires Rests(s, serverID, version)
    ensures var es := [ByBeat(SendBeat(serverID, [])), ByBeat(GiveUp(serverID))];
            Rests(Run(c, s, es), serverID, version) && Observed(c, s, es, serverID) == [SentBeat(false)]
  {
    ObservedTwo(c, s, ByBeat(SendBeat(serverID, [])), ByBeat(GiveUp(serverID)), serverID);
    hide Run, Observed;
  }

  lemma SendSeen(c: Config, s: State, serverID: string)
    requires serverID in s.agents && s.agents[serverID].phase.Idle?
    ensures Seen(c, s, ByBeat(SendBeat(serverID, [])), serverID) == []
  {
  }

  lemma MiddleSeen(c: Config, s: State, e: BeatEvent, serverID: string)
    requires e.VerifyBeat? || e.StoreBeat?
    ensures Seen(c, s, ByBeat(e), serverID) == []
  {
  }

  lemma ConfirmSeen(c: Config, s: State, n: nat, h: nat, serverID: string)
    requires n < |s.beats| && h in s.handlers && s.handlers[h] == Stored(n)
    ensures Seen(c, s, ByBeat(ConfirmBeat(h, _ => START)), serverID) == []
    ensures var t := DoConfirmBeat(s, h, _ => START);
            t == s.(handlers := s.handlers[h := Acknowledged(n, s.tasks.Keys)], tasks := t.tasks)
  {
    hide UpdatesConfirmed;
  }

  lemma AckSeen(c: Config, s: State, n: nat, h: nat, serverID: string)
    requires n < |s.beats| && s.beats[n].serverID == serverID
    requires h in s.handlers && s.handlers[h].Acknowledged? && s.handlers[h].beat == n
    requires serverID in s.agents && s.agents[serverID].phase == AwaitingAck(n)
    ensures Seen(c, s, ByBeat(AckBeat(h)), serverID) == [SentBeat(true)]
  {
  }

  lemma ObservedFive(c: Config, s: State, es: seq<Event>, serverID: string)
    requires |es| == 5
    ensures var s1 := Apply(c, s, es[0]); var s2 := Apply(c, s1, es[1]); var s3 := Apply(c, s2, es[2]);
            var s4 := Apply(c, s3, es[3]);
            && Run(c, s, es) == Apply(c, s4, es[4])
            && Observed(c, s, es, serverID) ==
               Seen(c, s, es[0], serverID) + Seen(c, s1, es[1], serverID) + Seen(c, s2, es[2], serverID)
               + Seen(c, s3, es[3], serverID) + Seen(c, s4, es[4], serverID)
  {
    hide Seen, Apply, Run, Observed;
    var s2 := Apply(c, Apply(c, s, es[0]), es[1]);
    var s4 := Apply(c, Apply(c, s2, es[2]), es[3]);
    assert es == [es[0], es[1]] + ([es[2], es[3]] + [es[4]]);
    ObservedAppend(c, s, [es[0], es[1]], [es[2], es[3]] + [es[4]], serverID);
    RunAppend(c, s, [es[0], es[1]], [es[2], es[3]] + [es[4]]);
    ObservedTwo(c, s, es[0], es[1], serverID);
    ObservedAppend(c, s2, [es[2], es[3]], [es[4]], serverID);
    RunAppend(c, s2, [es[2], es[3]], [es[4]]);
    ObservedTwo(c, s2, es[2], es[3], serverID);
    ObservedOne(c, s4, es[4], serverID);
  }

  /** The five steps of a heartbeat that gets through, as states. */
  lemma BeatObserved(c: Config, s: State, serverID: string, n: nat, h: nat)
    ensures var sent := R.Sent(s, serverID); var verified := DoVerifyBeat(sent, h, n);
            var stored := R.StoredBeat(sent, n, h);
            var confirmed := DoConfirmBeat(stored, h, _ => START);
            Observed(c, s, R.BeatEvents(serverID, n, h), serverID) ==
            Seen(c, s, ByBeat(SendBeat(serverID, [])), serverID) + Seen(c, sent, ByBeat(VerifyBeat(h, n)), serverID)
            + Seen(c, verified, ByBeat(StoreBeat(h, START)), serverID)
            + Seen(c, stored, ByBeat(ConfirmBeat(h, _ => START)), serverID)
            + Seen(c, confirmed, ByBeat(AckBeat(h)), serverID)
  {
    hide Run, Observed, Seen, DoSendBeat, DoVerifyBeat, DoStoreBeat, DoConfirmBeat, DoAckBeat;
    ObservedFive(c, s, R.BeatEvents(serverID, n, h), serverID);
  }

  /** Nothing but its success is seen. */
  lemma BeatSucceeds(c: Config, s: State, serverID: string, version: string, h: nat)
    requires Rests(s, serverID, version) && CanBeat(s, serverID, h)
    ensures Observed(c, s, R.BeatEvents(serverID, |s.beats|, h), serverID) == [SentBeat(true)]
  {
    hide R.Sent, R.StoredBeat, Observed, Seen, DoVerifyBeat, DoConfirmBeat, R.BeatEvents;
    var n := |s.beats|;
    var sent := R.Sent(s, serverID);
    var stored := R.StoredBeat(sent, n, h);
    BeatObserved(c, s, serverID, n, h);
    R.BeatIsSent(s, serverID);
    R.BeatIsStored(sent, n, h);
    SendSeen(c, s, serverID);
    MiddleSeen(c, sent, VerifyBeat(h, n), serverID);
    MiddleSeen(c, DoVerifyBeat(sent, h, n), StoreBeat(h, START), serverID);
    ConfirmSeen(c, stored, n, h, serverID);
    AckSeen(c, DoConfirmBeat(stored, h, _ => START), n, h, serverID);
  }

  // ---------- the poll ----------

  /** Ready to poll, running `version`. */
  predicate MayPoll(s: State, serverID: string, version: string) {
    serverID in s.agents && s.agents[serverID].phase.Ready? && s.agents[serverID].version == version
  }

  lemma PollGivenUp(c: Config, s: State, serverID: string, version: string)
    requires MayPoll(s, serverID, version)
    ensures Rests(Run(c, s, [ByBeat(GiveUp(serverID))]), serverID, version)
    ensures Observed(c, s, [ByBeat(GiveUp(serverID))], serverID) == [SentPoll]
  {
    ObservedOne(c, s, ByBeat(GiveUp(serverID)), serverID);
    hide Run, Observed;
  }

  lemma PollAnswered(c: Config, s: State, serverID: string, version: string, day: Day)
    requires MayPoll(s, serverID, version) && day.tick.pollOK && Serves(c, s.tasks, serverID, day)
    ensures var poll := ByTransfer(Poll(serverID, day.order, day.when, true)); var t := Apply(c, s, poll);
            && serverID in t.agents && t.agents[serverID].version == version
            && t.agents[serverID].phase == (if day.tick.task.Some? then Given(day.tick.task.value) else Idle)
            && Seen(c, s, poll, serverID) == [SentPoll]
  {
    hide Polled, PendingListed, Bump;
  }

  // ---------- the task that was handed out ----------

  lemma EditSeen(c: Config, s: State, serverID: string, digest: Option<string>)
    requires serverID in s.agents && s.agents[serverID].phase.Given?
    ensures var edit := ByAgent(LocalEdit(serverID, digest)); var t := Apply(c, s, edit);
            && t == s.(agents := s.agents[serverID := s.agents[serverID].(digest := digest)])
            && Seen(c, s, edit, serverID) == []
  {
  }

  /** What handling a task leaves in the logs is what the turn does behind its poll. */
  lemma CameLogged(s: State, t: State, serverID: string, task: Task, digest: Option<string>, starts: bool,
                   version: string, result: Action)
    requires result.SentResult? && Came(s, t, serverID, task, digest, starts, version, result)
    ensures Logged(s, t, serverID) == (if starts then [Launched(task)] else []) + [result]
  {
  }

  lemma TurnShape(version: string, tick: Tick)
    requires tick.pollOK && tick.task.Some?
    ensures var actions, task := Turn(version, tick).0, tick.task.value;
            && actions[|actions| - 1].SentResult?
            && actions ==
               [SentPoll] + ((if Launched(task) in actions then [Launched(task)] else []) + [actions[|actions| - 1]])
  {
    hide ReportFor, Starts;
  }

  /** The digest check: it ends the task, or nothing is seen of it. */
  lemma CheckSeen(c: Config, s: State, serverID: string)
    requires serverID in s.agents && s.agents[serverID].phase.Given?
    ensures var a := s.agents[serverID]; var check := ByAgent(CheckDigest(serverID)); var t := Apply(c, s, check);
            && serverID in t.agents && t.executed == s.executed
            && (if Drifted(a.phase.task, a.digest)
                then t.agents[serverID].phase.Idle? && Seen(c, s, check, serverID) == Logged(s, t, serverID)
                else t.reports == s.reports && t.agents[serverID].phase.Cleared? && Seen(c, s, check, serverID) == [])
  {
  }

  /** What follows the check is seen as it is logged. */
  lemma ExecutionSeen(c: Config, s: State, e: AgentEvent, serverID: string)
    requires e.serverID == serverID && (e.RunCommand? || e.SelfUpdate? || e.RefuseCommand?)
    requires serverID in s.agents && (s.agents[serverID].phase.Cleared? || s.agents[serverID].phase.Idle?)
    ensures Seen(c, s, ByAgent(e), serverID) == Logged(s, Apply(c, s, ByAgent(e)), serverID)
  {
    AgentMoves(s, e);
    hide ApplyAgent, CommandStarted, Logged;
  }

  /** Handling a task is seen as it is logged. */
  lemma HandlingSeen(c: Config, s: State, serverID: string, e: AgentEvent)
    requires serverID in s.agents && s.agents[serverID].phase.Given?
    requires e.serverID == serverID && (e.RunCommand? || e.SelfUpdate? || e.RefuseCommand?)
    ensures var es := [ByAgent(CheckDigest(serverID)), ByAgent(e)];
            Observed(c, s, es, serverID) == Logged(s, Run(c, s, es), serverID)
  {
    var check := ByAgent(CheckDigest(serverID));
    var checked := Apply(c, s, check);
    CheckSeen(c, s, serverID);
    hide Run, Observed, Seen, Apply, Logged, Drifted;
    ObservedTwo(c, s, check, ByAgent(e), serverID);
    ExecutionSeen(c, checked, e, serverID);
    ExecutionLogged(c, s, checked, e, serverID);
  }

  lemma TaskHandled(c: Config, s: State, serverID: string, version: string, tick: Tick)
    requires tick.pollOK && tick.task.Some? && serverID in s.agents
             && s.agents[serverID].phase == Given(tick.task.value)
    requires s.agents[serverID].digest == tick.digest && s.agents[serverID].version == version
    ensures var es := [ByAgent(CheckDigest(serverID)), ByAgent(Execute(tick.task.value, serverID, tick))];
            var (actions, restart) := Turn(version, tick);
            && Rests(Run(c, s, es), serverID, if restart then TextOf(tick.task.value.args, "version") else version)
            && [SentPoll] + Observed(c, s, es, serverID) == actions
  {
    var task := tick.task.value;
    TurnIsSchedule(c, s, serverID, tick);
    TurnShape(version, tick);
    hide Run, Observed, Turn, Logged;
    HandlingSeen(c, s, serverID, Execute(task, serverID, tick));
    var (actions, restart) := Turn(version, tick);
    CameLogged(s, Run(c, s, [ByAgent(CheckDigest(serverID)), ByAgent(Execute(task, serverID, tick))]), serverID, task,
               tick.digest, Launched(task) in actions, if restart then TextOf(task.args, "version") else version,
               actions[|actions| - 1]);
  }

  lemma ExecutionLogged(c: Config, s: State, checked: State, e: AgentEvent, serverID: string)
    requires checked == Apply(c, s, ByAgent(CheckDigest(serverID))) && serverID in checked.agents
    requires e.serverID == serverID && (e.RunCommand? || e.SelfUpdate? || e.RefuseCommand?)
    ensures checked.agents[serverID].phase.Idle? ==>
              Logged(checked, Apply(c, checked, ByAgent(e)), serverID) == [] && Apply(c, checked, ByAgent(e)) == checked
    ensures checked.executed == s.executed && checked.reports == s.reports ==>
              Logged(checked, Apply(c, checked, ByAgent(e)), serverID) ==
                Logged(s, Apply(c, checked, ByAgent(e)), serverID)
  {
    if checked.agents[serverID].phase.Idle? {
      NothingCleared(checked, e);
    }
    hide Apply, ApplyAgent;
  }

  /** A poll whose reply arrives, and what follows it. */
  lemma PollShows(c: Config, s: State, serverID: string, version: string, day: Day)
    requires MayPoll(s, serverID, version) && Serves(c, s.tasks, serverID, day)
    ensures var (actions, restart) := Turn(version, day.tick); var es := PollSteps(serverID, day);
            && Observed(c, s, es, serverID) == actions
            && Rests(Run(c, s, es), serverID, VersionAfter(version, day.tick))
  {
    hide Turn, Run, Observed, Seen, Apply, Serves;
    if !day.tick.pollOK {
      PollGivenUp(c, s, serverID, version);
      NoTask(version, day.tick);
    } else {
      var poll := ByTransfer(Poll(serverID, day.order, day.when, true));
      PollAnswered(c, s, serverID, version, day);
      ObservedOne(c, s, poll, serverID);
      if day.tick.task.None? {
        assert PollSteps(serverID, day) == [poll];
        NoTask(version, day.tick);
      } else {
        TaskShows(c, s, Apply(c, s, poll), poll, serverID, version, day);
      }
    }
  }

  lemma NoTask(version: string, tick: Tick)
    requires !tick.pollOK || tick.task.None?
    ensures Turn(version, tick) == ([SentPoll], false)
  {
  }

  lemma TaskShows(c: Config, s: State, given: State, poll: Event, serverID: string, version: string, day: Day)
    requires poll == ByTransfer(Poll(serverID, day.order, day.when, true)) && given == Apply(c, s, poll)
    requires day.tick.pollOK && day.tick.task.Some? && Seen(c, s, poll, serverID) == [SentPoll]
    requires serverID in given.agents && given.agents[serverID].version == version
    requires given.agents[serverID].phase == Given(day.tick.task.value)
    ensures var es := PollSteps(serverID, day);
            && Observed(c, s, es, serverID) == Turn(version, day.tick).0
            && Rests(Run(c, s, es), serverID, VersionAfter(version, day.tick))
  {
    hide Turn, Run, Observed, Seen, Apply, Serves;
    var edit := ByAgent(LocalEdit(serverID, day.tick.digest));
    var rest := [ByAgent(CheckDigest(serverID)), ByAgent(Execute(day.tick.task.value, serverID, day.tick))];
    assert PollSteps(serverID, day) == [poll, edit] + rest;
    EditSeen(c, given, serverID, day.tick.digest);
    ObservedTwo(c, s, poll, edit, serverID);
    TaskHandled(c, Apply(c, given, edit), serverID, version, day.tick);
    ObservedAppend(c, s, [poll, edit], rest, serverID);
    RunAppend(c, s, [poll, edit], rest);
  }

  /** A successful installation changes the version that runs after the restart. */
  function VersionAfter(version: string, tick: Tick): string {
    if tick.pollOK && tick.task.Some? && Turn(version, tick).1 then TextOf(tick.task.value.args, "version") else version
  }

  /** One tick. */
  lemma TickShows(c: Config, s: State, serverID: string, version: string, day: Day)
    requires Rests(s, serverID, version) && Meets(c, s, serverID, version, day)
    ensures var es := TickSteps(s, serverID, day);
            && Observed(c, s, es, serverID) == TickActions(version, day.tick)
            && Rests(Run(c, s, es), serverID, if day.tick.beatOK then VersionAfter(version, day.tick) else version)
  {
    hide Turn, Run, Observed, Seen, Apply, Serves, PollSteps, VersionAfter, R.BeatEvents, UpdatesConfirmed;
    if day.tick.beatOK {
      var beat := R.BeatEvents(serverID, |s.beats|, day.request);
      BeatSucceeds(c, s, serverID, version, day.request);
      R.BeatGetsThrough(c, s, serverID, day.request);
      PollShows(c, Run(c, s, beat), serverID, version, day);
      ObservedAppend(c, s, beat, PollSteps(serverID, day), serverID);
      RunAppend(c, s, beat, PollSteps(serverID, day));
    } else {
      BeatFails(c, s, serverID, version);
      assert TickSteps(s, serverID, day) == BeatSteps(s, serverID, false, day.request);
    }
  }

  // ---------- a life ----------

  /** The days follow on each other: between the ticks anything happens elsewhere, and
      at each tick the controller answers as the Agent is answered. */
  predicate Lived(c: Config, s: State, serverID: string, version: string, days: seq<Day>)
    decreases |days|
  {
    days != [] ==>
      var t := Run(c, s, days[0].before);
      && (forall i :: 0 <= i < |days[0].before| ==> Elsewhere(days[0].before[i], serverID))
      && Meets(c, t, serverID, version, days[0])
      && (!Stops(version, days[0].tick) ==>
          Lived(c, Run(c, t, TickSteps(t, serverID, days[0])), serverID, version, days[1..]))
  }

  function DaySteps(c: Config, s: State, serverID: string, day: Day): seq<Event> {
    day.before + TickSteps(Run(c, s, day.before), serverID, day)
  }

  function Steps(c: Config, s: State, serverID: string, version: string, days: seq<Day>): seq<Event>
    decreases |days|
  {
    if days == [] then []
    else
      var day := DaySteps(c, s, serverID, days[0]);
      if Stops(version, days[0].tick) then day else day + Steps(c, Run(c, s, day), serverID, version, days[1..])
  }

  function Ticks(days: seq<Day>): seq<Tick> {
    seq(|days|, i requires 0 <= i < |days| => days[i].tick)
  }

  lemma DayShows(c: Config, s: State, serverID: string, version: string, day: Day)
    requires Rests(s, serverID, version) && Meets(c, Run(c, s, day.before), serverID, version, day)
    requires forall i :: 0 <= i < |day.before| ==> Elsewhere(day.before[i], serverID)
    ensures var t := Run(c, s, day.before);
            Run(c, s, DaySteps(c, s, serverID, day)) == Run(c, t, TickSteps(t, serverID, day))
    ensures Observed(c, s, DaySteps(c, s, serverID, day), serverID) == TickActions(version, day.tick)
    ensures !Stops(version, day.tick) ==> Rests(Run(c, s, DaySteps(c, s, serverID, day)), serverID, version)
  {
    hide Turn, Run, Observed, TickSteps, Meets;
    var t := Run(c, s, day.before);
    WaitRests(c, s, day.before, serverID, version);
    TickShows(c, t, serverID, version, day);
    ObservedAppend(c, s, day.before, TickSteps(t, serverID, day), serverID);
    RunAppend(c, s, day.before, TickSteps(t, serverID, day));
  }

  lemma TraceIs(version: string, ticks: seq<Tick>)
    requires ticks != []
    ensures Trace(version, ticks) ==
            TickActions(version, ticks[0]) + if Stops(version, ticks[0]) then [] else Trace(version, ticks[1..])
  {
    hide Turn;
  }

  lemma {:induction false} TraceShows(c: Config, s: State, serverID: string, version: string, days: seq<Day>)
    requires Rests(s, serverID, version) && Lived(c, s, serverID, version, days)
    ensures Observed(c, s, Steps(c, s, serverID, version, days), serverID) == Trace(version, Ticks(days))
    decreases |days|
  {
    hide Run, Meets, Elsewhere, Rests, TickSteps, DaySteps, Stops, TickActions, Trace;
    if days != [] {
      var day := DaySteps(c, s, serverID, days[0]);
      DayShows(c, s, serverID, version, days[0]);
      assert Ticks(days)[1..] == Ticks(days[1..]);
      TraceIs(version, Ticks(days));
      if !Stops(version, days[0].tick) {
        TraceShows(c, Run(c, s, day), serverID, version, days[1..]);
        ObservedAppend(c, s, day, Steps(c, Run(c, s, day), serverID, version, days[1..]), serverID);
      }
    } else {
      assert Trace(version, []) == [] by { EmptyTrace(version); }
    }
  }

  lemma EmptyTrace(version: string)
    ensures Trace(version, []) == []
  {
  }

  /** The first heartbeat, which no poll follows: a restart as the same version leads back
      from being ready to poll. */
  function FirstSteps(s: State, serverID: string, version: string, first: bool, request: nat): seq<Event> {
    BeatSteps(s, serverID, first, request) + if first then [ByAgent(RestartAgent(serverID, version))] else []
  }

  lemma RestartUnseen(c: Config, s: State, serverID: string, version: string)
    requires MayPoll(s, serverID, version)
    ensures var restart := ByAgent(RestartAgent(serverID, version));
            Rests(Apply(c, s, restart), serverID, version) && Seen(c, s, restart, serverID) == []
  {
  }

  lemma FirstShows(c: Config, s: State, serverID: string, version: string, first: bool, request: nat)
    requires Rests(s, serverID, version) && (first ==> CanBeat(s, serverID, request))
    ensures var es := FirstSteps(s, serverID, version, first, request);
            Rests(Run(c, s, es), serverID, version) && Observed(c, s, es, serverID) == [SentBeat(first)]
  {
    hide Run, Observed, Seen, Apply, R.BeatEvents, UpdatesConfirmed;
    if first {
      var beat, restart := R.BeatEvents(serverID, |s.beats|, request), ByAgent(RestartAgent(serverID, version));
      BeatSucceeds(c, s, serverID, version, request);
      R.BeatGetsThrough(c, s, serverID, request);
      var ready := Run(c, s, beat);
      RestartUnseen(c, ready, serverID, version);
      ObservedOne(c, ready, restart, serverID);
      ObservedAppend(c, s, beat, [restart], serverID);
      RunAppend(c, s, beat, [restart]);
    } else {
      BeatFails(c, s, serverID, version);
      assert FirstSteps(s, serverID, version, first, request) == BeatSteps(s, serverID, false, request);
    }
  }

  /** The whole life of an Agent is a schedule of the machine: what the machine shows of
      it is the trace of its loop, action by action, whatever happens elsewhere. */
  lemma LifeIsSchedule(c: Config, s: State, serverID: string, version: string, first: bool, request: nat,
                       days: seq<Day>)
    requires Rests(s, serverID, version) && (first ==> CanBeat(s, serverID, request))
    requires Lived(c, Run(c, s, FirstSteps(s, serverID, version, first, request)), serverID, version, days)
    ensures var start := FirstSteps(s, serverID, version, first, request);
            Observed(c, s, start + Steps(c, Run(c, s, start), serverID, version, days), serverID) ==
              Life(version, first, Ticks(days))
  {
    hide Run, Observed, Rests, FirstSteps, Steps, Trace, Lived, CanBeat;
    var start := FirstSteps(s, serverID, version, first, request);
    FirstShows(c, s, serverID, version, first, request);
    TraceShows(c, Run(c, s, start), serverID, version, days);
    ObservedAppend(c, s, start, Steps(c, Run(c, s, start), serverID, version, days), serverID);
  }
}
