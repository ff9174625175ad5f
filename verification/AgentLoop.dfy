/** The Agent as it is written: one heartbeat per tick, one poll behind each heartbeat
    that succeeded, one report for each task it was handed. */
module AgentLoop {
  import opened Types
  import opened Patterns
  import opened Protocol

  /** What running a command, or installing a version, came to. */
  datatype Ran = Ran(failure: Option<string>, stdout: string, stderr: string)

  /** The answers of the world to one tick of the ticker: whether the heartbeat got
      through, whether the poll did and with which task, the digest read at the check,
      why the encoder refuses the action if it does, what the command or installation
      came to, and the digest afterwards. */
  datatype Tick = Tick(beatOK: bool, pollOK: bool, task: Option<Task>, digest: Option<string>, refusal: Option<string>,
                       ran: Ran, after: Option<string>)

  datatype Action =
    | SentBeat(ok: bool)
    | SentPoll
    /** A command or an installation started. */
    | Launched(task: Task)
    | SentResult(taskID: string, success: bool, output: string, problem: string)

  function ProblemText(ran: Ran): string {
    match ran.failure case Some(e) => e + "\n" + ran.stderr case None => ""
  }

  predicate Drifted(task: Task, digest: Option<string>) {
    NeedsDigest(task) && digest != Some(task.digest)
  }

  /** An update that has to be installed: valid, and not the running version. */
  predicate Installs(task: Task, version: string) {
    task.action == AGENT_UPDATE && ValidVersion(TextOf(task.args, "version")) && TextOf(task.args, "version") != version
  }

  /** The one report about a task. */
  function ReportFor(task: Task, version: string, digest: Option<string>, ran: Ran): (r: Action)
    ensures r.SentResult? && r.taskID == task.id
  {
    if Drifted(task, digest) then SentResult(task.id, false, "", DRIFT)
    else if task.action == AGENT_UPDATE && !ValidVersion(TextOf(task.args, "version")) then
      SentResult(task.id, false, "", INVALID_VERSION + "\n")
    else if task.action == AGENT_UPDATE && TextOf(task.args, "version") == version then
      SentResult(task.id, true, "Agent is already running version " + version, "")
    else SentResult(task.id, ran.failure.None?, ran.stdout, ProblemText(ran))
  }

  /** Whether something is started for a task. */
  predicate Starts(task: Task, version: string, tick: Tick) {
    if task.action == AGENT_UPDATE then Installs(task, version) else !Drifted(task, tick.digest) && tick.refusal.None?
  }

  /** What the execution of a task came to; a refused action leaves no output. */
  function Result(task: Task, tick: Tick): Ran {
    if task.action != AGENT_UPDATE && tick.refusal.Some? then Ran(tick.refusal, "", "") else tick.ran
  }

  /** What one poll does, and whether the Agent then stops to be restarted. */
  function Turn(version: string, tick: Tick): (seq<Action>, bool) {
    if !tick.pollOK || tick.task.None? then ([SentPoll], false)
    else
      var task := tick.task.value;
      ([SentPoll] + (if Starts(task, version, tick) then [Launched(task)] else [])
                  + [ReportFor(task, version, tick.digest, Result(task, tick))],
       Installs(task, version) && tick.ran.failure.None?)
  }

  /** A registered Agent from its start: a first heartbeat whose failure does not
      matter, then the loop over the ticks that come before it is stopped. */
  function Life(version: string, first: bool, ticks: seq<Tick>): seq<Action> {
    [SentBeat(first)] + Trace(version, ticks)
  }

  function Trace(version: string, ticks: seq<Tick>): seq<Action> {
    if ticks == [] then []
    else if !ticks[0].beatOK then [SentBeat(false)] + Trace(version, ticks[1..])
    else
      var (actions, restart) := Turn(version, ticks[0]);
      [SentBeat(true)] + actions + if restart then [] else Trace(version, ticks[1..])
  }

  /** What is reported about a task that was handed out, in the words of the Agent, and
      whether something was started for it. */
  lemma TurnReports(version: string, tick: Tick)
    requires tick.pollOK && tick.task.Some?
    ensures var task, ran := tick.task.value, tick.ran; var actions := Turn(version, tick).0;
            var given := "version" in task.args && task.args["version"].Text?;
            var wanted := if given then task.args["version"].text else "";
            if task.action != "agent.update" && task.digest != "" && tick.digest != Some(task.digest)
            then actions ==
              [SentPoll, SentResult(task.id, false, "", "state drift detected; refresh the server before retrying")]
            else if task.action == "agent.update" && !ValidVersion(wanted)
            then actions == [SentPoll, SentResult(task.id, false, "", "invalid Agent update version" + "\n")]
            else if task.action == "agent.update" && wanted == version
            then actions == [SentPoll, SentResult(task.id, true, "Agent is already running version " + version, "")]
            else if task.action != "agent.update" && tick.refusal.Some?
            then actions == [SentPoll, SentResult(task.id, false, "", tick.refusal.value + "\n")]
            else
              var problem := if ran.failure.Some? then ran.failure.value + "\n" + ran.stderr else "";
              actions == [SentPoll, Launched(task), SentResult(task.id, ran.failure.None?, ran.stdout, problem)]
    ensures Turn(version, tick).1 <==>
            && tick.ran.failure.None? && tick.task.value.action == "agent.update"
            && Launched(tick.task.value) in Turn(version, tick).0
  {
    hide ValidVersion;
    if tick.refusal.Some? {
      assert tick.refusal.value + "\n" + "" == tick.refusal.value + "\n";
    }
  }

  class Agent {
    const version: string
    var done: seq<Action>

    constructor (version: string)
      ensures this.version == version && done == []
    {
      this.version, done := version, [];
    }

    method Heartbeat(answered: bool) returns (ok: bool)
      modifies this`done
      ensures ok == answered && done == old(done) + [SentBeat(ok)]
    {
      ok := answered;
      done := done + [SentBeat(ok)];
    }

    method Poll(tick: Tick) returns (restart: bool)
      modifies this`done
      ensures done == old(done) + Turn(version, tick).0
      ensures restart == Turn(version, tick).1
    {
      done := done + [SentPoll];
      if !tick.pollOK || tick.task.None? {
        return false;
      }
      var task := tick.task.value;
      if task.action != AGENT_UPDATE && task.digest != "" {
        if tick.digest.None? || tick.digest.value != task.digest {
          done := done + [SentResult(task.id, false, "", DRIFT)];
          assert done == old(done) + ([SentPoll] + [] + [SentResult(task.id, false, "", DRIFT)]);
          return false;
        }
      }
      var result := Ran(None, "", "");
      restart := false;
      if task.action == AGENT_UPDATE {
        var wanted := TextOf(task.args, "version");
        if !ValidVersion(wanted) {
          result := result.(failure := Some(INVALID_VERSION));
          assert INVALID_VERSION + "\n" + "" == INVALID_VERSION + "\n";
        } else if wanted == version {
          result := result.(stdout := "Agent is already running version " + wanted);
        } else {
          done := done + [Launched(task)];
          result := tick.ran;
          restart := result.failure.None?;
        }
      } else if tick.refusal.Some? {
        result := result.(failure := tick.refusal);
      } else {
        done := done + [Launched(task)];
        result := tick.ran;
      }
      var problem := if result.failure.Some? then result.failure.value + "\n" + result.stderr else "";
      done := done + [SentResult(task.id, result.failure.None?, result.stdout, problem)];
      assert done == old(done) + ([SentPoll] + (if Starts(task, version, tick) then [Launched(task)] else [])
                                  + [SentResult(task.id, result.failure.None?, result.stdout, problem)]);
    }

    /** The loop over the ticker; a successful installation ends it. */
    method Run(first: bool, ticks: seq<Tick>)
      modifies this`done
      ensures done == old(done) + Life(version, first, ticks)
    {
      var _ := Heartbeat(first);
      ghost var start := done;
      assert start + Trace(version, ticks) == old(done) + Life(version, first, ticks);
      var i := 0;
      assert ticks[0..] == ticks;
      while i < |ticks|
        invariant i <= |ticks|
        invariant done + Trace(version, ticks[i..]) == start + Trace(version, ticks)
      {
        assert ticks[i..][1..] == ticks[i + 1..];
        TraceStep(version, ticks[i..], done);
        var ok := Heartbeat(ticks[i].beatOK);
        if ok {
          var restart := Poll(ticks[i]);
          if restart {
            return;
          }
        }
        i := i + 1;
      }
    }
  }

  lemma TraceStep(version: string, ticks: seq<Tick>, done: seq<Action>)
    requires ticks != []
    ensures var (actions, restart) := Turn(version, ticks[0]);
            done + Trace(version, ticks) ==
            if !ticks[0].beatOK then done + [SentBeat(false)] + Trace(version, ticks[1..])
            else if restart then done + [SentBeat(true)] + actions
            else done + [SentBeat(true)] + actions + Trace(version, ticks[1..])
    ensures ticks[0].beatOK && Turn(version, ticks[0]).1 ==>
              Trace(version, ticks) == [SentBeat(true)] + Turn(version, ticks[0]).0
  {
    hide Turn;
  }

  // ---------- what a trace looks like ----------

  /** Polls follow heartbeats that got through; a launch follows a poll and is followed
      by the result of the same task; a result follows one of these. */
  predicate InOrder(trace: seq<Action>, i: nat)
    requires i < |trace|
  {
    match trace[i]
    case SentBeat(_) => true
    case SentPoll => i > 0 && trace[i - 1] == SentBeat(true)
    case Launched(task) =>
      i > 0 && trace[i - 1].SentPoll? && i + 1 < |trace| && trace[i + 1].SentResult? && trace[i + 1].taskID == task.id
    case SentResult(_, _, _, _) => i > 0 && (trace[i - 1].SentPoll? || trace[i - 1].Launched?)
  }

  /** An Agent never polls without a heartbeat that got through just before, and never
      launches a task without reporting on it next. */
  lemma LifeInOrder(version: string, first: bool, ticks: seq<Tick>)
    ensures forall i :: 0 <= i < |Life(version, first, ticks)| ==> InOrder(Life(version, first, ticks), i)
  {
    TraceInOrder(version, ticks);
    InOrderBehind([SentBeat(first)], Trace(version, ticks));
    hide InOrder, Trace;
  }

  lemma {:induction false} TraceInOrder(version: string, ticks: seq<Tick>)
    ensures forall i :: 0 <= i < |Trace(version, ticks)| ==> InOrder(Trace(version, ticks), i)
    ensures Trace(version, ticks) != [] ==> Trace(version, ticks)[0].SentBeat?
    decreases |ticks|
  {
    if ticks != [] {
      var rest := Trace(version, ticks[1..]);
      TraceInOrder(version, ticks[1..]);
      if !ticks[0].beatOK {
        InOrderBehind([SentBeat(false)], rest);
      } else {
        var (actions, restart) := Turn(version, ticks[0]);
        TurnInOrder(version, ticks[0]);
        if !restart {
          InOrderBehind([SentBeat(true)] + actions, rest);
        }
      }
    }
    hide Turn, InOrder;
  }

  lemma TurnInOrder(version: string, tick: Tick)
    ensures var head := [SentBeat(true)] + Turn(version, tick).0;
            forall i :: 0 <= i < |head| ==> InOrder(head, i)
  {
  }

  lemma InOrderBehind(head: seq<Action>, rest: seq<Action>)
    requires forall i :: 0 <= i < |head| ==> InOrder(head, i)
    requires forall i :: 0 <= i < |rest| ==> InOrder(rest, i)
    requires rest != [] ==> rest[0].SentBeat?
    ensures forall i :: 0 <= i < |head + rest| ==> InOrder(head + rest, i)
  {
    forall i | 0 <= i < |head + rest|
      ensures InOrder(head + rest, i)
    {
      if i < |head| {
        assert InOrder(head, i);
      } else {
        assert InOrder(rest, i - |head|);
      }
    }
  }

  // ---------- a turn of the loop is a schedule of the machine ----------

  /** What a turn adds at the machine: one report, at most one execution, perhaps a
      new version; the Agent is idle again. */
  predicate Came(s: State, t: State, serverID: string, task: Task, digest: Option<string>, starts: bool,
                 version: string, result: Action)
    requires result.SentResult?
  {
    && t.reports == s.reports + [Report(serverID, result.taskID, result.success, result.output, result.problem)]
    && t.executed == s.executed + (if starts then [Execution(serverID, task, digest)] else [])
    && serverID in t.agents && t.agents[serverID].phase.Idle? && t.agents[serverID].version == version
    && t.tasks == s.tasks && t.servers == s.servers
  }

  lemma DriftCame(s: State, serverID: string, version: string, ran: Ran)
    requires serverID in s.agents && s.agents[serverID].phase.Given? && s.agents[serverID].version == version
    requires Drifted(s.agents[serverID].phase.task, s.agents[serverID].digest)
    ensures var a := s.agents[serverID]; var t := DoCheckDigest(s, serverID);
            && Came(s, t, serverID, a.phase.task, a.digest, false, version,
                    ReportFor(a.phase.task, version, a.digest, ran))
            && a.phase.task.action != AGENT_UPDATE
  {
  }

  lemma CommandCame(s: State, serverID: string, version: string, ran: Ran, after: Option<string>)
    requires serverID in s.agents && s.agents[serverID].phase.Given? && s.agents[serverID].version == version
    requires var a := s.agents[serverID]; !Drifted(a.phase.task, a.digest) && a.phase.task.action != AGENT_UPDATE
    ensures var a := s.agents[serverID];
            var t := DoRunCommand(DoCheckDigest(s, serverID), serverID, ran.failure.None?, after, ran.stdout,
                                  ProblemText(ran));
            Came(s, t, serverID, a.phase.task, a.digest, true, version, ReportFor(a.phase.task, version, a.digest, ran))
  {
  }

  lemma RefusalCame(s: State, serverID: string, version: string, refusal: string)
    requires serverID in s.agents && s.agents[serverID].phase.Given? && s.agents[serverID].version == version
    requires var a := s.agents[serverID]; !Drifted(a.phase.task, a.digest) && a.phase.task.action != AGENT_UPDATE
    ensures var a := s.agents[serverID]; var ran := Ran(Some(refusal), "", "");
            var t := DoRefuseCommand(DoCheckDigest(s, serverID), serverID, ProblemText(ran));
            Came(s, t, serverID, a.phase.task, a.digest, false, version,
                 ReportFor(a.phase.task, version, a.digest, ran))
  {
    assert s.executed + [] == s.executed;
  }

  lemma UpdateCame(s: State, serverID: string, version: string, ran: Ran)
    requires serverID in s.agents && s.agents[serverID].phase.Given? && s.agents[serverID].version == version
    requires s.agents[serverID].phase.task.action == AGENT_UPDATE
    ensures var a := s.agents[serverID]; var task := a.phase.task;
            var t := DoSelfUpdate(DoCheckDigest(s, serverID), serverID, ran.failure.None?, ran.stdout,
                                  ProblemText(ran));
            Came(s, t, serverID, task, a.digest, Installs(task, version),
                 if Installs(task, version) && ran.failure.None? then TextOf(task.args, "version") else version,
                 ReportFor(task, version, a.digest, ran))
  {
  }

  /** What the Agent does behind the digest check; after drift it finds nothing to do. */
  function Execute(task: Task, serverID: string, tick: Tick): AgentEvent {
    var ran := Result(task, tick);
    if task.action == AGENT_UPDATE then SelfUpdate(serverID, ran.failure.None?, ran.stdout, ProblemText(ran))
    else if tick.refusal.Some? then RefuseCommand(serverID, ProblemText(ran))
    else RunCommand(serverID, ran.failure.None?, tick.after, ran.stdout, ProblemText(ran))
  }

  lemma NothingCleared(s: State, e: AgentEvent)
    requires e.SelfUpdate? || e.RefuseCommand? || e.RunCommand?
    requires e.serverID in s.agents && !s.agents[e.serverID].phase.Cleared?
    ensures ApplyAgent(s, e) == s
  {
  }

  /** Handed a task, the Agent sends exactly the report that the machine sends, starts
      something exactly when the machine does, and comes back with the same version. */
  lemma TurnIsSchedule(c: Config, s: State, serverID: string, tick: Tick)
    requires serverID in s.agents && tick.pollOK && tick.task.Some?
             && s.agents[serverID].phase == Given(tick.task.value)
    requires s.agents[serverID].digest == tick.digest
    ensures var a := s.agents[serverID]; var task := tick.task.value;
            var t := Run(c, s, [ByAgent(CheckDigest(serverID)), ByAgent(Execute(task, serverID, tick))]);
            var (actions, restart) := Turn(a.version, tick);
            && actions[|actions| - 1].SentResult?
            && Came(s, t, serverID, task, tick.digest, Launched(task) in actions,
                    if restart then TextOf(task.args, "version") else a.version, actions[|actions| - 1])
  {
    hide Came, ReportFor, ProblemText, ValidVersion;
    var a, task := s.agents[serverID], tick.task.value;
    RunTwo(c, s, ByAgent(CheckDigest(serverID)), ByAgent(Execute(task, serverID, tick)));
    hide Run;
    if Drifted(task, tick.digest) {
      DriftCame(s, serverID, a.version, Result(task, tick));
      NothingCleared(DoCheckDigest(s, serverID), Execute(task, serverID, tick));
    } else if task.action == AGENT_UPDATE {
      UpdateCame(s, serverID, a.version, tick.ran);
    } else if tick.refusal.Some? {
      RefusalCame(s, serverID, a.version, tick.refusal.value);
    } else {
      CommandCame(s, serverID, a.version, tick.ran, tick.after);
    }
    hide DoCheckDigest, DoRunCommand, DoRefuseCommand, DoSelfUpdate;
  }
}
