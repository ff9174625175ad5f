/** Which servers a batch action reaches: the preflight report, the eligibility
    loop of the rollout itself, and the prefix that a strategy selects. */
module Rollout {
  import opened Types
  import opened Digits
  import opened Patterns

  type Servers = map<string, Server>

  const SELF_UPDATE := "self_update_v1"

  method SupportsAgentUpdate(server: Server) returns (supports: bool)
    ensures supports <==> SELF_UPDATE in server.agentFeatures
  {
    for i := 0 to |server.agentFeatures|
      invariant SELF_UPDATE !in server.agentFeatures[..i]
    {
      if server.agentFeatures[i] == SELF_UPDATE {
        return true;
      }
    }
    return false;
  }

  // ---------- trimming ----------

  predicate IsSpace(c: char) {
    c in " \t\n\r\U{000B}\U{000C}\U{0085}\U{00A0}\U{1680}\U{2028}\U{2029}\U{202F}\U{205F}\U{3000}"
    || '\U{2000}' <= c <= '\U{200A}'
  }

  function TrimSpace(s: string): string {
    if s == "" then ""
    else if IsSpace(s[0]) then TrimSpace(s[1..])
    else if IsSpace(s[|s| - 1]) then TrimSpace(s[..|s| - 1])
    else s
  }

  /** Only spaces go, from both ends, and all of them. */
  lemma {:induction false} TrimmedIs(s: string) returns (before: string, after: string)
    ensures s == before + TrimSpace(s) + after
    ensures forall i :: 0 <= i < |before| ==> IsSpace(before[i])
    ensures forall i :: 0 <= i < |after| ==> IsSpace(after[i])
    ensures var t := TrimSpace(s); t != "" ==> !IsSpace(t[0]) && !IsSpace(t[|t| - 1])
    decreases |s|
  {
    hide IsSpace;
    before, after := "", "";
    if s != "" && IsSpace(s[0]) {
      before, after := TrimmedIs(s[1..]);
      assert s == [s[0]] + s[1..];
      before := [s[0]] + before;
    } else if s != "" && IsSpace(s[|s| - 1]) {
      before, after := TrimmedIs(s[..|s| - 1]);
      assert s == s[..|s| - 1] + [s[|s| - 1]];
      after := after + [s[|s| - 1]];
    }
  }

  lemma VersionKeepsItsText(version: string)
    requires ValidVersion(version)
    ensures TrimSpace(version) == version
  {
    var first, last := version[0], version[|version| - 1];
    assert last == first || Letter(last) || IsDigit(last) || last in "._+-";
    assert forall c: char :: Letter(c) || IsDigit(c) || c in "._+-" ==> !IsSpace(c);
  }

  // ---------- the two tests ----------

  /** The test that enqueueing and the rollout apply to a known server. */
  predicate Eligible(server: Server, serverID: string, action: string, args: Args) {
    if action == AGENT_UPDATE then
      && serverID != LOCAL
      && server.online
      && SELF_UPDATE in server.agentFeatures
      && server.agentVersion != TextOf(args, "version")
    else
      serverID == LOCAL || server.online
  }

  predicate RolloutTakes(servers: Servers, action: string, args: Args, id: string) {
    id in servers && Eligible(servers[id], id, action, args)
  }

  datatype Candidate = Candidate(id: string, online: bool, digest: string, agentVersion: string, reason: string)

  /** The report's verdict on one requested id, in the order of its tests. */
  function Judge(servers: Servers, action: string, args: Args, id: string): Candidate {
    if id !in servers then Candidate(id, false, "", "", "server not found")
    else
      var server := servers[id];
      var reason :=
        if action == AGENT_UPDATE && server.id == LOCAL then "local controller is updated separately"
        else if server.id != LOCAL && !server.online then "offline"
        else if action == AGENT_UPDATE && SELF_UPDATE !in server.agentFeatures then
          "self-update unsupported; run sudo sb-web update once"
        else if action == AGENT_UPDATE && server.agentVersion == TrimSpace(TextOf(args, "version")) then
          "already current"
        else "";
      Candidate(server.id, server.online, server.digest, server.agentVersion, reason)
  }

  predicate KeyedServers(servers: Servers) {
    forall id <- servers :: servers[id].id == id
  }

  /** What request validation lets through to both endpoints. */
  predicate Accepted(action: string, args: Args) {
    action == AGENT_UPDATE ==> |args| == 1 && ValidVersion(TextOf(args, "version"))
  }

  function Kept(ids: seq<string>, keep: string -> bool): seq<string> {
    if ids == [] then [] else (if keep(ids[0]) then [ids[0]] else []) + Kept(ids[1..], keep)
  }

  lemma {:induction false} KeptAppend(ids: seq<string>, id: string, keep: string -> bool)
    ensures Kept(ids + [id], keep) == Kept(ids, keep) + if keep(id) then [id] else []
  {
    if ids != [] {
      KeptAppend(ids[1..], id, keep);
      assert (ids + [id])[1..] == ids[1..] + [id];
    }
  }

  /** Every requested position is kept by one test or by its opposite. */
  lemma {:induction false} KeptPartition(ids: seq<string>, keep: string -> bool)
    ensures multiset(Kept(ids, keep)) + multiset(Kept(ids, id => !keep(id))) == multiset(ids)
    ensures |Kept(ids, keep)| + |Kept(ids, id => !keep(id))| == |ids|
  {
    if ids != [] {
      KeptPartition(ids[1..], keep);
      assert ids == [ids[0]] + ids[1..];
    }
  }

  lemma {:induction false} KeptAreKept(ids: seq<string>, keep: string -> bool)
    ensures forall id <- Kept(ids, keep) :: id in ids && keep(id)
    ensures |Kept(ids, keep)| <= |ids|
  {
    if ids != [] {
      KeptAreKept(ids[1..], keep);
    }
  }

  lemma {:induction false} KeptSame(ids: seq<string>, p: string -> bool, q: string -> bool)
    requires forall id <- ids :: p(id) == q(id)
    ensures Kept(ids, p) == Kept(ids, q)
  {
    if ids != [] {
      KeptSame(ids[1..], p, q);
    }
  }

  function CandidateIDs(cs: seq<Candidate>): seq<string> {
    seq(|cs|, i requires 0 <= i < |cs| => cs[i].id)
  }

  method BatchEligible(servers: Servers, ids: seq<string>, action: string, args: Args) returns (eligible: seq<string>)
    ensures eligible == Kept(ids, id => RolloutTakes(servers, action, args, id))
  {
    ghost var keep := (id: string) => RolloutTakes(servers, action, args, id);
    eligible := [];
    for i := 0 to |ids|
      invariant eligible == Kept(ids[..i], keep)
    {
      KeptAppend(ids[..i], ids[i], keep);
      assert ids[..i + 1] == ids[..i] + [ids[i]];
      if ids[i] in servers {
        var server := servers[ids[i]];
        var supports := SupportsAgentUpdate(server);
        if action == AGENT_UPDATE {
          var version := TextOf(args, "version");
          if !(ids[i] == LOCAL || !server.online || !supports || server.agentVersion == version) {
            eligible := eligible + [ids[i]];
          }
        } else if !(ids[i] != LOCAL && !server.online) {
          eligible := eligible + [ids[i]];
        }
      }
    }
    assert ids[..|ids|] == ids;
  }

  /** The report lists exactly the servers that the rollout would take, in the
      same order and as often; eligible and skipped partition the request. */
  method Preflight(servers: Servers, ids: seq<string>, action: string, args: Args)
    returns (eligible: seq<Candidate>, skipped: seq<Candidate>)
    requires KeyedServers(servers) && Accepted(action, args)
    ensures CandidateIDs(eligible) == Kept(ids, id => RolloutTakes(servers, action, args, id))
    ensures CandidateIDs(skipped) == Kept(ids, id => !RolloutTakes(servers, action, args, id))
    ensures multiset(CandidateIDs(eligible)) + multiset(CandidateIDs(skipped)) == multiset(ids)
    ensures forall c <- eligible :: c == Judge(servers, action, args, c.id) && c.reason == ""
    ensures forall c <- skipped :: c == Judge(servers, action, args, c.id) && c.reason != ""
  {
    ghost var keep := (id: string) => RolloutTakes(servers, action, args, id);
    ghost var drop := (id: string) => !RolloutTakes(servers, action, args, id);
    eligible, skipped := [], [];
    for i := 0 to |ids|
      invariant CandidateIDs(eligible) == Kept(ids[..i], keep)
      invariant CandidateIDs(skipped) == Kept(ids[..i], drop)
      invariant forall c <- eligible :: c == Judge(servers, action, args, c.id) && c.reason == ""
      invariant forall c <- skipped :: c == Judge(servers, action, args, c.id) && c.reason != ""
    {
      KeptAppend(ids[..i], ids[i], keep);
      KeptAppend(ids[..i], ids[i], drop);
      assert ids[..i + 1] == ids[..i] + [ids[i]];
      JudgesAgree(servers, action, args, ids[i]);
      var item := Judge(servers, action, args, ids[i]);
      if item.reason == "" {
        eligible := eligible + [item];
      } else {
        skipped := skipped + [item];
      }
    }
    assert ids[..|ids|] == ids;
    KeptPartition(ids, keep);
    KeptSame(ids, drop, id => !keep(id));
  }

  /** The report and the rollout test in different orders, and one of them trims
      the version; on accepted requests they decide alike. */
  lemma JudgesAgree(servers: Servers, action: string, args: Args, id: string)
    requires KeyedServers(servers) && Accepted(action, args)
    ensures Judge(servers, action, args, id).id == id
    ensures Judge(servers, action, args, id).reason == "" <==> RolloutTakes(servers, action, args, id)
  {
    if action == AGENT_UPDATE {
      VersionKeepsItsText(TextOf(args, "version"));
    }
  }

  /** What the report says of a server, and exactly why it is skipped. */
  lemma ReasonsAre(servers: Servers, action: string, args: Args, id: string)
    requires KeyedServers(servers) && Accepted(action, args)
    ensures var c := Judge(servers, action, args, id);
            && (c.reason == "server not found" <==> id !in servers)
            && (id in servers ==>
                  var server := servers[id]; var supports := "self_update_v1" in server.agentFeatures;
                  && c == Candidate(id, server.online, server.digest, server.agentVersion, c.reason)
                  && (c.reason == "local controller is updated separately"
                      <==> action == "agent.update" && id == "local")
                  && (c.reason == "offline" <==> id != "local" && !server.online)
                  && (c.reason == "self-update unsupported; run sudo sb-web update once" <==>
                        action == "agent.update" && id != "local" && server.online && !supports)
                  && (c.reason == "already current" <==>
                        && action == "agent.update" && id != "local" && server.online && supports
                        && args["version"] == Text(server.agentVersion)))
  {
    if action == AGENT_UPDATE {
      VersionKeepsItsText(TextOf(args, "version"));
    }
    hide ValidVersion, TrimSpace;
  }

  // ---------- strategies ----------

  datatype Strategy = All | Canary | Percentage(percent: int)

  predicate ValidStrategy(strategy: Strategy) {
    strategy.Percentage? ==> 1 <= strategy.percent <= 100
  }

  /** How many of `n` eligible servers a strategy takes. */
  function Limit(n: nat, strategy: Strategy): int {
    var wanted := match strategy
      case All => n
      case Canary => 1
      case Percentage(p) =>
        var part := (n * p + 99) / 100;
        if part < 1 && n > 0 then 1 else part;
    if wanted > n then n else wanted
  }

  function LimitOf(eligible: seq<string>, strategy: Strategy): (n: nat)
    requires ValidStrategy(strategy)
    ensures n <= |eligible|
  {
    LimitIsCeiling(|eligible|, strategy);
    Limit(|eligible|, strategy)
  }

  /** The targets are a prefix of the eligible servers: never empty when there is
      one, and of length `n * p / 100` rounded up. */
  lemma LimitIsCeiling(n: nat, strategy: Strategy)
    requires ValidStrategy(strategy)
    ensures 0 <= Limit(n, strategy) <= n
    ensures n > 0 ==> Limit(n, strategy) >= 1
    ensures strategy.All? ==> Limit(n, strategy) == n
    ensures strategy.Percentage? ==>
              (Limit(n, strategy) - 1) * 100 < n * strategy.percent <= Limit(n, strategy) * 100
  {
  }

  /** A larger percentage reaches every server of a smaller one, and every
      percentage reaches the canary. */
  lemma TargetsNested(eligible: seq<string>, p: int, q: int)
    requires 1 <= p <= q <= 100
    ensures 0 <= Limit(|eligible|, Canary) <= Limit(|eligible|, Percentage(p))
    ensures Limit(|eligible|, Percentage(p)) <= Limit(|eligible|, Percentage(q)) <= |eligible|
    ensures eligible[..Limit(|eligible|, Canary)] <= eligible[..Limit(|eligible|, Percentage(p))]
    ensures eligible[..Limit(|eligible|, Percentage(p))] <= eligible[..Limit(|eligible|, Percentage(q))]
    ensures eligible[..Limit(|eligible|, Percentage(100))] == eligible
  {
    var n := |eligible|;
    LimitIsCeiling(n, Percentage(p));
    LimitIsCeiling(n, Percentage(q));
    LimitIsCeiling(n, Percentage(100));
    assert n * p <= n * q;
  }
}
