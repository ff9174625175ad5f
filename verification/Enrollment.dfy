/** Joining a server with an enrollment token: issue, precheck, and the transaction
    that spends the token and inserts the server. Registrations run concurrently;
    heartbeats and revocations change the server table meanwhile. */
module Enrollment {
  import opened Timestamps
  import opened Types

  type Tokens = map<string, EnrollmentToken>
  type Servers = map<string, Server>

  datatype Registry = Registry(tokens: Tokens, servers: Servers)

  /** Neither spent nor past its time. */
  predicate Open(tokens: Tokens, hash: string, now: Instant) {
    hash in tokens && !tokens[hash].used && !Before(tokens[hash].expires, now)
  }

  /** The transaction: both changes or none. */
  function Consume(tokens: Tokens, servers: Servers, hash: string, server: Server, now: Instant): Result<Registry> {
    if hash !in tokens then Err(NotFound)
    else if !Open(tokens, hash, now) then Err(TokenSpent)
    else if server.id in servers then Err(ServerExists)
    else Ok(Registry(tokens[hash := tokens[hash].(used := true)], servers[server.id := server]))
  }

  // ---------- concurrent registrations ----------

  /** A request that has passed the precheck; others may hold the same token. */
  datatype Applicant = Applicant(hash: string, server: Server)

  datatype Registration = Registration(hash: string, serverID: string, at: Instant)

  /** `made` is the history of registrations. */
  datatype State = State(tokens: Tokens, servers: Servers, applicants: map<nat, Applicant>, made: seq<Registration>)

  datatype Event =
    | Issue(hash: string, expires: Instant)
    | Present(h: nat, hash: string, server: Server, now: Instant)
    | Register(h: nat, now: Instant)
    | Heartbeat(server: Server)
    | Revoke(id: string)
    | Crash

  function Initial(): State {
    State(map[], map[], map[], [])
  }

  /** Tokens are random: a new one has a hash that is not in the table. */
  function DoIssue(s: State, hash: string, expires: Instant): State {
    if hash in s.tokens then s else s.(tokens := s.tokens[hash := EnrollmentToken(expires, false)])
  }

  function DoPresent(s: State, h: nat, hash: string, server: Server, now: Instant): State {
    if h in s.applicants || !Open(s.tokens, hash, now) then s
    else s.(applicants := s.applicants[h := Applicant(hash, server)])
  }

  function DoRegister(s: State, h: nat, now: Instant): State {
    if h !in s.applicants then s
    else
      var a := s.applicants[h];
      var done := s.(applicants := s.applicants - {h});
      match Consume(s.tokens, s.servers, a.hash, a.server, now)
      case Err(_) => done
      case Ok(r) =>
        done.(tokens := r.tokens, servers := r.servers, made := s.made + [Registration(a.hash, a.server.id, now)])
  }

  function Apply(s: State, e: Event): State {
    match e
    case Issue(hash, expires) => DoIssue(s, hash, expires)
    case Present(h, hash, server, now) => DoPresent(s, h, hash, server, now)
    case Register(h, now) => DoRegister(s, h, now)
    case Heartbeat(server) => s.(servers := s.servers[server.id := server])
    case Revoke(id) => s.(servers := s.servers - {id})
    case Crash => s.(applicants := map[])
  }

  function Run(s: State, es: seq<Event>): State
    decreases |es|
  {
    if es == [] then s else Run(Apply(s, es[0]), es[1..])
  }

  // ---------- single use ----------

  function Spent(tokens: Tokens): set<string> {
    set hash <- tokens | tokens[hash].used
  }

  function Joined(made: seq<Registration>): set<string> {
    set i | 0 <= i < |made| :: made[i].hash
  }

  predicate InTime(tokens: Tokens, r: Registration) {
    r.hash in tokens && !Before(tokens[r.hash].expires, r.at)
  }

  predicate SingleUse(tokens: Tokens, made: seq<Registration>) {
    && (forall i, j :: 0 <= i < j < |made| ==> made[i].hash != made[j].hash)
    && (forall r <- made :: InTime(tokens, r))
    && Spent(tokens) == Joined(made)
    && |made| == |Spent(tokens)|
  }

  lemma IssueKeepsSingleUse(s: State, hash: string, expires: Instant)
    requires SingleUse(s.tokens, s.made)
    ensures var t := DoIssue(s, hash, expires); SingleUse(t.tokens, t.made)
  {
  }

  lemma SpendingKeepsSingleUse(tokens: Tokens, made: seq<Registration>, r: Registration)
    requires SingleUse(tokens, made) && Open(tokens, r.hash, r.at)
    ensures SingleUse(tokens[r.hash := tokens[r.hash].(used := true)], made + [r])
  {
    hide Before;
    var after := tokens[r.hash := tokens[r.hash].(used := true)];
    assert r.hash !in Spent(tokens);
    assert Spent(after) == Spent(tokens) + {r.hash};
    JoinedStep(made, r);
    assert forall x <- made + [r] :: x in made || x == r;
  }

  lemma JoinedStep(made: seq<Registration>, r: Registration)
    ensures Joined(made + [r]) == Joined(made) + {r.hash}
    ensures forall i :: 0 <= i < |made| ==> made[i].hash in Joined(made)
  {
    assert (made + [r])[|made|] == r;
    forall i | 0 <= i < |made|
      ensures made[i].hash in Joined(made + [r])
    {
      assert (made + [r])[i] == made[i];
    }
  }

  lemma RegisterKeepsSingleUse(s: State, h: nat, now: Instant)
    requires SingleUse(s.tokens, s.made)
    ensures var t := DoRegister(s, h, now); SingleUse(t.tokens, t.made)
  {
    if h in s.applicants {
      var a := s.applicants[h];
      if Consume(s.tokens, s.servers, a.hash, a.server, now).Ok? {
        SpendingKeepsSingleUse(s.tokens, s.made, Registration(a.hash, a.server.id, now));
      }
    }
    hide SingleUse, Before;
  }

  lemma {:induction false} RunKeepsSingleUse(s: State, es: seq<Event>)
    requires SingleUse(s.tokens, s.made)
    ensures SingleUse(Run(s, es).tokens, Run(s, es).made)
    decreases |es|
  {
    if es != [] {
      match es[0] {
        case Issue(hash, expires) => IssueKeepsSingleUse(s, hash, expires);
        case Register(h, now) => RegisterKeepsSingleUse(s, h, now);
        case _ =>
      }
      RunKeepsSingleUse(Apply(s, es[0]), es[1..]);
    }
  }

  /** However registrations with one token race: a token is spent exactly when one
      registration was made with it, before it expired; no token made two; and
      there are as many registrations as spent tokens. */
  lemma TokensAreSingleUse(es: seq<Event>)
    ensures var s := Run(Initial(), es);
            && (forall hash <- s.tokens ::
                  s.tokens[hash].used <==> exists i :: 0 <= i < |s.made| && s.made[i].hash == hash)
            && (forall i, j :: 0 <= i < |s.made| && 0 <= j < |s.made| && s.made[i].hash == s.made[j].hash ==> i == j)
            && (forall i :: 0 <= i < |s.made| ==>
                  s.made[i].hash in s.tokens && !Before(s.tokens[s.made[i].hash].expires, s.made[i].at))
            && |s.made| == |Spent(s.tokens)|
  {
    RunKeepsSingleUse(Initial(), es);
    var s := Run(Initial(), es);
    assert forall hash <- s.tokens :: s.tokens[hash].used <==> hash in Spent(s.tokens);
    assert forall i :: 0 <= i < |s.made| ==> s.made[i] in s.made && InTime(s.tokens, s.made[i]);
    assert forall i :: 0 <= i < |s.made| ==> s.made[i].hash in Joined(s.made);
  }

  /** A registration spends its token and inserts its server under an id that was
      free; a refused one - for whatever reason - leaves tokens, servers and
      history alone, so its token still works. */
  lemma RegistrationIsAllOrNothing(s: State, h: nat, now: Instant)
    requires h in s.applicants
    ensures var t := Apply(s, Register(h, now)); var a := s.applicants[h];
            if Open(s.tokens, a.hash, now) && a.server.id !in s.servers then
              && t.made == s.made + [Registration(a.hash, a.server.id, now)]
              && Spent(t.tokens) == Spent(s.tokens) + {a.hash} && a.hash !in Spent(s.tokens)
              && t.servers.Keys == s.servers.Keys + {a.server.id} && t.servers[a.server.id] == a.server
              && forall id <- s.servers :: t.servers[id] == s.servers[id]
            else
              t.made == s.made && t.tokens == s.tokens && t.servers == s.servers
  {
  }
}
