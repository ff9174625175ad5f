/** Slowing down password guessing: from the fifth failure of an address on, each
    failure blocks the address for a while. Clock readings are nanoseconds of the
    monotonic clock. */
module LoginThrottle {
  import opened Types

  const MINUTE := 60_000_000_000

  /** `blockedUntil` is None for the zero time, which lies before every reading. */
  datatype Attempt = Attempt(count: nat, blockedUntil: Option<int>)

  type Logins = map<string, Attempt>

  /** A missing entry reads as the zero value. */
  function AttemptOf(logins: Logins, ip: string): Attempt {
    if ip in logins then logins[ip] else Attempt(0, None)
  }

  predicate MayTry(a: Attempt, now: int) {
    a.blockedUntil.Some? ==> a.blockedUntil.value <= now
  }

  function Penalty(count: nat): nat
    requires count >= 5
  {
    if count - 4 > 15 then 15 else count - 4
  }

  function AfterFailure(a: Attempt, now: int): Attempt {
    var count := a.count + 1;
    Attempt(count, if count >= 5 then Some(now + Penalty(count) * MINUTE) else a.blockedUntil)
  }

  /** The table behind the login page; each method runs under its lock. */
  class Throttle {
    var logins: Logins

    constructor ()
      ensures logins == map[]
    {
      logins := map[];
    }

    method LoginAllowed(ip: string, now: int) returns (allowed: bool)
      ensures allowed <==> MayTry(AttemptOf(logins, ip), now)
    {
      var attempt := if ip in logins then logins[ip] else Attempt(0, None);
      allowed := !(attempt.blockedUntil.Some? && attempt.blockedUntil.value > now);
    }

    method RecordLoginFailure(ip: string, now: int)
      modifies this
      ensures logins == old(logins)[ip := AfterFailure(AttemptOf(old(logins), ip), now)]
    {
      var attempt := if ip in logins then logins[ip] else Attempt(0, None);
      attempt := attempt.(count := attempt.count + 1);
      if attempt.count >= 5 {
        var minutes := attempt.count - 4;
        if minutes > 15 {
          minutes := 15;
        }
        attempt := attempt.(blockedUntil := Some(now + minutes * MINUTE));
      }
      logins := logins[ip := attempt];
    }

    method ClearLoginFailures(ip: string)
      modifies this
      ensures logins == old(logins) - {ip}
    {
      logins := logins - {ip};
    }
  }

  // ---------- schedules ----------

  /** Requests of all addresses interleave: each checks the table first, and later
      records a failure or clears its address. */
  datatype Event =
    | Check(h: nat, ip: string, now: int)
    | Fail(h: nat, now: int)
    | Succeed(h: nat, now: int)

  /** `open` holds the requests past their check; `failures` the times of the
      failures of each address since its last success. */
  datatype State = State(logins: Logins, open: map<nat, string>, failures: map<string, seq<int>>, clock: int)

  function FailuresOf(s: State, ip: string): seq<int> {
    if ip in s.failures then s.failures[ip] else []
  }

  function Apply(s: State, e: Event): State {
    var t := s.(clock := e.now);
    match e
    case Check(h, ip, now) =>
      t.(open := if h !in s.open && MayTry(AttemptOf(s.logins, ip), now) then s.open[h := ip] else s.open)
    case Fail(h, now) =>
      if h !in s.open then t
      else
        var ip := s.open[h];
        t.(open := s.open - {h},
           logins := s.logins[ip := AfterFailure(AttemptOf(s.logins, ip), now)],
           failures := s.failures[ip := FailuresOf(s, ip) + [now]])
    case Succeed(h, now) =>
      if h !in s.open then t
      else
        var ip := s.open[h];
        t.(open := s.open - {h}, logins := s.logins - {ip}, failures := s.failures - {ip})
  }

  function Initial(clock: int): State {
    State(map[], map[], map[], clock)
  }

  function Run(s: State, es: seq<Event>): State
    decreases |es|
  {
    if es == [] then s else Run(Apply(s, es[0]), es[1..])
  }

  predicate InProgress(s: State, ip: string) {
    exists h <- s.open :: s.open[h] == ip
  }

  /** The clock does not go back, and requests from `ip` do not overlap. */
  predicate OneByOne(s: State, es: seq<Event>, ip: string)
    decreases |es|
  {
    es != [] ==>
      && s.clock <= es[0].now
      && (es[0].Check? && es[0].ip == ip ==> !InProgress(s, ip))
      && OneByOne(Apply(s, es[0]), es[1..], ip)
  }

  // ---------- what the table knows ----------

  /** The entry of an address says how many failures there were, and until when the
      last one blocks. */
  predicate Tracked(s: State, ip: string) {
    var f := FailuresOf(s, ip);
    && AttemptOf(s.logins, ip).count == |f|
    && AttemptOf(s.logins, ip).blockedUntil ==
       if |f| >= 5 then Some(f[|f| - 1] + Penalty(|f|) * MINUTE) else None
  }

  lemma {:induction false} AlwaysTracked(s: State, es: seq<Event>, ip: string)
    requires Tracked(s, ip)
    ensures Tracked(Run(s, es), ip)
    decreases |es|
  {
    if es != [] {
      AlwaysTracked(Apply(s, es[0]), es[1..], ip);
    }
  }

  /** At any moment, whatever requests overlap: an address may try exactly if it has
      fewer than five failures since its last success, or the penalty of the last
      one is over - which is after fifteen minutes at the latest. */
  lemma BlockedExactlyDuringPenalty(start: int, es: seq<Event>, ip: string, now: int)
    ensures var s := Run(Initial(start), es); var f := FailuresOf(s, ip);
            && (MayTry(AttemptOf(s.logins, ip), now) <==> |f| < 5 || now >= f[|f| - 1] + Penalty(|f|) * MINUTE)
            && (|f| > 0 && now >= f[|f| - 1] + 15 * MINUTE ==> MayTry(AttemptOf(s.logins, ip), now))
  {
    AlwaysTracked(Initial(start), es, ip);
  }

  // ---------- the bound ----------

  /** Consecutive failures from the fifth on lie at least a penalty apart. */
  predicate Spread(f: seq<int>) {
    forall n :: 5 <= n < |f| ==> f[n] >= f[n - 1] + Penalty(n) * MINUTE
  }

  /** At most one request of `ip` is past its check, and the check came after the
      last penalty. */
  predicate Serial(s: State, ip: string) {
    && (forall g <- s.open, h <- s.open :: s.open[g] == ip && s.open[h] == ip ==> g == h)
    && (InProgress(s, ip) ==> MayTry(AttemptOf(s.logins, ip), s.clock))
  }

  lemma StepKeepsSpread(s: State, e: Event, ip: string)
    requires Tracked(s, ip) && Serial(s, ip) && Spread(FailuresOf(s, ip))
    requires s.clock <= e.now && (e.Check? && e.ip == ip ==> !InProgress(s, ip))
    ensures var t := Apply(s, e); Tracked(t, ip) && Serial(t, ip) && Spread(FailuresOf(t, ip))
  {
  }

  lemma {:induction false} RunKeepsSpread(s: State, es: seq<Event>, ip: string)
    requires Tracked(s, ip) && Serial(s, ip) && Spread(FailuresOf(s, ip)) && OneByOne(s, es, ip)
    ensures Spread(FailuresOf(Run(s, es), ip))
    decreases |es|
  {
    if es != [] {
      StepKeepsSpread(s, es[0], ip);
      RunKeepsSpread(Apply(s, es[0]), es[1..], ip);
    }
    hide Apply, Tracked, Serial, Spread, InProgress;
  }

  /** Minutes between the fifth failure and the `n`-th, at least. */
  function LeastMinutes(n: nat): int
    requires n >= 5
  {
    if n <= 20 then (n - 5) * (n - 4) / 2 else 120 + 15 * (n - 20)
  }

  lemma LeastMinutesStep(n: nat)
    requires n >= 5
    ensures LeastMinutes(n + 1) == LeastMinutes(n) + Penalty(n)
  {
  }

  lemma {:induction false} SpreadAddsUp(f: seq<int>, n: nat)
    requires Spread(f) && 5 <= n <= |f|
    ensures f[n - 1] - f[4] >= LeastMinutes(n) * MINUTE
  {
    if n > 5 {
      SpreadAddsUp(f, n - 1);
      LeastMinutesStep(n - 1);
    }
  }

  /** While requests from an address come one at a time, its n-th failure in a row
      comes at least (n-5)(n-4)/2 minutes after the fifth up to n = 20, and 120 +
      15(n-20) minutes beyond - whatever other addresses do meanwhile. */
  lemma GuessingIsSlow(start: int, es: seq<Event>, ip: string, n: nat)
    requires OneByOne(Initial(start), es, ip)
    requires 5 <= n <= |FailuresOf(Run(Initial(start), es), ip)|
    ensures var f := FailuresOf(Run(Initial(start), es), ip);
            f[n - 1] - f[4] >= (if n <= 20 then (n - 5) * (n - 4) / 2 else 120 + 15 * (n - 20)) * 60_000_000_000
  {
    RunKeepsSpread(Initial(start), es, ip);
    SpreadAddsUp(FailuresOf(Run(Initial(start), es), ip), n);
  }
}
