/** The circuit breaker (resilience/breaker.go): its three-state machine, and all
    timed interleavings of the calls that go through it. Times are nanoseconds. */
module Breakers {

  datatype Mode = Closed | Open | HalfOpen

  /** The options clamp the threshold and the number of probes to at least 1. */
  datatype Config = Config(threshold: int, cooldown: int, maxProbes: int)

  datatype Breaker = Breaker(mode: Mode, consec: int, openedAt: int, probes: int)

  predicate Admits(c: Config, b: Breaker, now: int) {
    match b.mode
    case Closed => true
    case Open => now - b.openedAt >= c.cooldown
    case HalfOpen => b.probes < c.maxProbes
  }

  function AfterAllow(c: Config, b: Breaker, now: int): Breaker {
    if !Admits(c, b, now) || b.mode.Closed? then b
    else if b.mode.Open? then b.(mode := HalfOpen, probes := 1)
    else b.(probes := b.probes + 1)
  }

  function Tripped(b: Breaker, now: int): Breaker {
    b.(mode := Open, openedAt := now, probes := 0)
  }

  predicate Trips(c: Config, b: Breaker, failed: bool) {
    failed && ((b.mode.Closed? && b.consec + 1 >= c.threshold) || b.mode.HalfOpen?)
  }

  function AfterRecord(c: Config, b: Breaker, failed: bool, now: int): Breaker {
    match b.mode
    case Open => b
    case Closed =>
      var b' := b.(consec := if failed then b.consec + 1 else 0);
      if Trips(c, b, failed) then Tripped(b', now) else b'
    case HalfOpen =>
      if failed then Tripped(b, now)
      else if b.probes - 1 <= 0 then b.(mode := Closed, consec := 0, probes := b.probes - 1)
      else b.(probes := b.probes - 1)
  }

  const FRESH := Breaker(Closed, 0, 0, 0)

  class CircuitBreaker {
    const cfg: Config
    var mode: Mode
    var consec: int
    var openedAt: int
    var probes: int

    function View(): Breaker
      reads this
    {
      Breaker(mode, consec, openedAt, probes)
    }

    constructor (cfg: Config)
      ensures this.cfg == cfg && View() == FRESH
    {
      this.cfg := cfg;
      mode, consec, openedAt, probes := Closed, 0, 0, 0;
    }

    method Allow(now: int) returns (ok: bool)
      modifies this
      ensures ok == Admits(cfg, old(View()), now)
      ensures View() == AfterAllow(cfg, old(View()), now)
      ensures !ok ==> View() == old(View())
    {
      match mode
      case Open =>
        if now - openedAt >= cfg.cooldown {
          mode, probes := HalfOpen, 1;
          return true;
        }
        return false;
      case HalfOpen =>
        if probes < cfg.maxProbes {
          probes := probes + 1;
          return true;
        }
        return false;
      case Closed =>
        return true;
    }

    method Record(failed: bool, now: int)
      modifies this
      ensures View() == AfterRecord(cfg, old(View()), failed, now)
      ensures mode.Open? && !old(mode).Open? <==> Trips(cfg, old(View()), failed)
    {
      match mode
      case Closed =>
        if failed {
          consec := consec + 1;
          if consec >= cfg.threshold {
            Trip(now);
          }
        } else {
          consec := 0;
        }
      case HalfOpen =>
        if failed {
          Trip(now);
        } else {
          probes := probes - 1;
          if probes <= 0 {
            mode, consec := Closed, 0;
          }
        }
      case Open =>
    }

    method Trip(now: int)
      modifies this
      ensures View() == Tripped(old(View()), now)
    {
      mode, openedAt, probes := Open, now, 0;
    }
  }

  // ---- calls through a breaker ----

  /** One half-open period, as history: the probes it admitted, those that
      succeeded, and successes of calls it did not admit. */
  datatype Episode = Episode(admitted: set<nat>, succeeded: set<nat>, stale: nat)

  datatype State = State(
    b: Breaker,
    now: int,
    calls: set<nat>,        // admitted calls whose outcome is not recorded yet
    issued: nat,            // calls admitted so far; the next one gets this name
    ep: Episode,            // the current or latest half-open period
    log: seq<bool>,         // history: outcomes recorded since entering Closed; true is a failure
    trips: seq<int>         // history: when the breaker tripped
  )

  datatype Action = Call(at: int) | Finish(call: nat, failed: bool, at: int)

  function Init(start: int): State {
    State(FRESH, start, {}, 0, Episode({}, {}, 0), [], [])
  }

  /** Time does not go back, and an outcome belongs to a call in flight. */
  predicate Enabled(s: State, a: Action) {
    s.now <= a.at && (a.Finish? ==> a.call in s.calls)
  }

  function AfterCall(c: Config, s: State, at: int): State {
    var t := s.(now := at, b := AfterAllow(c, s.b, at));
    if !Admits(c, s.b, at) then t
    else
      var u := t.(calls := s.calls + {s.issued}, issued := s.issued + 1);
      match s.b.mode
      case Closed => u
      case Open => u.(ep := Episode({s.issued}, {}, 0))
      case HalfOpen => u.(ep := s.ep.(admitted := s.ep.admitted + {s.issued}))
  }

  function AfterFinish(c: Config, s: State, call: nat, failed: bool, at: int): State {
    var b' := AfterRecord(c, s.b, failed, at);
    State(b', at, s.calls - {call}, s.issued,
          if !s.b.mode.HalfOpen? || failed then s.ep
          else if call in s.ep.admitted then s.ep.(succeeded := s.ep.succeeded + {call})
          else s.ep.(stale := s.ep.stale + 1),
          if s.b.mode.Closed? then s.log + [failed] else if b'.mode.Closed? then [] else s.log,
          if Trips(c, s.b, failed) then s.trips + [at] else s.trips)
  }

  function Next(c: Config, s: State, a: Action): State {
    match a
    case Call(at) => AfterCall(c, s, at)
    case Finish(call, failed, at) => AfterFinish(c, s, call, failed, at)
  }

  predicate Runs(c: Config, s: State, acts: seq<Action>, t: State)
    decreases |acts|
  {
    if acts == [] then s == t
    else Enabled(s, acts[0]) && Runs(c, Next(c, s, acts[0]), acts[1..], t)
  }

  /** The length of the run of failures at the end of a log. */
  function TrailingFailures(log: seq<bool>): nat {
    if log == [] || !log[|log| - 1] then 0 else 1 + TrailingFailures(log[..|log| - 1])
  }

  // ---- invariant ----

  predicate Counting(c: Config, s: State) {
    s.b.mode.Closed? ==> s.b.consec == TrailingFailures(s.log) && s.b.consec < c.threshold
  }

  predicate Cooling(c: Config, s: State) {
    && (forall i :: 0 <= i < |s.trips| ==> s.trips[i] <= s.now)
    && (forall i, j :: 0 <= i < j < |s.trips| ==> s.trips[i] <= s.trips[j])
    && (s.b.mode.Open? ==> s.trips != [] && s.b.openedAt == s.trips[|s.trips| - 1])
    && (!s.b.mode.Open? && s.trips != [] ==> s.now - s.trips[|s.trips| - 1] >= c.cooldown)
  }

  predicate Probing(c: Config, s: State) {
    && (forall k :: k in s.calls ==> k < s.issued)
    && (s.b.mode.HalfOpen? ==>
          && 1 <= s.b.probes <= c.maxProbes
          && s.ep.succeeded <= s.ep.admitted
          && s.b.probes == |s.ep.admitted| - |s.ep.succeeded| - s.ep.stale
          && (forall k :: k in s.ep.admitted ==> k < s.issued && (k in s.calls <==> k !in s.ep.succeeded)))
  }

  predicate Inv(c: Config, s: State) {
    Counting(c, s) && Cooling(c, s) && Probing(c, s)
  }

  lemma CountingKeeps(c: Config, s: State, a: Action)
    requires c.threshold >= 1 && Counting(c, s) && Enabled(s, a)
    ensures Counting(c, Next(c, s, a))
  {
    if a.Finish? {
      var log' := s.log + [a.failed];
      assert log'[..|s.log|] == s.log;
    }
  }

  lemma CoolingKeeps(c: Config, s: State, a: Action)
    requires Cooling(c, s) && Enabled(s, a)
    ensures Cooling(c, Next(c, s, a))
  {
  }

  lemma CallKeepsProbing(c: Config, s: State, at: int)
    requires c.maxProbes >= 1 && Probing(c, s) && Enabled(s, Call(at))
    ensures Probing(c, Next(c, s, Call(at)))
  {
    if s.b.mode.HalfOpen? {
      assert s.issued !in s.ep.admitted;
    }
  }

  lemma FinishKeepsProbing(c: Config, s: State, call: nat, failed: bool, at: int)
    requires c.maxProbes >= 1 && Probing(c, s) && Enabled(s, Finish(call, failed, at))
    ensures Probing(c, Next(c, s, Finish(call, failed, at)))
  {
  }

  lemma StepKeepsInv(c: Config, s: State, a: Action)
    requires c.threshold >= 1 && c.maxProbes >= 1 && Inv(c, s) && Enabled(s, a)
    ensures Inv(c, Next(c, s, a))
  {
    CountingKeeps(c, s, a);
    CoolingKeeps(c, s, a);
    match a
    case Call(at) => CallKeepsProbing(c, s, at);
    case Finish(call, failed, at) => FinishKeepsProbing(c, s, call, failed, at);
  }

  lemma {:induction false} RunKeepsInv(c: Config, s: State, acts: seq<Action>, t: State)
    requires c.threshold >= 1 && c.maxProbes >= 1 && Inv(c, s) && Runs(c, s, acts, t)
    ensures Inv(c, t)
    decreases |acts|
  {
    if acts != [] {
      StepKeepsInv(c, s, acts[0]);
      RunKeepsInv(c, Next(c, s, acts[0]), acts[1..], t);
    }
  }

  // ---- theorems ----

  /** In every run a closed breaker has counted exactly the failures since the
      last success or since it closed, fewer than the threshold; it trips on
      exactly the failure that completes the threshold. */
  lemma ClosedCountsTrailingFailures(c: Config, start: int, acts: seq<Action>, s: State, failed: bool)
    requires c.threshold >= 1 && c.maxProbes >= 1 && Runs(c, Init(start), acts, s) && s.b.mode.Closed?
    ensures s.b.consec == TrailingFailures(s.log) < c.threshold
    ensures Trips(c, s.b, failed) <==> TrailingFailures(s.log + [failed]) == c.threshold
  {
    RunKeepsInv(c, Init(start), acts, s);
    assert (s.log + [failed])[..|s.log|] == s.log;
  }

  /** In every run no call is admitted within the cooldown after any trip. */
  lemma NoCallDuringCooldown(c: Config, start: int, acts: seq<Action>, s: State, at: int, i: nat)
    requires c.threshold >= 1 && c.maxProbes >= 1 && Runs(c, Init(start), acts, s)
    requires s.now <= at && Admits(c, s.b, at) && i < |s.trips|
    ensures at - s.trips[i] >= c.cooldown
  {
    RunKeepsInv(c, Init(start), acts, s);
  }

  /** In every run a half-open breaker has between one and the maximum number of
      probes; the count is the probes still in flight less the outcomes that
      came from other calls, so it is the probes in flight when there are none. */
  lemma HalfOpenCountsProbes(c: Config, start: int, acts: seq<Action>, s: State)
    requires c.threshold >= 1 && c.maxProbes >= 1 && Runs(c, Init(start), acts, s) && s.b.mode.HalfOpen?
    ensures 1 <= s.b.probes <= c.maxProbes
    ensures s.b.probes == |s.ep.admitted * s.calls| - s.ep.stale
  {
    RunKeepsInv(c, Init(start), acts, s);
    assert s.ep.admitted * s.calls == s.ep.admitted - s.ep.succeeded;
  }

  lemma SubsetSize(a: set<nat>, b: set<nat>)
    requires a <= b
    ensures |a| <= |b| && (|a| == |b| ==> a == b)
  {
    assert |b - a| == |b| - |a|;
  }

  /** A step closes a half-open breaker. */
  predicate Closes(c: Config, s: State, a: Action) {
    Enabled(s, a) && s.b.mode.HalfOpen? && Next(c, s, a).b.mode.Closed?
  }

  /** ... although a probe it admitted has not succeeded. */
  predicate ClosesEarly(c: Config, s: State, a: Action) {
    Closes(c, s, a) && Next(c, s, a).ep.succeeded != Next(c, s, a).ep.admitted
  }

  /** At that step the probes without a success are as many as the successes
      that came from other calls. */
  lemma ClosingAccount(c: Config, s: State, a: Action)
    requires Probing(c, s) && Closes(c, s, a)
    ensures ClosesEarly(c, s, a) <==> Next(c, s, a).ep.stale > 0
  {
    var e := Next(c, s, a).ep;
    assert e.succeeded <= e.admitted;
    SubsetSize(e.succeeded, e.admitted);
  }

  /** A run that stays within one half-open period. */
  predicate RunsHalfOpen(c: Config, s: State, acts: seq<Action>, t: State)
    decreases |acts|
  {
    s.b.mode.HalfOpen? &&
    if acts == [] then s == t
    else Enabled(s, acts[0]) && RunsHalfOpen(c, Next(c, s, acts[0]), acts[1..], t)
  }

  ghost predicate CanCloseEarly(c: Config, s: State) {
    exists acts, t, a :: RunsHalfOpen(c, s, acts, t) && ClosesEarly(c, t, a)
  }

  /** Every call in flight is a probe of this period, and no other was recorded. */
  predicate OnlyProbes(s: State) {
    s.ep.stale == 0 && s.calls <= s.ep.admitted
  }

  lemma {:induction false} OnlyProbesStay(c: Config, s: State, acts: seq<Action>, t: State)
    requires c.maxProbes >= 1 && Probing(c, s) && OnlyProbes(s) && RunsHalfOpen(c, s, acts, t)
    ensures Probing(c, t) && OnlyProbes(t)
    decreases |acts|
  {
    if acts != [] {
      match acts[0] {
        case Call(at) => CallKeepsProbing(c, s, at);
        case Finish(call, failed, at) => FinishKeepsProbing(c, s, call, failed, at);
      }
      OnlyProbesStay(c, Next(c, s, acts[0]), acts[1..], t);
    }
  }

  lemma RunsHalfOpenFirst(c: Config, s: State, a: Action, acts: seq<Action>, t: State)
    requires s.b.mode.HalfOpen? && Enabled(s, a) && RunsHalfOpen(c, Next(c, s, a), acts, t)
    ensures RunsHalfOpen(c, s, [a] + acts, t)
  {
    assert ([a] + acts)[1..] == acts;
  }

  /** Once another call's success has been recorded, the successes of all probes
      but as many close the breaker. */
  lemma {:induction false} StaleClosesEarly(c: Config, s: State) returns (acts: seq<Action>, t: State, a: Action)
    requires c.maxProbes >= 1 && Probing(c, s) && s.b.mode.HalfOpen? && s.ep.stale > 0
    ensures RunsHalfOpen(c, s, acts, t) && ClosesEarly(c, t, a)
    decreases s.b.probes
  {
    SomeUnfinished(s.ep.admitted, s.ep.succeeded);
    var k :| k in s.ep.admitted && k !in s.ep.succeeded;
    a := Finish(k, false, s.now);
    if s.b.probes == 1 {
      acts, t := [], s;
      ClosingAccount(c, s, a);
    } else {
      FinishKeepsProbing(c, s, k, false, s.now);
      var first := a;
      var rest;
      rest, t, a := StaleClosesEarly(c, Next(c, s, first));
      RunsHalfOpenFirst(c, s, first, rest, t);
      acts := [first] + rest;
    }
  }

  lemma SomeUnfinished(admitted: set<nat>, succeeded: set<nat>)
    requires |succeeded| < |admitted|
    ensures exists k :: k in admitted && k !in succeeded
  {
    if forall k :: k in admitted ==> k in succeeded {
      SubsetSize(admitted, succeeded);
      assert false;
    }
  }

  /** In every reachable half-open state: the breaker can close in this period
      with a probe still unfinished if and only if a call that is not one of its
      probes is in flight, or has already had a success recorded. */
  lemma ClosesEarlyExactlyWithOtherCalls(c: Config, start: int, before: seq<Action>, s: State)
    requires c.threshold >= 1 && c.maxProbes >= 1 && Runs(c, Init(start), before, s) && s.b.mode.HalfOpen?
    ensures CanCloseEarly(c, s) <==> s.ep.stale > 0 || exists k :: k in s.calls && k !in s.ep.admitted
  {
    RunKeepsInv(c, Init(start), before, s);
    if s.ep.stale > 0 {
      var acts, t, a := StaleClosesEarly(c, s);
    } else if k :| k in s.calls && k !in s.ep.admitted {
      OtherCallClosesEarly(c, s, k);
    } else {
      assert OnlyProbes(s);
      forall acts, t, a | RunsHalfOpen(c, s, acts, t) && Closes(c, t, a)
        ensures !ClosesEarly(c, t, a)
      {
        OnlyProbesStay(c, s, acts, t);
        ClosingAccount(c, t, a);
      }
    }
  }

  lemma OtherCallClosesEarly(c: Config, s: State, k: nat)
    requires c.maxProbes >= 1 && Probing(c, s) && s.b.mode.HalfOpen? && k in s.calls && k !in s.ep.admitted
    ensures CanCloseEarly(c, s)
  {
    var a := Finish(k, false, s.now);
    if s.b.probes == 1 {
      ClosingAccount(c, s, a);
      assert RunsHalfOpen(c, s, [], s);
    } else {
      FinishKeepsProbing(c, s, k, false, s.now);
      var rest, t, b := StaleClosesEarly(c, Next(c, s, a));
      RunsHalfOpenFirst(c, s, a, rest, t);
    }
  }

  /** A late success of a call admitted before the trip does close the breaker
      while its only probe is still in flight. */
  lemma StaleSuccessCloses() returns (c: Config, acts: seq<Action>, s: State)
    ensures c.threshold == 1 && c.maxProbes == 1
    ensures Runs(c, Init(0), acts, s)
    ensures s.b.mode.Closed? && s.ep.admitted == {2} && 2 in s.calls && s.ep.stale == 1
  {
    c := Config(1, 10, 1);
    acts := [Call(0), Call(0), Finish(0, true, 1), Call(11), Finish(1, false, 12)];
    var s1 := Next(c, Init(0), acts[0]);
    var s2 := Next(c, s1, acts[1]);
    var s3 := Next(c, s2, acts[2]);
    var s4 := Next(c, s3, acts[3]);
    s := Next(c, s4, acts[4]);
    assert Runs(c, s, acts[5..], s);
    assert acts[4..][1..] == acts[5..] && acts[3..][1..] == acts[4..] && acts[2..][1..] == acts[3..];
    assert Runs(c, s4, acts[4..], s);
    assert Runs(c, s3, acts[3..], s);
    assert Runs(c, s2, acts[2..], s);
    assert acts[1..][1..] == acts[2..];
    assert Runs(c, s1, acts[1..], s);
  }
}
