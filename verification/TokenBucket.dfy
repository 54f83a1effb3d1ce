/** The lazily refilled token bucket of RateLimit (resilience/policies.go), over
    exact real arithmetic and arbitrary clock readings. */
module TokenBuckets {

  datatype Bucket = Bucket(tokens: real, max: real, perSec: real, last: real)

  /** Tokens that flow in between two times. */
  function Inflow(rate: real, from: real, to: real): real {
    (to - from) * rate
  }

  /** The level at time `now` if tokens had been flowing in all along. */
  function Level(b: Bucket, now: real): real {
    var full := b.tokens + Inflow(b.perSec, b.last, now);
    if full > b.max then b.max else full
  }

  predicate Admits(b: Bucket, now: real) {
    Level(b, now) >= 1.0
  }

  function AfterPoll(b: Bucket, now: real): Bucket {
    b.(tokens := if Admits(b, now) then Level(b, now) - 1.0 else Level(b, now), last := now)
  }

  class TokenBucket {
    var tokens: real
    const max: real
    const perSec: real
    var last: real

    function View(): Bucket
      reads this
    {
      Bucket(tokens, max, perSec, last)
    }

    /** RateLimit starts with a full bucket; a burst below 1 means 1. */
    constructor (perSecond: real, burst: int, now: real)
      ensures View() == FullBucket(perSecond, burst, now)
    {
      var b := if burst < 1 then 1 else burst;
      tokens := b as real;
      max := b as real;
      perSec := perSecond;
      last := now;
    }

    method Allow(now: real) returns (ok: bool)
      modifies this
      ensures ok == Admits(old(View()), now)
      ensures View() == AfterPoll(old(View()), now)
    {
      var refill := (now - last) * perSec;
      assert refill == Inflow(perSec, last, now);
      tokens := tokens + refill;
      if tokens > max {
        tokens := max;
      }
      last := now;
      if tokens >= 1.0 {
        tokens := tokens - 1.0;
        return true;
      }
      return false;
    }
  }

  function FullBucket(perSecond: real, burst: int, now: real): Bucket {
    var b := if burst < 1 then 1 else burst;
    Bucket(b as real, b as real, perSecond, now)
  }

  // ---- runs ----

  /** The bucket after polls at the given times. */
  function AfterPolls(b: Bucket, times: seq<real>): Bucket
    decreases |times|
  {
    if times == [] then b else AfterPolls(AfterPoll(b, times[0]), times[1..])
  }

  /** The decision taken at each of the times. */
  function Decisions(b: Bucket, times: seq<real>): (r: seq<bool>)
    ensures |r| == |times|
    decreases |times|
  {
    if times == [] then [] else [Admits(b, times[0])] + Decisions(AfterPoll(b, times[0]), times[1..])
  }

  function Count(ds: seq<bool>): nat {
    if ds == [] then 0 else (if ds[0] then 1 else 0) + Count(ds[1..])
  }

  /** Clock readings never go back, and none precedes `from`. */
  predicate Monotone(from: real, times: seq<real>)
    decreases |times|
  {
    if times == [] then true else from <= times[0] && Monotone(times[0], times[1..])
  }

  predicate Sane(b: Bucket) {
    0.0 <= b.tokens <= b.max && b.perSec >= 0.0
  }

  lemma InflowFacts(b: Bucket, x: real, y: real, z: real)
    ensures Inflow(b.perSec, x, y) + Inflow(b.perSec, y, z) == Inflow(b.perSec, x, z)
    ensures b.perSec >= 0.0 && x <= y ==> Inflow(b.perSec, x, y) >= 0.0
  {
  }

  /** One poll spends what it admits out of the level and the inflow. */
  lemma PollIsFunded(b: Bucket, now: real, inflow: real)
    requires Sane(b) && b.last <= now && inflow == Inflow(b.perSec, b.last, now)
    ensures Sane(AfterPoll(b, now)) && AfterPoll(b, now).last == now
    ensures AfterPoll(b, now).tokens + (if Admits(b, now) then 1.0 else 0.0) <= b.tokens + inflow
    ensures AfterPoll(b, now).tokens + (if Admits(b, now) then 1.0 else 0.0) <= b.max
  {
    InflowFacts(b, b.last, now, now);
  }

  lemma DecisionsCount(b: Bucket, times: seq<real>)
    requires times != []
    ensures Count(Decisions(b, times))
            == (if Admits(b, times[0]) then 1 else 0) + Count(Decisions(AfterPoll(b, times[0]), times[1..]))
  {
    assert Decisions(b, times)[1..] == Decisions(AfterPoll(b, times[0]), times[1..]);
  }

  /** From any sane bucket, admissions are paid for by the level and the inflow. */
  lemma {:induction false} AdmissionsAreFunded(b: Bucket, times: seq<real>, until: real, inflow: real)
    requires Sane(b) && Monotone(b.last, times)
    requires b.last <= until && (forall i :: 0 <= i < |times| ==> times[i] <= until)
    requires inflow == Inflow(b.perSec, b.last, until)
    ensures Count(Decisions(b, times)) as real <= b.tokens + inflow
    decreases |times|
  {
    if times == [] {
      InflowFacts(b, b.last, until, until);
    } else {
      var now := times[0];
      var b' := AfterPoll(b, now);
      var first, later := Inflow(b.perSec, b.last, now), Inflow(b.perSec, now, until);
      PollIsFunded(b, now, first);
      AdmissionsAreFunded(b', times[1..], until, later);
      DecisionsCount(b, times);
      InflowFacts(b, b.last, now, until);
    }
  }

  lemma {:induction false} PollsKeepSane(b: Bucket, times: seq<real>)
    requires Sane(b) && Monotone(b.last, times)
    ensures Sane(AfterPolls(b, times)) && AfterPolls(b, times).perSec == b.perSec && AfterPolls(b, times).max == b.max
    ensures AfterPolls(b, times).last == if times == [] then b.last else times[|times| - 1]
    decreases |times|
  {
    if times != [] {
      PollIsFunded(b, times[0], Inflow(b.perSec, b.last, times[0]));
      PollsKeepSane(AfterPoll(b, times[0]), times[1..]);
    }
  }

  /** The first poll of a window finds at most a full bucket. */
  lemma WindowIsFunded(b: Bucket, times: seq<real>, until: real, inflow: real)
    requires Sane(b) && times != [] && Monotone(b.last, times)
    requires forall i :: 0 <= i < |times| ==> times[i] <= until
    requires inflow == Inflow(b.perSec, times[0], until)
    ensures Count(Decisions(b, times)) as real <= b.max + inflow
  {
    PollIsFunded(b, times[0], Inflow(b.perSec, b.last, times[0]));
    AdmissionsAreFunded(AfterPoll(b, times[0]), times[1..], until, inflow);
    DecisionsCount(b, times);
  }

  lemma WindowBound(b: Bucket, times: seq<real>, t1: real, t2: real, inflow: real)
    requires Sane(b) && Monotone(b.last, times) && t1 <= t2
    requires forall i :: 0 <= i < |times| ==> t1 <= times[i] <= t2
    requires inflow == Inflow(b.perSec, t1, t2)
    ensures Count(Decisions(b, times)) as real <= b.max + inflow
  {
    if times == [] {
      InflowFacts(b, t1, t2, t2);
    } else {
      var early, late := Inflow(b.perSec, t1, times[0]), Inflow(b.perSec, times[0], t2);
      InflowFacts(b, t1, times[0], t2);
      WindowIsFunded(b, times, t2, late);
    }
  }

  /** Rate bound. Whatever polls came before, the polls of any window [t1, t2]
      admit at most burst + rate * (t2 - t1) calls. */
  lemma RateBound(perSecond: real, burst: int, start: real, before: seq<real>, times: seq<real>, t1: real, t2: real)
    requires perSecond >= 0.0 && t1 <= t2
    requires Monotone(start, before)
    requires Monotone(if before == [] then start else before[|before| - 1], times)
    requires forall i :: 0 <= i < |times| ==> t1 <= times[i] <= t2
    ensures
      var b := FullBucket(perSecond, burst, start);
      Count(Decisions(AfterPolls(b, before), times)) as real <= b.max + Inflow(b.perSec, t1, t2)
  {
    var b := FullBucket(perSecond, burst, start);
    PollsKeepSane(b, before);
    WindowBound(AfterPolls(b, before), times, t1, t2, Inflow(b.perSec, t1, t2));
  }

  /** The bound holds for non-negative rates only: for a negative rate the very
      first call breaks it in a window that is long enough. */
  lemma RateBoundNeedsNonNegativeRate(perSecond: real, burst: int, start: real) returns (t2: real)
    requires perSecond < 0.0
    ensures start <= t2
    ensures
      var b := FullBucket(perSecond, burst, start);
      Count(Decisions(b, [start])) as real > b.max + Inflow(b.perSec, start, t2)
  {
    var b := FullBucket(perSecond, burst, start);
    t2 := start + b.max / -perSecond;
    assert (b.max / -perSecond) * perSecond == -b.max;
    assert Inflow(b.perSec, start, t2) == -b.max && Inflow(b.perSec, start, start) == 0.0;
    DecisionsCount(b, [start]);
  }

  // ---- lazy refill is continuous refill ----

  /** Polling in between, when it is refused, does not change the level later. */
  lemma RefusedPollIsInvisible(b: Bucket, now: real, later: real)
    requires Sane(b) && b.last <= now <= later && !Admits(b, now)
    ensures Level(AfterPoll(b, now), later) == Level(b, later)
  {
    LevelFlows(b, now, later);
    PollIsFunded(b, now, Inflow(b.perSec, b.last, now));
    LevelFlows(AfterPoll(b, now), now, later);
    LevelNow(AfterPoll(b, now));
  }

  /** The times of `times` at which `keep` holds. */
  function Select<T>(xs: seq<T>, keep: seq<bool>): seq<T>
    requires |xs| == |keep|
  {
    if xs == [] then []
    else (if keep[0] then [xs[0]] else []) + Select(xs[1..], keep[1..])
  }

  /** Two buckets that hold the same level from `now` on. */
  predicate SameFrom(a: Bucket, b: Bucket, now: real) {
    && a.max == b.max && a.perSec == b.perSec && a.last <= now && b.last <= now
    && Sane(a) && Sane(b) && Level(a, now) == Level(b, now)
  }

  lemma LevelFlows(b: Bucket, now: real, later: real)
    requires Sane(b) && b.last <= now <= later
    ensures Level(b, later) == (if Level(b, now) + Inflow(b.perSec, now, later) > b.max then b.max
                                else Level(b, now) + Inflow(b.perSec, now, later))
  {
    InflowFacts(b, b.last, now, later);
  }

  /** Leaving out any refused polls changes none of the other decisions. */
  lemma {:induction false} RefusedPollsNeverMatter(a: Bucket, b: Bucket, times: seq<real>, keep: seq<bool>)
    requires |keep| == |times|
    requires times != [] ==> SameFrom(a, b, times[0]) && Monotone(times[0], times)
    requires forall i :: 0 <= i < |times| && Decisions(a, times)[i] ==> keep[i]
    ensures Decisions(b, Select(times, keep)) == Select(Decisions(a, times), keep)
    decreases |times|
  {
    if times != [] {
      var now := times[0];
      var a' := AfterPoll(a, now);
      var b' := if keep[0] then AfterPoll(b, now) else b;
      assert Decisions(a, times)[0] == Admits(a, now) && Decisions(a, times)[1..] == Decisions(a', times[1..]);
      if |times| > 1 {
        StillSame(a, b, keep[0], now, times[1]);
      }
      RefusedPollsNeverMatter(a', b', times[1..], keep[1..]);
      var rest := Select(times[1..], keep[1..]);
      if keep[0] {
        assert Select(times, keep) == [now] + rest && ([now] + rest)[1..] == rest;
        assert Decisions(b, [now] + rest) == [Admits(b, now)] + Decisions(b', rest);
      } else {
        assert Select(times, keep) == rest;
      }
    }
  }

  /** Two buckets at the same level stay so when one is polled, and the other
      is polled too or the poll is refused. */
  lemma StillSame(a: Bucket, b: Bucket, both: bool, now: real, later: real)
    requires SameFrom(a, b, now) && now <= later && (both || !Admits(a, now))
    ensures SameFrom(AfterPoll(a, now), if both then AfterPoll(b, now) else b, later)
  {
    var a' := AfterPoll(a, now);
    var b' := if both then AfterPoll(b, now) else b;
    PollIsFunded(a, now, Inflow(a.perSec, a.last, now));
    PollIsFunded(b, now, Inflow(b.perSec, b.last, now));
    LevelNow(a);
    LevelNow(a');
    LevelNow(b');
    LevelFlows(a', now, later);
    LevelFlows(b', now, later);
  }

  lemma LevelNow(b: Bucket)
    requires Sane(b)
    ensures Level(b, b.last) == b.tokens
  {
  }
}
