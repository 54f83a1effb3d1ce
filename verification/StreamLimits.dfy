/** The two caps of a serving client (valueserver/serving_client.go) under every
    interleaving of its read loops, handler goroutines and stream teardowns. The
    counters are changed by atomic adds; the stream cap is checked in one step
    and acted upon in later ones. Handlers at the same point of the code are
    interchangeable, so the state counts them. */
module StreamLimits {

  /** The configured caps; 0 or less disables one. */
  datatype Config = Config(maxRequests: int, maxStreams: int)

  datatype State = State(
    inFlight: int,            // the counter of handlers
    rejecting: nat,           // read loops about to undo their increment of it
    arriving: nat,            // handlers before the stream cap check
    passed: multiset<int>,    // ids of streams past the check, not yet in the map
    stored: nat,              // handlers between map store and counter increment
    leaving: nat,             // handlers with nothing left but their decrement
    requests: set<int>,       // keys of the request map
    live: int,                // the counter of open streams
    deleting: nat,            // teardowns between map delete and counter decrement
    overwritten: nat          // history: stores that replaced an entry with the same id
  )

  datatype Action =
    | Reserve                 // a read loop increments inFlight and compares
    | Unreserve
    | Skip                    // a handler that opens no stream
    | Check(id: int)
    | Store(id: int)
    | CountUp
    | Leave
    | Delete(id: int)
    | CountDown

  function Init(): State {
    State(0, 0, 0, multiset{}, 0, 0, {}, 0, 0, 0)
  }

  predicate Enabled(s: State, a: Action) {
    match a
    case Reserve => true
    case Unreserve => s.rejecting > 0
    case Skip => s.arriving > 0
    case Check(_) => s.arriving > 0
    case Store(id) => id in s.passed
    case CountUp => s.stored > 0
    case Leave => s.leaving > 0
    case Delete(id) => id in s.requests
    case CountDown => s.deleting > 0
  }

  function Next(c: Config, s: State, a: Action): State
    requires Enabled(s, a)
  {
    match a
    case Reserve =>
      var t := s.(inFlight := s.inFlight + 1);
      if c.maxRequests > 0 && t.inFlight > c.maxRequests then t.(rejecting := s.rejecting + 1)
      else t.(arriving := s.arriving + 1)
    case Unreserve => s.(inFlight := s.inFlight - 1, rejecting := s.rejecting - 1)
    case Skip => s.(arriving := s.arriving - 1, leaving := s.leaving + 1)
    case Check(id) =>
      var t := s.(arriving := s.arriving - 1);
      if c.maxStreams > 0 && s.live >= c.maxStreams then t.(leaving := s.leaving + 1)
      else t.(passed := s.passed + multiset{id})
    case Store(id) =>
      s.(passed := s.passed - multiset{id}, stored := s.stored + 1, requests := s.requests + {id},
         overwritten := if id in s.requests then s.overwritten + 1 else s.overwritten)
    case CountUp => s.(stored := s.stored - 1, leaving := s.leaving + 1, live := s.live + 1)
    case Leave => s.(leaving := s.leaving - 1, inFlight := s.inFlight - 1)
    case Delete(id) => s.(requests := s.requests - {id}, deleting := s.deleting + 1)
    case CountDown => s.(deleting := s.deleting - 1, live := s.live - 1)
  }

  predicate Runs(c: Config, s: State, acts: seq<Action>, t: State)
    decreases |acts|
  {
    if acts == [] then s == t
    else Enabled(s, acts[0]) && Runs(c, Next(c, s, acts[0]), acts[1..], t)
  }

  /** Handlers that are running. */
  function Running(s: State): nat {
    s.arriving + |s.passed| + s.stored + s.leaving
  }

  predicate Inv(c: Config, s: State) {
    && s.inFlight == s.rejecting + Running(s)
    && (c.maxRequests > 0 ==> Running(s) <= c.maxRequests)
    && s.live == |s.requests| - s.stored + s.deleting + s.overwritten
    && (c.maxRequests > 0 && c.maxStreams > 0 ==>
          |s.requests| + |s.passed| <= c.maxStreams + c.maxRequests - 1)
  }

  lemma StepKeepsInv(c: Config, s: State, a: Action)
    requires Inv(c, s) && Enabled(s, a)
    ensures Inv(c, Next(c, s, a))
  {
    match a
    case Check(id) => assert |s.passed + multiset{id}| == |s.passed| + 1;
    case Store(id) => StoreKeepsInv(c, s, id);
    case Delete(id) => Sizes(s.requests, s.passed, id);
    case _ =>
  }

  lemma StoreKeepsInv(c: Config, s: State, id: int)
    requires Inv(c, s) && Enabled(s, Store(id))
    ensures Inv(c, Next(c, s, Store(id)))
  {
    Sizes(s.requests, s.passed, id);
  }

  lemma Sizes(keys: set<int>, ids: multiset<int>, id: int)
    ensures |keys + {id}| == |keys| + if id in keys then 0 else 1
    ensures id in keys ==> |keys - {id}| == |keys| - 1
    ensures id in ids ==> |ids - multiset{id}| == |ids| - 1
  {
    if id in keys {
      assert keys + {id} == keys;
    }
  }

  lemma {:induction false} RunKeepsInv(c: Config, s: State, acts: seq<Action>, t: State)
    requires Inv(c, s) && Runs(c, s, acts, t)
    ensures Inv(c, t)
    decreases |acts|
  {
    if acts != [] {
      StepKeepsInv(c, s, acts[0]);
      RunKeepsInv(c, Next(c, s, acts[0]), acts[1..], t);
    }
  }

  /** In every run: never more handlers than the request cap; never more streams
      in the map than both caps together less one; and the stream counter equals
      the size of the map, corrected for the handlers and teardowns that are
      between map and counter and for ids that were reused while open. */
  lemma OpenStreamsStayBounded(c: Config, acts: seq<Action>, t: State)
    requires Runs(c, Init(), acts, t)
    ensures c.maxRequests > 0 ==> Running(t) <= c.maxRequests
    ensures c.maxRequests > 0 && c.maxStreams > 0 ==> |t.requests| <= c.maxStreams + c.maxRequests - 1
    ensures t.live == |t.requests| - t.stored + t.deleting + t.overwritten
    ensures t.stored == 0 && t.deleting == 0 && t.overwritten == 0 ==> t.live == |t.requests|
  {
    RunKeepsInv(c, Init(), acts, t);
  }

  // ---- the bound is exact ----

  lemma {:induction false} RunThen(c: Config, s: State, acts: seq<Action>, t: State, more: seq<Action>, u: State)
    requires Runs(c, s, acts, t) && Runs(c, t, more, u)
    ensures Runs(c, s, acts + more, u)
    decreases |acts|
  {
    if acts == [] {
      assert acts + more == more;
    } else {
      assert (acts + more)[1..] == acts[1..] + more;
      RunThen(c, Next(c, s, acts[0]), acts[1..], t, more, u);
    }
  }

  lemma RunOne(c: Config, s: State, a: Action)
    requires Enabled(s, a)
    ensures Runs(c, s, [a], Next(c, s, a))
  {
    assert [a][1..] == [];
  }

  function Ids(lo: int, hi: int): (r: set<int>)
    ensures forall i :: i in r <==> lo <= i < hi
  {
    set i | lo <= i < hi && Between(lo, i, hi)
  }

  predicate Between(lo: int, i: int, hi: int) {
    lo <= i < hi
  }

  /** A settled state with `n` open streams, named 0 to n - 1. */
  function Settled(n: nat): State {
    State(0, 0, 0, multiset{}, 0, 0, Ids(0, n), n, 0, 0)
  }

  lemma {:induction false} NamesSize(n: nat)
    ensures |Ids(0, n)| == n
  {
    if n > 0 {
      NamesSize(n - 1);
      assert Ids(0, n) == Ids(0, n - 1) + {n - 1};
    }
  }

  /** One stream opened with nothing else going on. */
  lemma OpenOne(c: Config, n: nat) returns (acts: seq<Action>)
    requires n < c.maxStreams
    ensures Runs(c, Settled(n), acts, Settled(n + 1))
  {
    var s0 := Settled(n);
    var s1 := Next(c, s0, Reserve);
    var s2 := Next(c, s1, Check(n));
    var s3 := Next(c, s2, Store(n));
    var s4 := Next(c, s3, CountUp);
    var s5 := Next(c, s4, Leave);
    assert s5 == Settled(n + 1) by {
      assert Ids(0, n) + {n} == Ids(0, n + 1);
    }
    RunOne(c, s4, Leave);
    assert Runs(c, s3, [CountUp, Leave], s5) by { assert [CountUp, Leave][1..] == [Leave]; }
    RunOne(c, s0, Reserve);
    RunOne(c, s1, Check(n));
    RunOne(c, s2, Store(n));
    RunThen(c, s2, [Store(n)], s3, [CountUp, Leave], s5);
    RunThen(c, s1, [Check(n)], s2, [Store(n)] + [CountUp, Leave], s5);
    acts := [Reserve] + ([Check(n)] + ([Store(n)] + [CountUp, Leave]));
    RunThen(c, s0, [Reserve], s1, [Check(n)] + ([Store(n)] + [CountUp, Leave]), s5);
  }

  lemma {:induction false} OpenMany(c: Config, n: nat) returns (acts: seq<Action>)
    requires n <= c.maxStreams
    ensures Runs(c, Init(), acts, Settled(n))
  {
    if n == 0 {
      acts := [];
      assert Ids(0, 0) == {};
    } else {
      var before := OpenMany(c, n - 1);
      var one := OpenOne(c, n - 1);
      acts := before + one;
      RunThen(c, Init(), before, Settled(n - 1), one, Settled(n));
    }
  }

  /** `k` handlers have passed the check together and hold `ids`. */
  function Rush(n: nat, k: nat, ids: multiset<int>): State {
    Settled(n).(inFlight := k, passed := ids)
  }

  /** With one slot left under the stream cap, all handlers the request cap
      allows, any number if there is none, pass the check, because none of them
      has been counted. */
  lemma {:induction false} AllPass(c: Config, n: nat, k: nat) returns (acts: seq<Action>)
    requires n + 1 == c.maxStreams && (c.maxRequests <= 0 || k <= c.maxRequests)
    ensures Runs(c, Settled(n), acts, Rush(n, k, multiset(Ids(n, n + k))))
  {
    if k == 0 {
      acts := [];
      assert multiset(Ids(n, n)) == multiset{};
    } else {
      var before := AllPass(c, n, k - 1);
      var s := Rush(n, k - 1, multiset(Ids(n, n + (k - 1))));
      var id := n + (k - 1);
      var s1 := Next(c, s, Reserve);
      var s2 := Next(c, s1, Check(id));
      assert multiset(Ids(n, n + k)) == multiset(Ids(n, n + (k - 1))) + multiset{id} by {
        assert Ids(n, n + k) == Ids(n, n + (k - 1)) + {id};
      }
      RunOne(c, s, Reserve);
      RunOne(c, s1, Check(id));
      RunThen(c, s, [Reserve], s1, [Check(id)], s2);
      RunThen(c, Settled(n), before, s, [Reserve] + [Check(id)], s2);
      acts := before + ([Reserve] + [Check(id)]);
    }
  }

  lemma FirstId(lo: int, hi: int)
    requires lo < hi
    ensures Ids(lo, hi) == Ids(lo + 1, hi) + {lo}
    ensures multiset(Ids(lo, hi)) - multiset{lo} == multiset(Ids(lo + 1, hi))
  {
    assert Ids(lo, hi) == Ids(lo + 1, hi) + {lo};
  }

  /** All of them store. */
  lemma {:induction false} AllStore(c: Config, s: State, lo: int, hi: int) returns (acts: seq<Action>, t: State)
    requires lo <= hi && s.passed == multiset(Ids(lo, hi))
    requires forall i :: lo <= i < hi ==> i !in s.requests
    ensures Runs(c, s, acts, t) && t.requests == s.requests + Ids(lo, hi)
    decreases hi - lo
  {
    if lo == hi {
      acts, t := [], s;
      assert Ids(lo, hi) == {};
    } else {
      var s1 := Next(c, s, Store(lo));
      FirstId(lo, hi);
      assert s1.requests == s.requests + {lo} && s1.passed == multiset(Ids(lo + 1, hi));
      var rest, u := AllStore(c, s1, lo + 1, hi);
      acts, t := [Store(lo)] + rest, u;
      RunOne(c, s, Store(lo));
      RunThen(c, s, [Store(lo)], s1, rest, u);
      assert s.requests + {lo} + Ids(lo + 1, hi) == s.requests + Ids(lo, hi);
    }
  }

  /** Some run opens as many streams beyond the cap, less one, as handlers may
      be about. */
  lemma RushOverCap(c: Config, k: nat) returns (acts: seq<Action>, t: State)
    requires c.maxStreams >= 1 && (c.maxRequests <= 0 || k <= c.maxRequests)
    ensures Runs(c, Init(), acts, t) && |t.requests| == c.maxStreams - 1 + k
  {
    var n := c.maxStreams - 1;
    var open := OpenMany(c, n);
    var pass := AllPass(c, n, k);
    var s := Rush(n, k, multiset(Ids(n, n + k)));
    var store, u := AllStore(c, s, n, n + k);
    RunThen(c, Settled(n), pass, s, store, u);
    RunThen(c, Init(), open, Settled(n), pass + store, u);
    acts, t := open + (pass + store), u;
    assert t.requests == Ids(0, n + k);
    NamesSize(n + k);
  }

  /** The bound cannot be lowered: for all positive caps some run fills the map
      to their sum less one. */
  lemma BoundIsAttained(c: Config) returns (acts: seq<Action>, t: State)
    requires c.maxRequests >= 1 && c.maxStreams >= 1
    ensures Runs(c, Init(), acts, t) && |t.requests| == c.maxStreams + c.maxRequests - 1
  {
    acts, t := RushOverCap(c, c.maxRequests);
  }

  /** With the request cap disabled the stream cap bounds nothing. */
  lemma NoBoundWithoutRequestCap(c: Config, n: nat) returns (acts: seq<Action>, t: State)
    requires c.maxRequests <= 0 && c.maxStreams >= 1
    ensures Runs(c, Init(), acts, t) && |t.requests| >= n
  {
    acts, t := RushOverCap(c, n);
  }

  ghost predicate CapHolds(c: Config) {
    forall acts, t :: Runs(c, Init(), acts, t) ==> |t.requests| <= c.maxStreams
  }

  /** A stream cap is kept in every run if and only if the request cap is 1. */
  lemma StreamCapHoldsExactlyForOneHandler(c: Config)
    requires c.maxStreams >= 1
    ensures CapHolds(c) <==> c.maxRequests == 1
  {
    if c.maxRequests == 1 {
      forall acts, t | Runs(c, Init(), acts, t)
        ensures |t.requests| <= c.maxStreams
      {
        OpenStreamsStayBounded(c, acts, t);
      }
    } else {
      var acts, t := RushOverCap(c, 2);
      assert Runs(c, Init(), acts, t) && |t.requests| > c.maxStreams;
    }
  }
}
