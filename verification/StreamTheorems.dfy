/** What the invariant of a stream means for its users: delivery is lossless and
    in order, credit is conserved, the pump never overflows, every run is
    finite, and a stream completes exactly when its Null values leave enough
    credit. */
module StreamTheorems {
  import opened Values
  import opened StreamPumps
  import opened StreamFlow
  import opened StreamInvariant

  // ---- safety ----

  /** What the consumer has read after the ack. */
  function Read(c: Config, got: seq<Cell>): seq<Cell> {
    if Acked(c) && got != [] then got[1..] else got
  }

  lemma {:induction false} PayloadGrows(vs: seq<Value>, i: nat, j: nat)
    requires i <= j <= |vs|
    ensures Payload(vs[..i]) <= Payload(vs[..j])
    decreases j
  {
    if i < j {
      PayloadGrows(vs, i, j - 1);
      assert vs[..j] == vs[..j - 1] + [vs[j - 1]];
      PayloadAppend(vs[..j - 1], vs[j - 1]);
    }
  }

  lemma AckThenPrefix(got: seq<Cell>, rest: seq<Cell>, payload: seq<Cell>)
    requires got + rest == [Nil] + payload && got != []
    ensures got[0] == Nil && got[1..] + rest == payload
  {
    assert (got + rest)[0] == ([Nil] + payload)[0];
    assert (got + rest)[1..] == got[1..] + rest;
    assert ([Nil] + payload)[1..] == payload;
  }

  /** The part of the pipeline the consumer has not read. */
  function Unread(s: State): seq<Cell> {
    s.sink.out + InHand(s.sink.runner) + s.sink.pump.queue + Cells(s.fwd)
  }

  lemma ReadFromPipeline(c: Config, s: State)
    requires Producer(c, s.src) && Order(c, s)
    ensures Acked(c) && s.sink.got != [] ==> s.sink.got[0] == Nil
    ensures s.sink.got != [] || !Acked(c) ==>
              Read(c, s.sink.got) + Unread(s) == Payload(c.input[..Sent(c, s.src)])
  {
    var got := s.sink.got;
    assert got + Unread(s) == Stages(s.sink) + Cells(s.fwd);
    if Acked(c) && got != [] {
      PipelineSize(c, s);
      AckThenPrefix(got, Unread(s), Payload(c.input[..Sent(c, s.src)]));
    }
  }

  /** Lossless in-order streaming. In every run the consumer has read, after the
      ack, a prefix of the non-Null values the producer emitted; and once it has
      seen the channel closed, all of the producer's non-Null values. */
  lemma InOrderDelivery(c: Config, acts: seq<Action>, t: State)
    requires Runs(c, Init(c), acts, t)
    ensures 0 <= Emitted(c, t.src) <= |c.input|
    ensures Read(c, t.sink.got) <= Payload(c.input[..Emitted(c, t.src)])
    ensures Acked(c) && t.sink.got != [] ==> t.sink.got[0] == Nil
    ensures t.sink.sawEnd ==> Read(c, t.sink.got) == Payload(c.input)
  {
    InitHolds(c);
    RunKeepsInv(c, Init(c), acts, t);
    ReadIsPrefix(c, t);
    if t.sink.sawEnd {
      DrainedAtEnd(c, t);
    }
  }

  lemma ReadIsPrefix(c: Config, s: State)
    requires Producer(c, s.src) && Order(c, s)
    ensures 0 <= Emitted(c, s.src) <= |c.input|
    ensures Read(c, s.sink.got) <= Payload(c.input[..Emitted(c, s.src)])
    ensures Acked(c) && s.sink.got != [] ==> s.sink.got[0] == Nil
  {
    ReadFromPipeline(c, s);
    PayloadGrows(c.input, Sent(c, s.src), Emitted(c, s.src));
    assert Read(c, s.sink.got) <= Payload(c.input[..Sent(c, s.src)]);
  }

  lemma DrainedAtEnd(c: Config, s: State)
    requires Producer(c, s.src) && Order(c, s) && EndLast(s) && PumpHealthy(c, s.sink, s.acct) && AckFirst(c, s)
    requires s.sink.sawEnd
    ensures Read(c, s.sink.got) == Payload(c.input)
  {
    ReadFromPipeline(c, s);
    assert Unread(s) == [];
    assert c.input[..|c.input|] == c.input;
  }

  predicate NullFree(vs: seq<Value>) {
    forall i :: 0 <= i < |vs| ==> vs[i] != Null
  }

  lemma {:induction false} NullFreePayload(vs: seq<Value>)
    requires NullFree(vs)
    ensures |Payload(vs)| == |vs|
    decreases |vs|
  {
    if vs != [] {
      assert vs[0] != Null;
      NullFreePayload(vs[1..]);
    }
  }

  lemma NoNullWasSent(c: Config, s: State)
    requires Producer(c, s.src) && Order(c, s) && NullFree(c.input)
    ensures s.nulls == 0
  {
    NullFreePayload(c.input[..Sent(c, s.src)]);
  }

  lemma ConservedAt(c: Config, s: State)
    requires Inv(c, s)
    ensures s.acct.granted ==> Outstanding(s) + s.nulls + s.stray == Worth(Window(c))
    ensures NullFree(c.input) ==> s.nulls == 0
  {
    if s.acct.granted {
      Conservation(c, s);
    }
    if NullFree(c.input) {
      NoNullWasSent(c, s);
    }
  }

  /** Credit conservation and no overflow. In every run, once the window has been
      granted, gate credit, credits and values in flight, queued, held, uncounted
      and delivered values never add up to more than the window; they add up to
      exactly the window while a stream without Nulls is being sent; and the pump
      never overflows. */
  lemma CreditConserved(c: Config, acts: seq<Action>, t: State)
    requires Runs(c, Init(c), acts, t)
    ensures t.acct.granted ==> Outstanding(t) + t.nulls + t.stray == Worth(Window(c))
    ensures t.acct.granted ==> Outstanding(t) <= Worth(Window(c))
    ensures t.acct.granted && NullFree(c.input) && !t.src.sender.Finished? ==> Outstanding(t) == Worth(Window(c))
    ensures !t.sink.pump.overflow
    ensures t.fwd != [] && Cells([t.fwd[0]]) != [] ==> Accepts(t.sink.pump)
  {
    InitHolds(c);
    RunKeepsInv(c, Init(c), acts, t);
    ConservedAt(c, t);
    if t.fwd != [] && Cells([t.fwd[0]]) != [] {
      RoomForNext(c, t);
    }
  }

  // ---- every run is finite ----

  function SenderWork(x: Sender): nat {
    match x
    case Unstarted => 20
    case AtLoop => 9
    case Waiting(_) => 18
    case Charged(_) => 17
    case Finished => 0
  }

  function RunnerWork(r: Runner): nat {
    match r
    case Draining => 0
    case Holding(_) => 5
    case Uncounted => 3
    case Exited => 0
  }

  /** An upper bound on the number of steps a state has left. */
  function Work(s: State): nat {
    10 * |s.src.todo| + SenderWork(s.src.sender)
    + 7 * |s.fwd| + 2 * |s.back|
    + 6 * |s.sink.pump.queue| + RunnerWork(s.sink.runner) + |s.sink.out|
    + (if s.sink.outClosed then 0 else 1) + (if s.sink.sawEnd then 0 else 1)
    + (if s.acct.granted then 0 else 3) + (if s.acct.announced then 0 else 3)
  }

  lemma StepDoesWork(c: Config, s: State, a: Action)
    requires Enabled(c, s, a) && PumpHealthy(c, s.sink, s.acct)
    ensures Work(Next(c, s, a)) < Work(s)
  {
    match a
    case Receive => ReceiveDoesWork(c, s);
    case Count => CountDoesWork(c, s);
    case Pull | Exit | Deliver | HandOver | Consume | SeeEnd => SinkDoesWork(c, s, a);
    case _ =>
  }

  lemma CountDoesWork(c: Config, s: State)
    requires Enabled(c, s, Count)
    ensures Work(Next(c, s, Count)) < Work(s)
  {
  }

  lemma SinkDoesWork(c: Config, s: State, a: Action)
    requires Enabled(c, s, a) && PumpHealthy(c, s.sink, s.acct)
    requires a.Pull? || a.Exit? || a.Deliver? || a.HandOver? || a.Consume? || a.SeeEnd?
    ensures Work(Next(c, s, a)) < Work(s)
  {
  }

  lemma ReceiveDoesWork(c: Config, s: State)
    requires Enabled(c, s, Receive)
    ensures Work(Next(c, s, Receive)) < Work(s)
  {
    assert |PumpAfter(s.sink.pump, s.fwd[0]).queue| <= |s.sink.pump.queue| + 1;
  }

  /** Every run of a stream takes at most as many steps as its initial work. */
  lemma {:induction false} RunsAreFinite(c: Config, s: State, acts: seq<Action>, t: State)
    requires Inv(c, s) && Runs(c, s, acts, t)
    ensures |acts| + Work(t) <= Work(s)
    decreases |acts|
  {
    if acts != [] {
      StepKeepsInv(c, s, acts[0]);
      StepDoesWork(c, s, acts[0]);
      RunsAreFinite(c, Next(c, s, acts[0]), acts[1..], t);
    }
  }

  // ---- when a stream completes ----

  /** How many values credit allows before the value at `i` is sent: the window,
      and a whole number of batches of the values delivered before it. */
  function Allowance(c: Config, i: nat): nat
    requires i <= |c.input|
  {
    Worth(Window(c)) + WholeBatches(|Payload(c.input[..i])|, Batch(Window(c)))
  }

  /** Nulls use up credit for good; this says that at no point of the input have
      they used up all of it. A caller can evaluate it before streaming. */
  predicate CreditSufficient(c: Config) {
    forall i :: 0 <= i < |c.input| ==> i < Allowance(c, i)
  }

  lemma {:induction false} BatchesBelow(n: nat, d: nat, b: int)
    requires b >= 1 && n <= d && WholeBatches(n, b) == n
    ensures n <= WholeBatches(d, b)
    ensures d < n + b ==> WholeBatches(d, b) == n
    decreases d
  {
    if n >= b {
      BatchesBelow(n - b, d - b, b);
    }
  }

  /** A stream without Nulls and with a window always has enough credit. */
  lemma NullFreeIsSufficient(c: Config)
    requires NullFree(c.input) && Window(c) >= 1
    ensures CreditSufficient(c)
  {
    forall i | 0 <= i < |c.input|
      ensures i < Allowance(c, i)
    {
      NullFreePayload(c.input[..i]);
    }
  }

  /** Every value paid for so far was within its allowance. */
  predicate Paid(c: Config, s: State) {
    forall i :: 0 <= i < Spent(c, s.src) && i < |c.input| ==> i < Allowance(c, i)
  }

  /** Counted deliveries are values that were sent. */
  lemma IssuedWithinSent(c: Config, s: State)
    requires Producer(c, s.src) && Order(c, s) && Tally(c, s.sink, s.acct)
    ensures s.acct.issued <= |Payload(c.input[..Sent(c, s.src)])|
  {
    assert |Stages(s.sink) + Cells(s.fwd)| >= |s.sink.got| + |s.sink.out|;
    PipelineSize(c, s);
  }

  /** A sender that obtains a credit is within its allowance. */
  lemma CreditIsAllowance(c: Config, s: State)
    requires Producer(c, s.src) && Order(c, s) && Ledger(c, s) && Tally(c, s.sink, s.acct) && Batched(c, s.acct)
    requires Enabled(c, s, Charge)
    ensures Spent(c, s.src) < Allowance(c, Spent(c, s.src))
  {
    IssuedWithinSent(c, s);
    BatchesBelow(s.acct.issued, |Payload(c.input[..Spent(c, s.src)])|, Batch(Window(c)));
  }

  lemma OtherStepsSpendNothing(c: Config, s: State, a: Action)
    requires Enabled(c, s, a) && !a.Charge?
    ensures Spent(c, Next(c, s, a).src) == Spent(c, s.src)
  {
  }

  lemma StepIsPaid(c: Config, s: State, a: Action)
    requires Inv(c, s) && Paid(c, s) && Enabled(c, s, a)
    ensures Paid(c, Next(c, s, a))
  {
    if a.Charge? {
      CreditIsAllowance(c, s);
      assert Spent(c, Next(c, s, a).src) == Spent(c, s.src) + 1;
    } else {
      OtherStepsSpendNothing(c, s, a);
    }
  }

  lemma {:induction false} RunIsPaid(c: Config, s: State, acts: seq<Action>, t: State)
    requires Inv(c, s) && Paid(c, s) && Runs(c, s, acts, t)
    ensures Paid(c, t)
    decreases |acts|
  {
    if acts != [] {
      StepKeepsInv(c, s, acts[0]);
      StepIsPaid(c, s, acts[0]);
      RunIsPaid(c, Next(c, s, acts[0]), acts[1..], t);
    }
  }

  /** No step is possible any more. */
  predicate Stuck(c: Config, s: State) {
    forall a :: !Enabled(c, s, a)
  }

  /** The consumer has everything and has seen the end. */
  predicate Complete(c: Config, s: State) {
    s.sink.sawEnd && Read(c, s.sink.got) == Payload(c.input)
  }

  /** With no step possible both channels are empty and the sink is drained. */
  lemma StuckIsDrained(c: Config, s: State)
    requires Stuck(c, s) && PumpHealthy(c, s.sink, s.acct)
    ensures s.fwd == [] && s.back == []
    ensures s.sink.out == [] && s.sink.pump.queue == [] && (s.sink.runner.Draining? || s.sink.runner.Exited?)
  {
    assert !Enabled(c, s, Receive) && !Enabled(c, s, ReceiveReply);
    assert !Enabled(c, s, GrantWindow);
    assert ConsumerReads(c, s);
    assert !Enabled(c, s, Consume) && !Enabled(c, s, HandOver);
    assert !Enabled(c, s, Count) && !Enabled(c, s, Pull);
  }

  /** ... the consumer of a started stream has read its ack. */
  lemma AckWasRead(c: Config, s: State)
    requires Producer(c, s.src) && Order(c, s)
    requires Acked(c) && !s.src.sender.Unstarted? && Unread(s) == []
    ensures s.sink.got != []
  {
    PipelineSize(c, s);
    assert |Stages(s.sink)| + |Cells(s.fwd)| == |s.sink.got| + |Unread(s)|;
  }

  /** ... its window is granted, and its sender has finished or waits for credit. */
  lemma StuckSender(c: Config, s: State)
    requires Producer(c, s.src) && Order(c, s) && OpenedOnce(c, s)
    requires Stuck(c, s) && s.fwd == [] && s.back == [] && Unread(s) == []
    ensures s.acct.granted && (s.src.sender.Waiting? || s.src.sender.Finished?)
  {
    assert !Enabled(c, s, GrantWindow) && !Enabled(c, s, Announce);
    assert !Enabled(c, s, Start) && !Enabled(c, s, Take) && !Enabled(c, s, Send) && !Enabled(c, s, SendEnd);
    if Acked(c) {
      AckWasRead(c, s);
    }
  }

  lemma FinishedIsComplete(c: Config, s: State)
    requires Inv(c, s) && Stuck(c, s) && s.src.sender.Finished?
    ensures Complete(c, s)
  {
    StuckIsDrained(c, s);
    StuckSender(c, s);
    assert !Enabled(c, s, Exit) && !Enabled(c, s, SeeEnd);
    DrainedAtEnd(c, s);
  }

  /** A sender stuck at the gate has used up its allowance exactly. */
  lemma StarvedIsInsufficient(c: Config, s: State)
    requires Inv(c, s) && Stuck(c, s) && s.src.sender.Waiting?
    ensures !CreditSufficient(c) && !s.sink.sawEnd
  {
    StuckIsDrained(c, s);
    StuckSender(c, s);
    var k := Spent(c, s.src);
    assert !Enabled(c, s, Charge);
    assert s.src.gate.credit == 0 && k == Worth(Window(c)) + s.acct.issued;
    PipelineSize(c, s);
    ReadFromPipeline(c, s);
    BatchesBelow(s.acct.issued, |Payload(c.input[..k])|, Batch(Window(c)));
    assert !(k < Allowance(c, k));
  }

  lemma StuckIsCompleteOrStarved(c: Config, s: State)
    requires Inv(c, s) && Paid(c, s) && Stuck(c, s)
    ensures Complete(c, s) <==> CreditSufficient(c)
  {
    StuckIsDrained(c, s);
    StuckSender(c, s);
    if s.src.sender.Finished? {
      FinishedIsComplete(c, s);
      assert Spent(c, s.src) == |c.input|;
    } else {
      StarvedIsInsufficient(c, s);
    }
  }

  /** No credit deadlock, exactly: a run that has come to a stop has delivered
      everything and closed the channel if and only if the input leaves enough
      credit. By RunsAreFinite every run comes to such a stop. */
  lemma CompletesExactlyWhenSufficient(c: Config, acts: seq<Action>, t: State)
    requires Runs(c, Init(c), acts, t) && Stuck(c, t)
    ensures Complete(c, t) <==> CreditSufficient(c)
  {
    InitHolds(c);
    RunKeepsInv(c, Init(c), acts, t);
    RunIsPaid(c, Init(c), acts, t);
    StuckIsCompleteOrStarved(c, t);
  }

  /** Nothing is in flight, queued or held by the pump. */
  predicate Quiet(s: State) {
    s.fwd == [] && s.back == [] && s.sink.pump.queue == [] && s.sink.runner.Draining?
  }

  /** No credit deadlock without Nulls: whatever the window, every reachable state
      that is not complete has a step left, and a sender that waits while nothing
      is in flight, queued or held finds credit at its gate. */
  lemma NoCreditDeadlock(c: Config, acts: seq<Action>, t: State)
    requires Runs(c, Init(c), acts, t) && NullFree(c.input) && Window(c) >= 1
    ensures Complete(c, t) || exists a :: Enabled(c, t, a)
    ensures t.acct.granted && t.src.sender.Waiting? && Quiet(t) ==> t.src.gate.credit >= 1
  {
    if Stuck(c, t) {
      CompletesExactlyWhenSufficient(c, acts, t);
      NullFreeIsSufficient(c);
    }
    InitHolds(c);
    RunKeepsInv(c, Init(c), acts, t);
    if t.acct.granted {
      CreditConserved(c, acts, t);
    }
  }

  /** From every state the invariant allows, a stream can run until it stops. */
  lemma {:induction false} EveryRunCanStop(c: Config, s: State) returns (acts: seq<Action>, t: State)
    requires Inv(c, s)
    ensures Runs(c, s, acts, t) && Stuck(c, t)
    decreases Work(s)
  {
    if Stuck(c, s) {
      return [], s;
    }
    var a :| Enabled(c, s, a);
    StepKeepsInv(c, s, a);
    StepDoesWork(c, s, a);
    var rest, u := EveryRunCanStop(c, Next(c, s, a));
    RunFrom(c, s, a, rest, u);
    acts, t := [a] + rest, u;
  }

  lemma RunFrom(c: Config, s: State, a: Action, rest: seq<Action>, t: State)
    requires Enabled(c, s, a) && Runs(c, Next(c, s, a), rest, t)
    ensures Runs(c, s, [a] + rest, t)
  {
    assert ([a] + rest)[1..] == rest;
  }

  /** A server that is configured with a non-positive bound passes it on as the
      window, and then no stream to it that carries a value completes. */
  lemma NonPositiveWindowStarves(c: Config, acts: seq<Action>, t: State)
    requires c.ep.ServerResponder? && c.maxPending <= 0 && c.input != []
    requires Runs(c, Init(c), acts, t) && Stuck(c, t)
    ensures !Complete(c, t)
  {
    CompletesExactlyWhenSufficient(c, acts, t);
    assert !(0 < Allowance(c, 0));
  }

  /** An input that does not leave enough credit strands its sender. */
  lemma InsufficientStarves(c: Config) returns (acts: seq<Action>, t: State)
    requires !CreditSufficient(c)
    ensures Runs(c, Init(c), acts, t) && Stuck(c, t) && !Complete(c, t)
  {
    InitHolds(c);
    acts, t := EveryRunCanStop(c, Init(c));
    CompletesExactlyWhenSufficient(c, acts, t);
  }

  /** Two Nulls are enough for a window of two: a run that stops with the value
      behind them undelivered. */
  lemma TwoNullsAreTooMany(c: Config) returns (acts: seq<Action>, t: State)
    requires c == Config(ClientInitiator, 2, 0, [Null, Null, Data("x")])
    ensures !CreditSufficient(c)
    ensures Runs(c, Init(c), acts, t) && Stuck(c, t) && !Complete(c, t)
  {
    assert c.input[..2] == [Null] + [Null];
    PayloadAppend([Null], Null);
    assert !(2 < Allowance(c, 2));
    acts, t := InsufficientStarves(c);
  }
}
