/** Every interleaving of Push, Close, Stop and the pump goroutine
    (valuerpc/pump.go). Sections under the pump's mutex are single steps; the
    send into `out`, and the two halves of Stop (closing the stop channel, then
    signalling under the mutex), are steps of their own. */
module PumpLifecycle {
  import opened Values
  import opened StreamPumps

  /** Where the pump goroutine is. `Exited` keeps the value it was holding when
      Stop interrupted the send, if any. */
  datatype Runner =
    | Check                   // about to evaluate the wait condition
    | Waiting                 // asleep in cond.Wait
    | Holding(cell: Cell)     // blocked in the send to out
    | Notifying               // value handed over, onDeliver not yet run
    | Exited(lost: seq<Cell>)

  datatype State = State(
    pump: Pump,
    runner: Runner,
    signals: nat,             // Stop calls between close(stopCh) and Signal
    out: seq<Cell>,           // history of values sent into out
    closes: nat,              // times out was closed
    accepted: seq<Cell>       // history of values Push returned true for
  )

  datatype Action =
    | Push(cell: Cell)
    | Close
    | StopClose
    | StopSignal
    | Enter
    | Deliver
    | AbortSend
    | Notified

  function Init(maxPending: int): State {
    State(FreshPump(maxPending), Check, 0, [], 0, [])
  }

  function Woken(r: Runner): Runner {
    if r.Waiting? then Check else r
  }

  predicate Enabled(s: State, a: Action) {
    match a
    case Push(_) => true
    case Close => true
    case StopClose => true
    case StopSignal => s.signals > 0
    case Enter => s.runner.Check?
    case Deliver => s.runner.Holding?
    case AbortSend => s.runner.Holding? && s.pump.stopped
    case Notified => s.runner.Notifying?
  }

  function Entered(s: State): State
    requires s.runner.Check?
  {
    if s.pump.stopped then s.(runner := Exited([]), closes := s.closes + 1)
    else if s.pump.queue == [] && !s.pump.inputEnd then s.(runner := Waiting)
    else if s.pump.queue == [] then s.(runner := Exited([]), closes := s.closes + 1)
    else s.(runner := Holding(s.pump.queue[0]), pump := AfterTake(s.pump))
  }

  function Next(s: State, a: Action): State
    requires Enabled(s, a)
  {
    match a
    case Push(c) =>
      s.(pump := AfterPush(s.pump, c),
         accepted := if Accepts(s.pump) then s.accepted + [c] else s.accepted,
         runner := if s.pump.inputEnd || s.pump.stopped then s.runner else Woken(s.runner))
    case Close => s.(pump := s.pump.(inputEnd := true), runner := Woken(s.runner))
    case StopClose => s.(pump := s.pump.(stopped := true), signals := s.signals + 1)
    case StopSignal => s.(signals := s.signals - 1, runner := Woken(s.runner))
    case Enter => Entered(s)
    case Deliver => s.(runner := Notifying, out := s.out + [s.runner.cell])
    case AbortSend => s.(runner := Exited([s.runner.cell]), closes := s.closes + 1)
    case Notified => s.(runner := Check)
  }

  /** `t` is reached from `s` by performing `acts` in order. */
  predicate Runs(s: State, acts: seq<Action>, t: State)
    decreases |acts|
  {
    if acts == [] then s == t
    else Enabled(s, acts[0]) && Runs(Next(s, acts[0]), acts[1..], t)
  }

  function InHand(r: Runner): seq<Cell> {
    match r
    case Holding(c) => [c]
    case Exited(lost) => lost
    case _ => []
  }

  predicate Inv(s: State) {
    && s.accepted == s.out + InHand(s.runner) + s.pump.queue
    && |s.pump.queue| <= s.pump.maxPending
    && (s.pump.overflow ==> s.pump.inputEnd)
    && s.closes == (if s.runner.Exited? then 1 else 0)
    && (s.runner.Exited? && !s.pump.stopped ==> s.pump.inputEnd && s.pump.queue == [] && s.runner.lost == [])
    && (s.runner.Exited? ==> |s.runner.lost| <= 1)
    && (s.runner.Waiting? ==> s.pump.queue == [] && !s.pump.inputEnd && (s.pump.stopped ==> s.signals > 0))
  }

  lemma StepKeepsInv(s: State, a: Action)
    requires Inv(s) && Enabled(s, a)
    ensures Inv(Next(s, a))
  {
    var t := Next(s, a);
    match a
    case Push(c) =>
      assert s.out + InHand(s.runner) + (s.pump.queue + [c]) == s.out + InHand(s.runner) + s.pump.queue + [c];
    case Enter =>
      if t.runner.Holding? {
        assert s.pump.queue == [s.pump.queue[0]] + s.pump.queue[1..];
      }
    case Deliver =>
      assert s.out + [s.runner.cell] + s.pump.queue == s.out + [s.runner.cell] + [] + s.pump.queue;
    case _ =>
  }

  lemma {:induction false} RunKeepsInv(s: State, acts: seq<Action>, t: State)
    requires Inv(s) && Runs(s, acts, t)
    ensures Inv(t)
    decreases |acts|
  {
    if acts != [] {
      StepKeepsInv(s, acts[0]);
      RunKeepsInv(Next(s, acts[0]), acts[1..], t);
    }
  }

  /** In every run what reached `out` is a prefix of what was accepted, the
      queue respects the bound, `out` is closed exactly when the goroutine is
      gone and never twice, and a goroutine that finished without Stop has
      delivered every accepted value. */
  lemma PumpDeliversInOrder(maxPending: int, acts: seq<Action>, t: State)
    requires Runs(Init(maxPending), acts, t)
    ensures t.out <= t.accepted
    ensures |t.pump.queue| <= t.pump.maxPending
    ensures t.closes <= 1 && (t.closes == 1 <==> t.runner.Exited?)
    ensures t.runner.Exited? && !t.pump.stopped ==> t.out == t.accepted
    ensures t.runner.Exited? ==> t.pump.stopped || t.pump.inputEnd
  {
    RunKeepsInv(Init(maxPending), acts, t);
    assert t.out <= t.out + (InHand(t.runner) + t.pump.queue);
    assert t.out + (InHand(t.runner) + t.pump.queue) == t.accepted;
  }

  /** Nothing is accepted after Close, Stop or overflow, whatever happens next. */
  lemma {:induction false} NothingAcceptedAfterEnd(s: State, acts: seq<Action>, t: State)
    requires s.pump.inputEnd || s.pump.stopped || s.pump.overflow
    requires Inv(s) && Runs(s, acts, t)
    ensures t.accepted == s.accepted
    ensures t.pump.inputEnd || t.pump.stopped
    decreases |acts|
  {
    if acts != [] {
      StepKeepsInv(s, acts[0]);
      NothingAcceptedAfterEnd(Next(s, acts[0]), acts[1..], t);
    }
  }

  /** The goroutine is asleep, or stuck in a send only the consumer can
      complete, exactly when it has nothing to do. */
  predicate Idle(s: State) {
    || s.runner.Exited?
    || (s.runner.Waiting? && s.pump.queue == [] && !s.pump.inputEnd && !s.pump.stopped)
    || (s.runner.Holding? && !s.pump.stopped)
  }

  /** No wake-up is lost: in every reachable state the goroutine is idle, or a
      step of its own or the pending signal of a Stop is enabled. In particular
      Stop interrupts a stuck send, and Close or Push reaches a sleeping pump. */
  lemma NoLostWakeup(maxPending: int, acts: seq<Action>, t: State)
    requires Runs(Init(maxPending), acts, t)
    ensures Idle(t) || Enabled(t, Enter) || Enabled(t, AbortSend) || Enabled(t, Notified)
            || (t.runner.Waiting? && Enabled(t, StopSignal) && Next(t, StopSignal).runner.Check?)
  {
    RunKeepsInv(Init(maxPending), acts, t);
  }
}
