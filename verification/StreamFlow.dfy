/** One direction of a stream as a transition system: a credit-gated sender, two
    reliable FIFO channels, and a receiver that feeds a bounded pump and hands
    back credit in batches. The same accounting is written four times in the
    source (client and server, as initiator and as responder); `Endpoint` says
    which copy receives. No cancel or teardown happens in these runs. */
module StreamFlow {
  import opened Values
  import opened CreditGates
  import opened StreamPumps

  // ---- the receiver's credit accounting ----

  /** Credits are handed back in batches of about half the window. */
  function Batch(window: int): (r: int)
    ensures r >= 1
    ensures window >= 1 ==> r <= window
  {
    Max(1, window / 2)
  }

  /** `d` rounded down to a whole number of batches of size `b`. */
  function WholeBatches(d: nat, b: int): (r: nat)
    requires b >= 1
    ensures r <= d < r + b
  {
    if d < b then 0 else b + WholeBatches(d - b, b)
  }

  /** The delivered-since-grant counter after one more delivery. */
  function CounterAfter(delivered: int, window: int): int {
    if delivered + 1 >= Batch(window) then 0 else delivered + 1
  }

  /** The credit granted by that delivery; 0 when the batch is not full. */
  function GrantAfter(delivered: int, window: int): int {
    if delivered + 1 >= Batch(window) then delivered + 1 else 0
  }

  /** grantRecv and grantInbound: state kept by the pump goroutine of a receiver. */
  class ReceiveWindow {
    const window: int
    var delivered: int

    constructor (window: int, acked: bool)
      ensures this.window == window && delivered == (if acked then -1 else 0)
    {
      this.window := window;
      delivered := if acked then -1 else 0;
    }

    /** Called once per value handed to the consumer. Nothing is granted twice
        or forgotten, and fewer than a batch is ever held back. */
    method OnDeliver() returns (grant: int)
      requires delivered < Batch(window)
      modifies this
      ensures delivered == CounterAfter(old(delivered), window)
      ensures grant == GrantAfter(old(delivered), window)
      ensures delivered + grant == old(delivered) + 1
      ensures delivered < Batch(window) && (grant == 0 || grant == Batch(window))
    {
      delivered := delivered + 1;
      var batch := window / 2;
      if batch < 1 {
        batch := 1;
      }
      if delivered >= batch {
        grant := delivered;
        delivered := 0;
      } else {
        grant := 0;
      }
    }
  }

  // ---- configuration and state ----

  datatype Endpoint = ClientInitiator | ServerInitiator | ServerResponder | ClientResponder

  /** The receiver `ep` was asked for `maxPending`; `outCap` is the capacity of
      the channel its consumer reads; `input` is what the producer will emit. */
  datatype Config = Config(ep: Endpoint, maxPending: int, outCap: nat, input: seq<Value>)

  /** Initiators receive a StreamReady ack through the pump before any value. */
  predicate Acked(c: Config) {
    c.ep.ClientInitiator? || c.ep.ServerInitiator?
  }

  /** The server responder passes a non-positive bound on as its window; the
      other three copies replace it by the default. */
  function Window(c: Config): int {
    if c.ep.ServerResponder? then c.maxPending else Bound(c.maxPending)
  }

  /** What a window is worth to a gate, which ignores non-positive grants. */
  function Worth(n: int): nat {
    Max(n, 0)
  }

  datatype Message = Ready | Val(v: Value) | End
  datatype Reply = Credit(n: int) | Opened

  datatype Sender = Unstarted | AtLoop | Waiting(v: Value) | Charged(v: Value) | Finished
  datatype Runner = Draining | Holding(cell: Cell) | Uncounted | Exited

  /** The sender's goroutine, with what the producer has not emitted yet. */
  datatype Source = Source(todo: seq<Value>, sender: Sender, gate: Gate)

  /** From the receiver's pump to its consumer. */
  datatype Sink = Sink(
    pump: Pump,
    runner: Runner,
    out: seq<Cell>,         // buffered in the channel to the consumer
    outClosed: bool,
    got: seq<Cell>,         // everything the consumer has read, in order
    sawEnd: bool            // the consumer has seen the channel closed
  )

  /** The receiver's side of the credit protocol. */
  datatype Account = Account(
    granted: bool,          // the initial window has been sent
    announced: bool,        // a responder has said that the stream is open
    delivered: int,         // the delivered-since-grant counter
    issued: nat             // history: credit handed back in batches
  )

  datatype State = State(
    src: Source,
    fwd: seq<Message>,      // sender to receiver
    back: seq<Reply>,       // receiver to sender
    sink: Sink,
    acct: Account,
    nulls: nat,             // history: Null values received and dropped
    stray: nat              // history: credit that arrived after the sender left
  )

  function Init(c: Config): State {
    State(Source(c.input, Unstarted, FRESH_GATE), [], [],
          Sink(FreshPump(c.maxPending), Draining, [], false, [], false),
          Account(false, false, if Acked(c) then -1 else 0, 0), 0, 0)
  }

  // ---- steps ----

  datatype Action =
    | Start | Take | Charge | Send | SendEnd
    | Receive | Pull | Deliver | HandOver | Count | Exit
    | GrantWindow | Announce | ReceiveReply | DropReply
    | Consume | SeeEnd

  /** The consumer reads the ack alone, then grants the window, then goes on. */
  predicate ConsumerReads(c: Config, s: State) {
    Acked(c) ==> s.acct.granted || s.sink.got == []
  }

  predicate Enabled(c: Config, s: State, a: Action) {
    match a
    case Start => Acked(c) && s.src.sender.Unstarted?
    case Take => s.src.sender.AtLoop? && s.src.todo != []
    case Charge => s.src.sender.Waiting? && AttemptOn(s.src.gate).Acquired?
    case Send => s.src.sender.Charged?
    case SendEnd => s.src.sender.AtLoop? && s.src.todo == []
    case Receive => s.fwd != []
    case Pull => s.sink.runner.Draining? && !s.sink.pump.stopped && s.sink.pump.queue != []
    case Exit => s.sink.runner.Draining? && !s.sink.pump.stopped && s.sink.pump.queue == [] && s.sink.pump.inputEnd
    case Deliver => s.sink.runner.Holding? && |s.sink.out| < c.outCap
    case HandOver => s.sink.runner.Holding? && s.sink.out == [] && ConsumerReads(c, s)
    case Count => s.sink.runner.Uncounted?
    case GrantWindow => !s.acct.granted && (Acked(c) ==> s.sink.got != [])
    case Announce => !Acked(c) && s.acct.granted && !s.acct.announced
    case ReceiveReply => s.back != []
    case DropReply => s.back != [] && s.back[0].Credit? && s.src.sender.Finished?
    case Consume => s.sink.out != [] && ConsumerReads(c, s)
    case SeeEnd => s.sink.outClosed && s.sink.out == [] && !s.sink.sawEnd && ConsumerReads(c, s)
  }

  /** The pump after the read loop has handled one message. */
  function PumpAfter(p: Pump, m: Message): Pump {
    match m
    case Ready => AfterPush(p, Nil)
    case Val(v) => if v.Null? then p else AfterPush(p, Held(v))
    case End => p.(inputEnd := true)
  }

  /** The sender after its side has handled one reply. */
  function SourceAfter(src: Source, r: Reply): Source {
    match r
    case Credit(n) => src.(gate := AfterGrant(src.gate, n))
    case Opened => if src.sender.Unstarted? then src.(sender := AtLoop) else src
  }

  function NextSource(src: Source, a: Action): Source
    requires a.Take? ==> src.todo != []
    requires a.Charge? ==> src.sender.Waiting?
  {
    match a
    case Start => src.(sender := AtLoop)
    case Take => src.(sender := Waiting(src.todo[0]), todo := src.todo[1..])
    case Charge => src.(sender := Charged(src.sender.v), gate := AfterAttempt(src.gate))
    case Send => src.(sender := AtLoop)
    case SendEnd => src.(sender := Finished)
    case _ => src
  }

  function NextSink(k: Sink, a: Action): Sink
    requires a.Pull? ==> k.pump.queue != []
    requires a.Deliver? || a.HandOver? ==> k.runner.Holding?
    requires a.Consume? ==> k.out != []
  {
    match a
    case Pull => k.(runner := Holding(k.pump.queue[0]), pump := AfterTake(k.pump))
    case Exit => k.(runner := Exited, outClosed := true)
    case Deliver => k.(runner := Uncounted, out := k.out + [k.runner.cell])
    case HandOver => k.(runner := Uncounted, got := k.got + [k.runner.cell])
    case Count => k.(runner := Draining)
    case Consume => k.(out := k.out[1..], got := k.got + [k.out[0]])
    case SeeEnd => k.(sawEnd := true)
    case _ => k
  }

  /** onDeliver: count the delivery, and send a credit when the batch is full. */
  function Counted(c: Config, s: State): State {
    var n := GrantAfter(s.acct.delivered, Window(c));
    var t := s.(sink := NextSink(s.sink, Count));
    if n > 0 then
      t.(acct := s.acct.(delivered := CounterAfter(s.acct.delivered, Window(c)), issued := s.acct.issued + n),
         back := s.back + [Credit(n)])
    else
      t.(acct := s.acct.(delivered := CounterAfter(s.acct.delivered, Window(c))))
  }

  function Next(c: Config, s: State, a: Action): State
    requires Enabled(c, s, a)
  {
    match a
    case Start => s.(src := NextSource(s.src, a), fwd := s.fwd + [Ready])
    case Take => s.(src := NextSource(s.src, a))
    case Charge => s.(src := NextSource(s.src, a))
    case Send => s.(src := NextSource(s.src, a), fwd := s.fwd + [Val(s.src.sender.v)])
    case SendEnd => s.(src := NextSource(s.src, a), fwd := s.fwd + [End])
    case Receive =>
      s.(fwd := s.fwd[1..], sink := s.sink.(pump := PumpAfter(s.sink.pump, s.fwd[0])),
         nulls := if s.fwd[0] == Val(Null) then s.nulls + 1 else s.nulls)
    case Count => Counted(c, s)
    case GrantWindow => s.(acct := s.acct.(granted := true), back := s.back + [Credit(Window(c))])
    case Announce => s.(acct := s.acct.(announced := true), back := s.back + [Opened])
    case ReceiveReply => s.(src := SourceAfter(s.src, s.back[0]), back := s.back[1..])
    case DropReply => s.(back := s.back[1..], stray := s.stray + Worth(s.back[0].n))
    case _ => s.(sink := NextSink(s.sink, a))
  }

  /** `t` is reached from `s` by performing `acts` in order. */
  predicate Runs(c: Config, s: State, acts: seq<Action>, t: State)
    decreases |acts|
  {
    if acts == [] then s == t
    else Enabled(c, s, acts[0]) && Runs(c, Next(c, s, acts[0]), acts[1..], t)
  }

  // ---- what the parts of a state contain ----

  /** The cells a receiver will push for the messages of a channel. */
  function Cells(fwd: seq<Message>): seq<Cell> {
    if fwd == [] then []
    else (match fwd[0]
          case Ready => [Nil]
          case Val(v) => if v.Null? then [] else [Held(v)]
          case End => []) + Cells(fwd[1..])
  }

  /** The cells of a sequence of emitted values: the Nulls are dropped. */
  function Payload(vs: seq<Value>): seq<Cell> {
    if vs == [] then []
    else (if vs[0].Null? then [] else [Held(vs[0])]) + Payload(vs[1..])
  }

  function NullMessages(fwd: seq<Message>): nat {
    if fwd == [] then 0
    else (if fwd[0] == Val(Null) then 1 else 0) + NullMessages(fwd[1..])
  }

  function CreditIn(back: seq<Reply>): nat {
    if back == [] then 0
    else (if back[0].Credit? then Worth(back[0].n) else 0) + CreditIn(back[1..])
  }

  lemma {:induction false} CellsAppend(fwd: seq<Message>, m: Message)
    ensures Cells(fwd + [m]) == Cells(fwd) + Cells([m])
    ensures NullMessages(fwd + [m]) == NullMessages(fwd) + NullMessages([m])
    decreases |fwd|
  {
    if fwd == [] {
      assert [] + [m] == [m];
    } else {
      assert (fwd + [m])[1..] == fwd[1..] + [m];
      CellsAppend(fwd[1..], m);
    }
  }

  lemma {:induction false} PayloadAppend(vs: seq<Value>, v: Value)
    ensures Payload(vs + [v]) == Payload(vs) + Payload([v])
    decreases |vs|
  {
    if vs == [] {
      assert [] + [v] == [v];
    } else {
      assert (vs + [v])[1..] == vs[1..] + [v];
      PayloadAppend(vs[1..], v);
    }
  }

  lemma {:induction false} CreditAppend(back: seq<Reply>, r: Reply)
    ensures CreditIn(back + [r]) == CreditIn(back) + CreditIn([r])
    decreases |back|
  {
    if back == [] {
      assert [] + [r] == [r];
    } else {
      assert (back + [r])[1..] == back[1..] + [r];
      CreditAppend(back[1..], r);
    }
  }

  /** Values taken from the producer so far. */
  function Emitted(c: Config, src: Source): int {
    |c.input| - |src.todo|
  }

  /** Values put on the wire so far. */
  function Sent(c: Config, src: Source): int {
    Emitted(c, src) - (if src.sender.Waiting? || src.sender.Charged? then 1 else 0)
  }

  /** Credits spent so far. */
  function Spent(c: Config, src: Source): int {
    Emitted(c, src) - (if src.sender.Waiting? then 1 else 0)
  }

  function InHand(r: Runner): seq<Cell> {
    if r.Holding? then [r.cell] else []
  }

  /** Everything between the wire and the consumer, oldest first. */
  function Stages(k: Sink): seq<Cell> {
    k.got + k.out + InHand(k.runner) + k.pump.queue
  }

  /** What the pipeline has to hold: the ack, then the non-Null values sent. */
  function Expected(c: Config, src: Source): seq<Cell>
    requires 0 <= Sent(c, src) <= |c.input|
  {
    (if Acked(c) && !src.sender.Unstarted? then [Nil] else []) + Payload(c.input[..Sent(c, src)])
  }

  // ---- the invariant ----

  /** What was emitted is a prefix of the input. */
  predicate Producer(c: Config, src: Source) {
    && |src.todo| <= |c.input|
    && (forall i :: 0 <= i < |src.todo| ==> src.todo[i] == c.input[Emitted(c, src) + i])
    && 0 <= Sent(c, src)
    && (src.sender.Unstarted? ==> |src.todo| == |c.input|)
    && (src.sender.Waiting? || src.sender.Charged? ==> src.sender.v == c.input[Sent(c, src)])
    && (src.sender.Finished? ==> src.todo == [])
  }

  /** Nothing is lost, duplicated or reordered between wire and consumer. */
  predicate Order(c: Config, s: State)
    requires Producer(c, s.src)
  {
    && Stages(s.sink) + Cells(s.fwd) == Expected(c, s.src)
    && Sent(c, s.src) == |Payload(c.input[..Sent(c, s.src)])| + s.nulls + NullMessages(s.fwd)
  }

  /** The ledger of credit: granted equals held, in flight, stray or spent. */
  predicate Ledger(c: Config, s: State) {
    && s.src.gate.credit >= 0 && !s.src.gate.closed
    && s.src.gate.credit + CreditIn(s.back) + s.stray + Spent(c, s.src)
       == (if s.acct.granted then Worth(Window(c)) else 0) + s.acct.issued
    && (s.stray > 0 ==> s.src.sender.Finished?)
    && (!s.acct.granted ==> Spent(c, s.src) == 0 && s.acct.issued == 0)
  }

  /** Every delivery except the ack has been counted once. */
  predicate Tally(c: Config, k: Sink, acct: Account) {
    && acct.delivered + acct.issued + (if Acked(c) then 1 else 0) + (if k.runner.Uncounted? then 1 else 0)
       == |k.got| + |k.out|
    && -1 <= acct.delivered < Batch(Window(c))
    && (acct.delivered == -1 ==> Acked(c) && acct.issued == 0)
  }

  /** Credit is only ever handed back in whole batches. */
  predicate Batched(c: Config, acct: Account) {
    WholeBatches(acct.issued, Batch(Window(c))) == acct.issued
  }

  /** The ack is ahead of everything, and the window waits for it. */
  predicate AckFirst(c: Config, s: State) {
    && (forall i :: 1 <= i < |s.fwd| ==> s.fwd[i] != Ready)
    && (s.fwd != [] && s.fwd[0] == Ready ==>
          Acked(c) && !s.src.sender.Unstarted? && Stages(s.sink) == [] && s.sink.runner.Draining? && !s.acct.granted)
    && (Acked(c) && s.acct.granted ==> s.sink.got != [])
    && (s.src.sender.Unstarted? ==> s.fwd == [] && Stages(s.sink) == [] && s.sink.runner.Draining?)
  }

  /** A responder announces the stream once, after granting the window, and
      its initiator starts sending on that announcement. */
  predicate OpenedOnce(c: Config, s: State) {
    && (Opened in s.back <==> s.acct.announced && s.src.sender.Unstarted?)
    && (forall i, j :: 0 <= i < j < |s.back| && s.back[i] == Opened ==> s.back[j] != Opened)
    && (s.acct.announced ==> s.acct.granted && !Acked(c))
    && (!Acked(c) && !s.src.sender.Unstarted? ==> s.acct.announced)
  }

  /** The end of the stream travels behind every value. */
  predicate EndLast(s: State) {
    && (forall i :: 0 <= i < |s.fwd| && s.fwd[i] == End ==> i == |s.fwd| - 1)
    && (s.src.sender.Finished? <==> s.sink.pump.inputEnd || (s.fwd != [] && s.fwd[|s.fwd| - 1] == End))
    && (s.sink.pump.inputEnd ==> s.fwd == [])
  }

  /** The pump never overflows, and closes its channel once it has drained. */
  predicate PumpHealthy(c: Config, k: Sink, acct: Account) {
    && !k.pump.overflow && !k.pump.stopped && k.pump.maxPending == Bound(c.maxPending)
    && (k.runner.Exited? ==> k.pump.inputEnd && k.pump.queue == [])
    && (k.outClosed <==> k.runner.Exited?)
    && (k.sawEnd ==> k.outClosed && k.out == [] && (Acked(c) ==> acct.granted))
  }

  predicate Inv(c: Config, s: State) {
    && Producer(c, s.src) && Order(c, s) && Ledger(c, s)
    && Tally(c, s.sink, s.acct) && Batched(c, s.acct)
    && AckFirst(c, s) && OpenedOnce(c, s) && EndLast(s) && PumpHealthy(c, s.sink, s.acct)
  }

  /** The credit in the hands of the receiver's side and the sender's side. */
  function Outstanding(s: State): int {
    s.src.gate.credit                                 // at the gate
    + (if s.src.sender.Charged? then 1 else 0)        // spent on a value not yet on the wire
    + CreditIn(s.back)                                // credit in flight
    + |Cells(s.fwd)| + NullMessages(s.fwd)            // values in flight
    + |s.sink.pump.queue| + |InHand(s.sink.runner)|   // queued or held by the pump
    + (if s.sink.runner.Uncounted? then 1 else 0)     // delivered, not yet counted
    + s.acct.delivered                                // counted, not yet granted back
  }

  /** The pipeline accounts for the ack and the values sent. */
  lemma PipelineSize(c: Config, s: State)
    requires Producer(c, s.src) && Order(c, s)
    ensures |Stages(s.sink)| + |Cells(s.fwd)| + s.nulls + NullMessages(s.fwd)
            == Sent(c, s.src) + (if Acked(c) && !s.src.sender.Unstarted? then 1 else 0)
  {
    assert |Stages(s.sink) + Cells(s.fwd)| == |Expected(c, s.src)|;
  }

  /** Credit conservation, exactly: after the initial grant everything
      outstanding, plus the credits Null values used up and those that arrived
      after the sender left, is the window. */
  lemma Conservation(c: Config, s: State)
    requires Producer(c, s.src) && Order(c, s) && Ledger(c, s) && Tally(c, s.sink, s.acct)
    requires s.acct.granted && (Acked(c) ==> !s.src.sender.Unstarted?)
    ensures Outstanding(s) + s.nulls + s.stray == Worth(Window(c))
  {
    PipelineSize(c, s);
  }

  /** A value on the wire was paid for, so the window has been granted. */
  lemma ValueNeedsGrant(c: Config, s: State)
    requires Producer(c, s.src) && Order(c, s) && Ledger(c, s)
    requires s.fwd != [] && s.fwd[0].Val?
    ensures s.acct.granted
  {
    var pipe := Stages(s.sink) + Cells(s.fwd);
    assert s.fwd[0].v.Null? || pipe[|Stages(s.sink)|] == Held(s.fwd[0].v);
  }

  /** The pump has room for every value of a sender that pays for each one. */
  lemma RoomForValue(c: Config, s: State)
    requires Producer(c, s.src) && Order(c, s) && Ledger(c, s) && Tally(c, s.sink, s.acct)
    requires s.acct.granted && (Acked(c) ==> !s.src.sender.Unstarted? && s.sink.got != [])
    requires s.fwd != [] && s.fwd[0].Val? && !s.fwd[0].v.Null?
    ensures |s.sink.pump.queue| < Bound(c.maxPending)
  {
    assert |Cells(s.fwd)| >= 1;
    Conservation(c, s);
  }
}
