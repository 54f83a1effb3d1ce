/** Every step of a stream keeps the invariant of module StreamFlow, one part of
    the invariant at a time. */
module StreamInvariant {
  import opened Values
  import opened StreamPumps
  import opened StreamFlow

  lemma InitOrdered(c: Config, s: State)
    requires s.src.todo == c.input && s.src.sender.Unstarted? && Stages(s.sink) == [] && s.fwd == [] && s.nulls == 0
    ensures Producer(c, s.src) && Order(c, s)
  {
    assert c.input[..0] == [];
  }

  lemma InitHolds(c: Config)
    ensures Inv(c, Init(c))
  {
    InitOrdered(c, Init(c));
  }

  lemma ProducerKeeps(c: Config, s: State, a: Action)
    requires Producer(c, s.src) && Enabled(c, s, a)
    ensures Producer(c, Next(c, s, a).src)
  {
    if a.ReceiveReply? {
      assert Producer(c, SourceAfter(s.src, s.back[0]));
    } else {
      StepKeepsProducer(c, s.src, a);
      assert Next(c, s, a).src == NextSource(s.src, a);
    }
  }

  lemma StepKeepsProducer(c: Config, src: Source, a: Action)
    requires Producer(c, src)
    requires a.Take? ==> src.sender.AtLoop? && src.todo != []
    requires a.Charge? ==> src.sender.Waiting?
    requires a.Start? ==> src.sender.Unstarted?
    requires a.Send? ==> src.sender.Charged?
    requires a.SendEnd? ==> src.sender.AtLoop? && src.todo == []
    ensures Producer(c, NextSource(src, a))
  {
  }

  // ---- order ----

  /** Steps inside the sink only move cells along. */
  lemma SinkStepKeepsStages(c: Config, s: State, a: Action)
    requires Enabled(c, s, a) && !a.Receive?
    ensures Stages(Next(c, s, a).sink) == Stages(s.sink)
  {
    var k, k' := s.sink, Next(c, s, a).sink;
    match a
    case Pull => assert k.pump.queue == [k.pump.queue[0]] + k.pump.queue[1..];
    case Deliver => assert k.got + k.out + [k.runner.cell] == k'.got + k'.out + InHand(k'.runner);
    case HandOver => assert k.got + k.out + [k.runner.cell] == k'.got + k'.out + InHand(k'.runner);
    case Consume => assert k.got + k.out == k'.got + k'.out;
    case _ =>
  }

  /** A message on the wire extends the pipeline by its cells. */
  lemma WireAppend(k: Sink, fwd: seq<Message>, m: Message)
    ensures Stages(k) + Cells(fwd + [m]) == Stages(k) + Cells(fwd) + Cells([m])
    ensures NullMessages(fwd + [m]) == NullMessages(fwd) + NullMessages([m])
  {
    CellsAppend(fwd, m);
    assert Stages(k) + (Cells(fwd) + Cells([m])) == Stages(k) + Cells(fwd) + Cells([m]);
  }

  /** The cells of single messages. */
  lemma OneMessage(v: Value)
    ensures Cells([Val(v)]) == Payload([v]) && |Payload([v])| + NullMessages([Val(v)]) == 1
    ensures Cells([Ready]) == [Nil] && NullMessages([Ready]) == 0
    ensures Cells([End]) == [] && NullMessages([End]) == 0
  {
    assert [Val(v)][1..] == [] && [v][1..] == [] && [Ready][1..] == [] && [End][1..] == [];
  }

  /** The ack is all there is in the pipeline of a stream that has just started. */
  lemma AckIsAlone(c: Config, src: Source, k: Sink)
    requires |src.todo| == |c.input| && src.sender.AtLoop? && Acked(c) && Stages(k) == []
    ensures Stages(k) + Cells([Ready]) == Expected(c, src)
    ensures Sent(c, src) == |Payload(c.input[..Sent(c, src)])| + NullMessages([Ready])
  {
    assert c.input[..0] == [];
    OneMessage(Null);
  }

  lemma StartKeepsOrder(c: Config, s: State)
    requires Producer(c, s.src) && Order(c, s) && AckFirst(c, s) && Enabled(c, s, Start)
    ensures Producer(c, Next(c, s, Start).src) && Order(c, Next(c, s, Start))
  {
    ProducerKeeps(c, s, Start);
    AckIsAlone(c, NextSource(s.src, Start), s.sink);
    assert s.nulls == 0;
    assert s.fwd + [Ready] == [Ready];
  }

  lemma SendExtendsExpected(c: Config, src: Source)
    requires Producer(c, src) && src.sender.Charged? && Producer(c, NextSource(src, Send))
    ensures Sent(c, NextSource(src, Send)) == Sent(c, src) + 1
    ensures Expected(c, NextSource(src, Send)) == Expected(c, src) + Payload([src.sender.v])
    ensures |Payload(c.input[..Sent(c, src) + 1])| == |Payload(c.input[..Sent(c, src)])| + |Payload([src.sender.v])|
  {
    var k, v := Sent(c, src), src.sender.v;
    assert c.input[..k + 1] == c.input[..k] + [v];
    PayloadAppend(c.input[..k], v);
  }

  lemma SendKeepsOrder(c: Config, s: State)
    requires Producer(c, s.src) && Order(c, s) && Enabled(c, s, Send)
    ensures Producer(c, Next(c, s, Send).src) && Order(c, Next(c, s, Send))
  {
    ProducerKeeps(c, s, Send);
    SendExtendsExpected(c, s.src);
    WireAppend(s.sink, s.fwd, Val(s.src.sender.v));
    OneMessage(s.src.sender.v);
  }

  lemma SendEndKeepsOrder(c: Config, s: State)
    requires Producer(c, s.src) && Order(c, s) && Enabled(c, s, SendEnd)
    ensures Producer(c, Next(c, s, SendEnd).src) && Order(c, Next(c, s, SendEnd))
  {
    WireAppend(s.sink, s.fwd, End);
    OneMessage(Null);
    assert Next(c, s, SendEnd).sink == s.sink;
    assert Expected(c, Next(c, s, SendEnd).src) == Expected(c, s.src);
  }

  /** The read loop moves the cells of one message from the wire to the queue. */
  lemma ReceiveMovesCells(k: Sink, fwd: seq<Message>)
    requires fwd != [] && (Cells([fwd[0]]) != [] ==> Accepts(k.pump))
    ensures Stages(k.(pump := PumpAfter(k.pump, fwd[0]))) + Cells(fwd[1..]) == Stages(k) + Cells(fwd)
  {
    FirstCells(fwd);
    PushAppends(k.pump, fwd[0]);
    Regroup(k.got + k.out + InHand(k.runner), k.pump.queue, Cells([fwd[0]]), Cells(fwd[1..]));
  }

  lemma FirstCells(fwd: seq<Message>)
    requires fwd != []
    ensures Cells(fwd) == Cells([fwd[0]]) + Cells(fwd[1..])
  {
    assert [fwd[0]][1..] == [];
  }

  lemma PushAppends(p: Pump, m: Message)
    requires Cells([m]) != [] ==> Accepts(p)
    ensures PumpAfter(p, m).queue == p.queue + Cells([m])
  {
    assert [m][1..] == [];
  }

  lemma Regroup(a: seq<Cell>, b: seq<Cell>, c: seq<Cell>, d: seq<Cell>)
    ensures a + (b + c) + d == a + b + (c + d)
  {
  }

  lemma ReceiveKeepsOrder(c: Config, s: State)
    requires Producer(c, s.src) && Order(c, s) && Enabled(c, s, Receive)
    requires Cells([s.fwd[0]]) != [] ==> Accepts(s.sink.pump)
    ensures Order(c, Next(c, s, Receive))
  {
    ReceiveMovesCells(s.sink, s.fwd);
  }

  /** All the other steps leave the wire alone, and what was sent on it. */
  lemma OtherStepsSendNothing(c: Config, s: State, a: Action)
    requires Enabled(c, s, a) && !a.Receive? && !a.Start? && !a.Send? && !a.SendEnd?
    ensures Next(c, s, a).fwd == s.fwd && Next(c, s, a).nulls == s.nulls
    ensures Sent(c, Next(c, s, a).src) == Sent(c, s.src)
    ensures !s.src.sender.Unstarted? ==> !Next(c, s, a).src.sender.Unstarted?
    ensures !(a.ReceiveReply? && s.back[0] == Opened) && s.src.sender.Unstarted? ==> Next(c, s, a).src.sender.Unstarted?
  {
  }

  lemma OtherStepsKeepOrder(c: Config, s: State, a: Action)
    requires Producer(c, s.src) && Order(c, s) && Enabled(c, s, a)
    requires !a.Receive? && !a.Start? && !a.Send? && !a.SendEnd?
    requires a.ReceiveReply? && Acked(c) ==> s.back[0] != Opened
    ensures Producer(c, Next(c, s, a).src) && Order(c, Next(c, s, a))
  {
    ProducerKeeps(c, s, a);
    SinkStepKeepsStages(c, s, a);
    OtherStepsSendNothing(c, s, a);
  }

  lemma OrderKeeps(c: Config, s: State, a: Action)
    requires Producer(c, s.src) && Order(c, s) && AckFirst(c, s) && OpenedOnce(c, s) && Enabled(c, s, a)
    requires a.Receive? && Cells([s.fwd[0]]) != [] ==> Accepts(s.sink.pump)
    ensures Producer(c, Next(c, s, a).src) && Order(c, Next(c, s, a))
  {
    match a
    case Receive => ReceiveKeepsOrder(c, s);
    case Start => StartKeepsOrder(c, s);
    case Send => SendKeepsOrder(c, s);
    case SendEnd => SendEndKeepsOrder(c, s);
    case _ => OtherStepsKeepOrder(c, s, a);
  }

  // ---- credit ----

  lemma TallyKeeps(c: Config, s: State, a: Action)
    requires Tally(c, s.sink, s.acct) && Enabled(c, s, a)
    ensures Tally(c, Next(c, s, a).sink, Next(c, s, a).acct)
  {
    if a.Count? {
      CountKeepsTally(c, s);
    } else {
      var k, k' := s.sink, Next(c, s, a).sink;
      assert |k'.got| + |k'.out| == |k.got| + |k.out| + (if a.Deliver? || a.HandOver? then 1 else 0);
    }
  }

  lemma CountKeepsTally(c: Config, s: State)
    requires Tally(c, s.sink, s.acct) && Enabled(c, s, Count)
    ensures Tally(c, Next(c, s, Count).sink, Next(c, s, Count).acct)
  {
  }

  lemma BatchedKeeps(c: Config, s: State, a: Action)
    requires Tally(c, s.sink, s.acct) && Batched(c, s.acct) && Enabled(c, s, a)
    ensures Batched(c, Next(c, s, a).acct)
  {
  }

  /** Before the window is granted the only delivery to count is the ack. */
  lemma UngrantedCountsAck(c: Config, s: State)
    requires Producer(c, s.src) && Order(c, s) && Ledger(c, s) && Tally(c, s.sink, s.acct)
    requires !s.acct.granted && s.sink.runner.Uncounted?
    ensures s.acct.delivered == -1
  {
    PipelineSize(c, s);
  }

  lemma CountKeepsLedger(c: Config, s: State)
    requires Ledger(c, s) && Enabled(c, s, Count)
    requires !s.acct.granted ==> s.acct.delivered == -1
    ensures Ledger(c, Next(c, s, Count))
  {
    CreditAppend(s.back, Credit(GrantAfter(s.acct.delivered, Window(c))));
  }

  lemma OtherStepsKeepLedger(c: Config, s: State, a: Action)
    requires Ledger(c, s) && Enabled(c, s, a) && !a.Count?
    ensures Ledger(c, Next(c, s, a))
  {
    match a
    case GrantWindow => CreditAppend(s.back, Credit(Window(c)));
    case Announce => CreditAppend(s.back, Opened);
    case ReceiveReply => ReplyKeepsLedger(c, s);
    case _ =>
  }

  lemma ReplyKeepsLedger(c: Config, s: State)
    requires Ledger(c, s) && Enabled(c, s, ReceiveReply)
    ensures Ledger(c, Next(c, s, ReceiveReply))
  {
  }

  lemma LedgerKeeps(c: Config, s: State, a: Action)
    requires Producer(c, s.src) && Order(c, s) && Ledger(c, s) && Tally(c, s.sink, s.acct) && Enabled(c, s, a)
    ensures Ledger(c, Next(c, s, a))
  {
    if a.Count? {
      if !s.acct.granted {
        UngrantedCountsAck(c, s);
      }
      CountKeepsLedger(c, s);
    } else {
      OtherStepsKeepLedger(c, s, a);
    }
  }

  // ---- the ack, the announcement and the end ----

  lemma AckFirstKeeps(c: Config, s: State, a: Action)
    requires AckFirst(c, s) && OpenedOnce(c, s) && EndLast(s) && Enabled(c, s, a)
    ensures AckFirst(c, Next(c, s, a))
  {
    assert Stages(s.sink) == [] ==> s.sink.got == [] && s.sink.out == [] && s.sink.pump.queue == [];
    if a.Receive? {
      ReceiveKeepsAckFirst(c, s);
    } else {
      SinkStepKeepsStages(c, s, a);
    }
  }

  lemma ReceiveKeepsAckFirst(c: Config, s: State)
    requires AckFirst(c, s) && Enabled(c, s, Receive)
    ensures AckFirst(c, Next(c, s, Receive))
  {
  }

  lemma OpenedOnceKeeps(c: Config, s: State, a: Action)
    requires OpenedOnce(c, s) && Enabled(c, s, a)
    ensures OpenedOnce(c, Next(c, s, a))
  {
  }

  lemma EndLastKeeps(c: Config, s: State, a: Action)
    requires EndLast(s) && Enabled(c, s, a)
    requires a.Receive? && Cells([s.fwd[0]]) != [] ==> Accepts(s.sink.pump)
    ensures EndLast(Next(c, s, a))
  {
  }

  /** By the time the channel is closed and empty the consumer has the ack. */
  lemma EndAfterAck(c: Config, s: State)
    requires Producer(c, s.src) && Order(c, s) && EndLast(s) && PumpHealthy(c, s.sink, s.acct)
    requires Acked(c) && s.sink.outClosed && s.sink.out == []
    ensures s.sink.got != []
  {
    PipelineSize(c, s);
  }

  lemma PumpHealthyKeeps(c: Config, s: State, a: Action)
    requires PumpHealthy(c, s.sink, s.acct) && Enabled(c, s, a) && EndLast(s)
    requires a.Receive? && Cells([s.fwd[0]]) != [] ==> Accepts(s.sink.pump)
    requires a.SeeEnd? && Acked(c) ==> s.acct.granted
    ensures PumpHealthy(c, Next(c, s, a).sink, Next(c, s, a).acct)
  {
  }

  // ---- every step, every run ----

  /** Push never takes the overflow branch: whatever is next on the wire finds
      room, because its sender paid for it. */
  lemma RoomForNext(c: Config, s: State)
    requires Inv(c, s) && s.fwd != [] && Cells([s.fwd[0]]) != []
    ensures Accepts(s.sink.pump)
  {
    if s.fwd[0].Val? {
      ValueNeedsGrant(c, s);
      RoomForValue(c, s);
    }
  }

  lemma StepKeepsInv(c: Config, s: State, a: Action)
    requires Inv(c, s) && Enabled(c, s, a)
    ensures Inv(c, Next(c, s, a))
  {
    if a.Receive? && Cells([s.fwd[0]]) != [] {
      RoomForNext(c, s);
    }
    if a.SeeEnd? && Acked(c) {
      EndAfterAck(c, s);
    }
    OrderKeeps(c, s, a);
    LedgerKeeps(c, s, a);
    TallyKeeps(c, s, a);
    BatchedKeeps(c, s, a);
    AckFirstKeeps(c, s, a);
    OpenedOnceKeeps(c, s, a);
    EndLastKeeps(c, s, a);
    PumpHealthyKeeps(c, s, a);
  }

  lemma {:induction false} RunKeepsInv(c: Config, s: State, acts: seq<Action>, t: State)
    requires Inv(c, s) && Runs(c, s, acts, t)
    ensures Inv(c, t)
    decreases |acts|
  {
    if acts != [] {
      StepKeepsInv(c, s, acts[0]);
      RunKeepsInv(c, Next(c, s, acts[0]), acts[1..], t);
    }
  }
}
