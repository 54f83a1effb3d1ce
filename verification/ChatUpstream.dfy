/** The half of a chat that the initiator sends, when the responder's output may
    end at any time (valueclient/client.go, streamOut; valueclient/request.go,
    TryGetClose; valueserver/serving_request.go, outgoingStreamer; and their copies
    in valueserver/serving_stream.go and valueclient/serving.go). Until then it is
    a stream of module StreamFlow. The end of the output takes the request out of
    the responder's map and stops its pump, and closes the initiator's gate. */
module ChatUpstream {
  import opened Values
  import opened StreamPumps
  import opened StreamFlow
  import opened StreamInvariant
  import opened StreamTheorems

  /** How far the responder has come with ending its output. */
  datatype Stage = Serving | EndSent | Deleted | Stopped

  datatype Chat = Chat(
    up: State,
    stage: Stage,
    ahead: nat,             // replies in front of the StreamEnd that is on its way to the initiator
    told: bool,             // the initiator has received that StreamEnd
    aborted: bool           // the sender has been refused by the closed gate, and has left
  )

  datatype Move =
    | Do(a: Action)
    | EndOutput             // the responder's StreamEnd is put behind the replies so far
    | Delete
    | Stop
    | Hear
    | Refuse
    | Abort                 // the pump's goroutine finds the pump stopped
    | Miss                  // a frame that finds no request

  function Start(c: Config): Chat {
    Chat(Init(c), Serving, 0, false, false)
  }

  predicate IsSenders(a: Action) {
    a.Take? || a.Charge? || a.Send? || a.SendEnd?
  }

  predicate CanDo(c: Config, s: Chat, a: Action) {
    && Enabled(c, s.up, a)
    && (IsSenders(a) ==> !s.aborted)
    && (a.Receive? ==> s.stage.Serving? || s.stage.EndSent?)
    && (a.ReceiveReply? || a.DropReply? ==> s.stage.Serving? || s.told || s.ahead > 0)
  }

  predicate CanMove(c: Config, s: Chat, m: Move) {
    match m
    case Do(a) => CanDo(c, s, a)
    case EndOutput => s.stage.Serving? && s.up.acct.announced
    case Delete => s.stage.EndSent?
    case Stop => s.stage.Deleted?
    case Hear => !s.stage.Serving? && !s.told && s.ahead == 0
    case Refuse => s.up.src.sender.Waiting? && s.up.src.gate.closed && !s.aborted
    case Abort => s.up.sink.pump.stopped && (s.up.sink.runner.Draining? || s.up.sink.runner.Holding?)
    case Miss => (s.stage.Deleted? || s.stage.Stopped?) && s.up.fwd != []
  }

  function MoveUp(c: Config, s: Chat, m: Move): State
    requires CanMove(c, s, m)
  {
    match m
    case Do(a) => Next(c, s.up, a)
    case Stop => s.up.(sink := s.up.sink.(pump := s.up.sink.pump.(stopped := true)))
    case Hear => s.up.(src := s.up.src.(gate := s.up.src.gate.(closed := true)))
    case Abort => s.up.(sink := s.up.sink.(runner := Exited, outClosed := true))
    case Miss => s.up.(fwd := s.up.fwd[1..])
    case _ => s.up
  }

  function Moved(c: Config, s: Chat, m: Move): Chat
    requires CanMove(c, s, m)
  {
    var t := s.(up := MoveUp(c, s, m));
    match m
    case Do(a) => if (a.ReceiveReply? || a.DropReply?) && s.ahead > 0 then t.(ahead := s.ahead - 1) else t
    case EndOutput => t.(stage := EndSent, ahead := |s.up.back|)
    case Delete => t.(stage := Deleted)
    case Stop => t.(stage := Stopped)
    case Hear => t.(told := true)
    case Refuse => t.(aborted := true)
    case _ => t
  }

  predicate Moves(c: Config, s: Chat, ms: seq<Move>, t: Chat)
    decreases |ms|
  {
    if ms == [] then s == t
    else CanMove(c, s, ms[0]) && Moves(c, Moved(c, s, ms[0]), ms[1..], t)
  }

  /** What has come out of the responder's pump. */
  function Delivered(k: Sink): seq<Cell> {
    k.got + k.out
  }

  // ---- invariant ----

  /** The read loop still feeds the pump. */
  predicate Feeding(s: Chat) {
    (s.stage.Serving? || s.stage.EndSent?) && !s.up.sink.pump.inputEnd && !s.up.sink.pump.stopped
  }

  /** What has got through is a prefix of what was sent, and nothing is missing as
      long as the pump is fed. */
  predicate Ordered(c: Config, s: Chat)
    requires Producer(c, s.up.src)
  {
    && (s.up.sink.runner.Exited? ==> s.up.sink.pump.inputEnd || s.up.sink.pump.stopped)
    && (if s.up.sink.runner.Exited? then Delivered(s.up.sink) <= Expected(c, s.up.src)
        else Stages(s.up.sink) <= Expected(c, s.up.src))
    && (Feeding(s) ==> Stages(s.up.sink) + Cells(s.up.fwd) == Expected(c, s.up.src))
  }

  /** The initiator learns that the stream is open before it learns of the end. */
  predicate OpenFirst(s: Chat) {
    && s.ahead <= |s.up.back|
    && (s.stage.Serving? ==> !s.told)
    && (!s.stage.Serving? ==> s.up.acct.announced)
    && (s.up.acct.announced && s.up.src.sender.Unstarted? ==>
          if s.stage.Serving? then Opened in s.up.back else !s.told && Opened in s.up.back[..s.ahead])
  }

  predicate ChatInv(c: Config, s: Chat) {
    Producer(c, s.up.src) && Ordered(c, s) && OpenFirst(s) && (s.stage.Serving? ==> Inv(c, s.up) && !s.aborted)
  }

  lemma ProducerStays(c: Config, s: Chat, m: Move)
    requires Producer(c, s.up.src) && CanMove(c, s, m)
    ensures Producer(c, Moved(c, s, m).up.src)
  {
    if m.Do? {
      ProducerKeeps(c, s.up, m.a);
    }
  }

  lemma SendStaysOrdered(c: Config, s: Chat)
    requires Producer(c, s.up.src) && Ordered(c, s) && CanMove(c, s, Do(Send))
    ensures Producer(c, Moved(c, s, Do(Send)).up.src) && Ordered(c, Moved(c, s, Do(Send)))
  {
    ProducerStays(c, s, Do(Send));
    SendExtendsExpected(c, s.up.src);
    WireAppend(s.up.sink, s.up.fwd, Val(s.up.src.sender.v));
    OneMessage(s.up.src.sender.v);
  }

  lemma SendEndStaysOrdered(c: Config, s: Chat)
    requires Producer(c, s.up.src) && Ordered(c, s) && CanMove(c, s, Do(SendEnd))
    ensures Producer(c, Moved(c, s, Do(SendEnd)).up.src) && Ordered(c, Moved(c, s, Do(SendEnd)))
  {
    ProducerStays(c, s, Do(SendEnd));
    WireAppend(s.up.sink, s.up.fwd, End);
    OneMessage(Null);
  }

  lemma RefusedEndsInput(p: Pump, m: Message)
    requires Cells([m]) != [] && !Accepts(p)
    ensures PumpAfter(p, m).queue == p.queue && (PumpAfter(p, m).inputEnd || PumpAfter(p, m).stopped)
  {
    assert [m][1..] == [];
  }

  lemma TakenOrRefused(k: Sink, fwd: seq<Message>)
    requires fwd != []
    ensures
      var k' := k.(pump := PumpAfter(k.pump, fwd[0]));
      var moved := Stages(k') + Cells(fwd[1..]) == Stages(k) + Cells(fwd);
      && (Stages(k') == Stages(k) || (Accepts(k.pump) && moved))
      && (k'.pump.inputEnd || k'.pump.stopped || moved)
  {
    var m := fwd[0];
    if Cells([m]) != [] && !Accepts(k.pump) {
      RefusedEndsInput(k.pump, m);
    } else {
      ReceiveMovesCells(k, fwd);
      PushAppends(k.pump, m);
    }
  }

  /** A frame goes into the pump, or is refused by one that takes no more. */
  lemma ReceiveStaysOrdered(c: Config, s: Chat)
    requires Producer(c, s.up.src) && Ordered(c, s) && CanMove(c, s, Do(Receive))
    ensures Ordered(c, Moved(c, s, Do(Receive)))
  {
    TakenOrRefused(s.up.sink, s.up.fwd);
    var t := Moved(c, s, Do(Receive)).up;
    assert t.sink == s.up.sink.(pump := PumpAfter(s.up.sink.pump, s.up.fwd[0])) && t.fwd == s.up.fwd[1..];
    assert Expected(c, t.src) == Expected(c, s.up.src);
  }

  /** Steps of the stream never take anything back that was delivered. */
  lemma StepDelivers(c: Config, u: State, a: Action)
    requires Enabled(c, u, a)
    ensures Delivered(u.sink) <= Delivered(Next(c, u, a).sink)
    ensures u.sink.runner.Exited? ==> Delivered(Next(c, u, a).sink) == Delivered(u.sink)
    ensures Next(c, u, a).sink.runner.Exited? ==> Delivered(Next(c, u, a).sink) == Delivered(u.sink)
  {
    var k, k' := u.sink, Next(c, u, a).sink;
    match a
    case Deliver => assert Delivered(k') == Delivered(k) + [k.runner.cell];
    case HandOver => assert Delivered(k') == Delivered(k) + [k.runner.cell];
    case Consume => assert k.out == [k.out[0]] + k.out[1..];
    case _ => assert k'.got == k.got && k'.out == k.out;
  }

  lemma DeliveredFirst(k: Sink)
    ensures Delivered(k) <= Stages(k)
  {
    assert Stages(k) == Delivered(k) + (InHand(k.runner) + k.pump.queue);
  }

  /** The other steps of the stream leave the wire alone, and what was sent on it. */
  lemma OthersStayOrdered(c: Config, s: Chat, a: Action)
    requires Producer(c, s.up.src) && Ordered(c, s) && CanMove(c, s, Do(a)) && !Acked(c)
    requires !a.Send? && !a.SendEnd? && !a.Receive?
    ensures Producer(c, Moved(c, s, Do(a)).up.src) && Ordered(c, Moved(c, s, Do(a)))
  {
    ProducerStays(c, s, Do(a));
    SinkStepKeepsStages(c, s.up, a);
    StepDelivers(c, s.up, a);
    DeliveredFirst(s.up.sink);
    OtherStepsSendNothing(c, s.up, a);
    PumpKeepsOpen(c, s.up, a);
  }

  lemma PumpKeepsOpen(c: Config, u: State, a: Action)
    requires Enabled(c, u, a) && !a.Receive?
    ensures Next(c, u, a).sink.pump.inputEnd == u.sink.pump.inputEnd
    ensures Next(c, u, a).sink.pump.stopped == u.sink.pump.stopped
    ensures Next(c, u, a).sink.runner.Exited? ==> u.sink.runner.Exited? || u.sink.pump.inputEnd
    ensures u.sink.runner.Exited? ==> Next(c, u, a).sink.runner.Exited?
  {
  }

  lemma StaysOrdered(c: Config, s: Chat, m: Move)
    requires Producer(c, s.up.src) && Ordered(c, s) && CanMove(c, s, m) && !Acked(c)
    ensures Producer(c, Moved(c, s, m).up.src) && Ordered(c, Moved(c, s, m))
  {
    ProducerStays(c, s, m);
    DeliveredFirst(s.up.sink);
    match m {
      case Do(a) =>
        if a.Send? {
          SendStaysOrdered(c, s);
        } else if a.SendEnd? {
          SendEndStaysOrdered(c, s);
        } else if a.Receive? {
          ReceiveStaysOrdered(c, s);
        } else {
          OthersStayOrdered(c, s, a);
        }
      case _ =>
    }
  }

  /** What a step of the stream does to the replies, and to a sender not started. */
  lemma StepReplies(c: Config, u: State, a: Action)
    requires Enabled(c, u, a) && !Acked(c)
    ensures
      var t := Next(c, u, a);
      && (u.acct.announced ==> t.acct.announced)
      && (t.src.sender.Unstarted? ==> u.src.sender.Unstarted?)
      && if a.ReceiveReply? || a.DropReply? then
           && t.back == u.back[1..] && t.acct.announced == u.acct.announced
           && (t.src.sender.Unstarted? ==> u.back[0] != Opened)
         else
           u.back <= t.back && (t.acct.announced ==> u.acct.announced || Opened in t.back)
  {
  }

  /** ... of which the first is taken off. */
  lemma FirstReplyGoes(back: seq<Reply>, ahead: nat)
    requires ahead <= |back| && back != [] && back[0] != Opened
    ensures Opened in back ==> Opened in back[1..]
    ensures ahead > 0 && Opened in back[..ahead] ==> Opened in back[1..][..ahead - 1]
  {
    if ahead > 0 {
      assert back[..ahead] == [back[0]] + back[1..][..ahead - 1];
    }
  }

  lemma DoStaysOpenFirst(c: Config, s: Chat, a: Action)
    requires OpenFirst(s) && CanMove(c, s, Do(a)) && !Acked(c)
    ensures OpenFirst(Moved(c, s, Do(a)))
  {
    StepReplies(c, s.up, a);
    var back, back' := s.up.back, Next(c, s.up, a).back;
    if a.ReceiveReply? || a.DropReply? {
      if back[0] != Opened {
        FirstReplyGoes(back, s.ahead);
      }
    } else {
      assert back'[..s.ahead] == back[..s.ahead];
      assert Opened in back ==> Opened in back';
    }
  }

  lemma StaysOpenFirst(c: Config, s: Chat, m: Move)
    requires OpenFirst(s) && CanMove(c, s, m) && !Acked(c)
    ensures OpenFirst(Moved(c, s, m))
  {
    if m.Do? {
      DoStaysOpenFirst(c, s, m.a);
    } else {
      assert s.up.back[..|s.up.back|] == s.up.back;
    }
  }

  lemma MoveKeepsInv(c: Config, s: Chat, m: Move)
    requires !Acked(c) && ChatInv(c, s) && CanMove(c, s, m)
    ensures ChatInv(c, Moved(c, s, m))
  {
    StaysOrdered(c, s, m);
    StaysOpenFirst(c, s, m);
    if s.stage.Serving? && m.Do? {
      StepKeepsInv(c, s.up, m.a);
    }
  }

  lemma {:induction false} MovesKeepInv(c: Config, s: Chat, ms: seq<Move>, t: Chat)
    requires !Acked(c) && ChatInv(c, s) && Moves(c, s, ms, t)
    ensures ChatInv(c, t)
    decreases |ms|
  {
    if ms != [] {
      MoveKeepsInv(c, s, ms[0]);
      MovesKeepInv(c, Moved(c, s, ms[0]), ms[1..], t);
    }
  }

  lemma StartHolds(c: Config)
    requires !Acked(c)
    ensures ChatInv(c, Start(c))
  {
    InitHolds(c);
    InitOrdered(c, Init(c));
  }

  // ---- theorems ----

  lemma DeliveredWithinInput(c: Config, s: Chat)
    requires !Acked(c) && Producer(c, s.up.src) && Ordered(c, s)
    ensures Delivered(s.up.sink) <= Payload(c.input[..Sent(c, s.up.src)]) <= Payload(c.input)
  {
    DeliveredFirst(s.up.sink);
    PayloadGrows(c.input, Sent(c, s.up.src), |c.input|);
    assert c.input[..|c.input|] == c.input;
  }

  /** In every run, whenever the responder's output ends and however the teardown
      goes, what the responder's handler gets is a prefix of the non-Null values
      the initiator has sent, in order. */
  lemma UpstreamIsPrefix(c: Config, ms: seq<Move>, t: Chat)
    requires !Acked(c) && Moves(c, Start(c), ms, t)
    ensures 0 <= Sent(c, t.up.src) <= |c.input|
    ensures Delivered(t.up.sink) <= Payload(c.input[..Sent(c, t.up.src)])
    ensures t.up.sink.got <= Payload(c.input[..Sent(c, t.up.src)])
  {
    StartHolds(c);
    MovesKeepInv(c, Start(c), ms, t);
    DeliveredWithinInput(c, t);
  }

  lemma {:induction false} DeliveredGrows(c: Config, s: Chat, ms: seq<Move>, t: Chat)
    requires Moves(c, s, ms, t)
    ensures Delivered(s.up.sink) <= Delivered(t.up.sink)
    ensures s.up.sink.runner.Exited? ==> t.up.sink.runner.Exited? && Delivered(t.up.sink) == Delivered(s.up.sink)
    decreases |ms|
  {
    if ms != [] {
      if ms[0].Do? {
        StepDelivers(c, s.up, ms[0].a);
      }
      DeliveredGrows(c, Moved(c, s, ms[0]), ms[1..], t);
    }
  }

  /** Something the initiator had to send has not come out of the pump, whose
      goroutine is gone; by DeliveredGrows it never will. */
  predicate Lost(c: Config, s: Chat) {
    s.up.sink.runner.Exited? && Delivered(s.up.sink) != Payload(c.input)
  }

  ghost predicate CanLose(c: Config, s: Chat) {
    exists ms, t :: Moves(c, s, ms, t) && Lost(c, t)
  }

  lemma MoveFirst(c: Config, s: Chat, m: Move, ms: seq<Move>, t: Chat)
    requires CanMove(c, s, m) && Moves(c, Moved(c, s, m), ms, t)
    ensures Moves(c, s, [m] + ms, t)
  {
    assert ([m] + ms)[1..] == ms;
  }

  /** The teardown can go ahead of everything that is under way. */
  lemma TeardownWins(c: Config, s: Chat) returns (ms: seq<Move>, t: Chat)
    requires s.stage.EndSent?
    ensures Moves(c, s, ms, t) && t.up.sink.runner.Exited? && Delivered(t.up.sink) == Delivered(s.up.sink)
  {
    var s1 := Moved(c, s, Delete);
    var s2 := Moved(c, s1, Stop);
    ms, t := [], s2;
    var runner := s2.up.sink.runner;
    if runner.Draining? || runner.Holding? {
      t := Moved(c, s2, Abort);
      ms := [Abort] + [];
      MoveFirst(c, s2, Abort, [], t);
    } else if runner.Uncounted? {
      var s3 := Moved(c, s2, Do(Count));
      t := Moved(c, s3, Abort);
      ms := [Do(Count)] + ([Abort] + []);
      MoveFirst(c, s3, Abort, [], t);
      MoveFirst(c, s2, Do(Count), [Abort] + [], t);
    }
    MoveFirst(c, s1, Stop, ms, t);
    MoveFirst(c, s, Delete, [Stop] + ms, t);
    ms := [Delete] + ([Stop] + ms);
  }

  /** The upstream half of a chat is lossless exactly when the responder ends its
      output late enough: in every reachable state, ending the output now can lose
      a value if and only if some non-Null value the initiator has, or has yet,
      to send has not come out of the responder's pump. */
  lemma LosesExactlyWhenUndelivered(c: Config, before: seq<Move>, s: Chat)
    requires !Acked(c) && Moves(c, Start(c), before, s) && CanMove(c, s, EndOutput)
    ensures CanLose(c, Moved(c, s, EndOutput)) <==> Delivered(s.up.sink) != Payload(c.input)
  {
    StartHolds(c);
    MovesKeepInv(c, Start(c), before, s);
    MoveKeepsInv(c, s, EndOutput);
    var s' := Moved(c, s, EndOutput);
    if Delivered(s.up.sink) == Payload(c.input) {
      forall ms, t | Moves(c, s', ms, t)
        ensures !Lost(c, t)
      {
        MovesKeepInv(c, s', ms, t);
        DeliveredGrows(c, s', ms, t);
        DeliveredWithinInput(c, t);
      }
    } else {
      var ms, t := TeardownWins(c, s');
    }
  }

  /** A handler that reads its input to the end before it ends its output loses
      nothing. */
  lemma ReadingToTheEndIsLossless(c: Config, before: seq<Move>, s: Chat)
    requires !Acked(c) && Moves(c, Start(c), before, s) && CanMove(c, s, EndOutput) && s.up.sink.sawEnd
    ensures !CanLose(c, Moved(c, s, EndOutput))
  {
    StartHolds(c);
    MovesKeepInv(c, Start(c), before, s);
    DrainedAtEnd(c, s.up);
    assert Delivered(s.up.sink) == s.up.sink.got;
    LosesExactlyWhenUndelivered(c, before, s);
  }

  // ---- the initiator's StreamEnd ----

  ghost predicate CanEnd(c: Config, s: Chat) {
    exists ms, t :: Moves(c, s, ms, t) && t.up.src.sender.Finished?
  }

  /** The sender has a value for which the closed gate will refuse it. */
  predicate Doomed(s: Chat) {
    && s.up.src.gate.closed && !s.up.src.sender.Finished? && !s.up.src.sender.Unstarted?
    && (s.aborted || s.up.src.sender.Waiting? || s.up.src.todo != [])
    && (s.aborted ==> s.up.src.sender.Waiting?)
  }

  lemma {:induction false} DoomedStays(c: Config, s: Chat, ms: seq<Move>, t: Chat)
    requires !Acked(c) && Doomed(s) && Moves(c, s, ms, t)
    ensures Doomed(t)
    decreases |ms|
  {
    if ms != [] {
      DoomedStays(c, Moved(c, s, ms[0]), ms[1..], t);
    }
  }

  lemma LastSteps(c: Config, s: Chat)
    requires !s.aborted && s.up.src.todo == [] && (s.up.src.sender.AtLoop? || s.up.src.sender.Charged?)
    ensures CanEnd(c, s)
  {
    var s1 := if s.up.src.sender.Charged? then Moved(c, s, Do(Send)) else s;
    var t := Moved(c, s1, Do(SendEnd));
    MoveFirst(c, s1, Do(SendEnd), [], t);
    if s.up.src.sender.Charged? {
      MoveFirst(c, s, Do(Send), [Do(SendEnd)] + [], t);
    }
  }

  /** In every state in which the initiator has received the end of the output:
      its own StreamEnd has been sent or can still be if and only if it has no
      value left that needs a credit. Otherwise its sender leaves without one. */
  lemma EndsExactlyWithoutValuesLeft(c: Config, before: seq<Move>, s: Chat)
    requires !Acked(c) && Moves(c, Start(c), before, s) && s.told
    ensures CanEnd(c, s) <==>
              s.up.src.sender.Finished? || (!s.up.src.sender.Waiting? && s.up.src.todo == [])
  {
    StartHolds(c);
    ToldStays(c, Start(c), before, s);
    if s.up.src.sender.Finished? {
      assert Moves(c, s, [], s);
    } else if !s.up.src.sender.Waiting? && s.up.src.todo == [] {
      LastSteps(c, s);
    } else {
      forall ms, t | Moves(c, s, ms, t)
        ensures !t.up.src.sender.Finished?
      {
        DoomedStays(c, s, ms, t);
      }
    }
  }

  /** ... its gate is closed, it has been started, and it has left only when
      it was waiting. */
  predicate Told(s: Chat) {
    && (s.told ==> s.up.src.gate.closed && !s.up.src.sender.Unstarted?)
    && (s.aborted ==> s.up.src.sender.Waiting?)
  }

  lemma MoveKeepsTold(c: Config, s: Chat, m: Move)
    requires !Acked(c) && OpenFirst(s) && Told(s) && CanMove(c, s, m)
    ensures Told(Moved(c, s, m))
  {
  }

  lemma {:induction false} ToldStays(c: Config, s: Chat, ms: seq<Move>, t: Chat)
    requires !Acked(c) && ChatInv(c, s) && Told(s) && Moves(c, s, ms, t)
    ensures ChatInv(c, t) && Told(t)
    decreases |ms|
  {
    if ms != [] {
      MoveKeepsInv(c, s, ms[0]);
      MoveKeepsTold(c, s, ms[0]);
      ToldStays(c, Moved(c, s, ms[0]), ms[1..], t);
    }
  }
}
