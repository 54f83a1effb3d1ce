/** Matching replies to calls when both ends of a connection initiate: unary calls
    and streams of client and server, their error replies and their cancels share
    one connection, told apart by the sign of their request ids. Messages may
    be lost. */
module Correlation {

  datatype Side = Client | Server

  function Other(w: Side): Side {
    if w.Client? then Server else Client
  }

  /** Client ids are positive, server ids negative; the handshake's 0 is neither. */
  function Sign(w: Side): int {
    if w.Client? then 1 else -1
  }

  type Arg = string
  datatype Result = Returned(value: string) | Failed(code: int)

  datatype Message =
    | Request(id: int, arg: Arg)
    | Response(id: int, res: Result)        // to a call, or an error in place of a stream
    | OpenStream(id: int)
    | Frame(id: int)                        // any later frame of a stream
    | Cancel(id: int)                       // of a call or of a stream

  datatype Peer = Peer(
    last: nat,                              // the request id counter
    pending: set<int>,                      // own unary calls awaiting a reply
    streams: set<int>,                      // own streams
    serving: set<int>,                      // streams served for the other side
    work: multiset<(int, Arg)>,             // handlers running for the other side
    sent: map<int, Arg>,                    // history: own calls
    started: set<int>,                      // history: ids of own streams
    ran: set<(int, Arg, Result)>,           // history: what own handlers answered to which request
    done: map<int, Result>                  // history: what own calls returned
  )

  datatype State = State(client: Peer, server: Peer, toServer: seq<Message>, toClient: seq<Message>)

  const FRESH_PEER := Peer(0, {}, {}, {}, multiset{}, map[], {}, {}, map[])

  function Init(): State {
    State(FRESH_PEER, FRESH_PEER, [], [])
  }

  function Me(s: State, w: Side): Peer {
    if w.Client? then s.client else s.server
  }

  function Inbox(s: State, w: Side): seq<Message> {
    if w.Client? then s.toClient else s.toServer
  }

  /** The state in which side `w` has changed and has sent `out`. */
  function After(s: State, w: Side, me: Peer, inbox: seq<Message>, out: seq<Message>): State {
    if w.Client? then State(me, s.server, s.toServer + out, inbox) else State(s.client, me, inbox, s.toClient + out)
  }

  // ---- routing ----

  datatype Route = Serve | Accept | ToServing | ToOwn | ToHandler | Unknown

  /** The client looks at the message type first, then at the streams it serves,
      then at its own requests. */
  function ClientRoute(p: Peer, m: Message): Route {
    if m.Request? then Serve
    else if m.OpenStream? then Accept
    else if m.id in p.serving then ToServing
    else if m.id in p.pending || m.id in p.streams then ToOwn
    else Unknown
  }

  /** The server looks at its own streams first, so that an error for one of
      them is not taken for the reply to a call; then at replies to its calls,
      then at the streams it serves, then at cancels of running handlers; the
      rest opens something new. */
  function ServerRoute(p: Peer, m: Message): Route {
    if m.id in p.streams then ToOwn
    else if m.Response? then (if m.id in p.pending then ToOwn else Unknown)
    else if m.id in p.serving then ToServing
    else if m.Cancel? then ToHandler
    else if m.Request? then Serve
    else if m.OpenStream? then Accept
    else Unknown
  }

  function RouteAt(w: Side, p: Peer, m: Message): Route {
    if w.Client? then ClientRoute(p, m) else ServerRoute(p, m)
  }

  /** A reply ends the stream it is for, or completes the call. */
  function Completed(p: Peer, id: int, res: Result): Peer {
    if id in p.streams then p.(streams := p.streams - {id})
    else p.(pending := p.pending - {id}, done := p.done[id := res])
  }

  function Handled(w: Side, p: Peer, m: Message): Peer {
    match RouteAt(w, p, m)
    case Serve => if m.Request? then p.(work := p.work + multiset{(m.id, m.arg)}) else p
    case Accept => p.(serving := p.serving + {m.id})
    case ToServing => if m.Cancel? then p.(serving := p.serving - {m.id}) else p
    case ToOwn => if m.Response? then Completed(p, m.id, m.res) else p
    case _ => p
  }

  // ---- steps ----

  datatype Action =
    | Call(w: Side, arg: Arg)
    | Resend(w: Side, id: int)              // replay of a pending call after a reconnect
    | Open(w: Side)
    | SendFrame(w: Side, id: int)
    | Receive(w: Side)
    | Answer(w: Side, id: int, arg: Arg, res: Result)
    | Reject(w: Side, id: int, code: int)   // an error in place of a served stream
    | Overrun(w: Side, id: int, code: int)  // the server gives up an own stream whose peer exceeds its credit
    | SendCancel(w: Side, id: int)
    | Forget(w: Side, id: int)              // a call given up, or a stream torn down
    | Lose(w: Side, i: nat)                 // a message to this side is lost

  predicate Enabled(s: State, a: Action) {
    var p := Me(s, a.w);
    match a
    case Call(_, _) => true
    case Resend(_, id) => id in p.pending && id in p.sent
    case Open(_) => true
    case SendFrame(_, id) => id in p.streams || id in p.serving
    case Receive(w) => Inbox(s, w) != []
    case Answer(_, id, arg, _) => (id, arg) in p.work
    case Reject(_, id, _) => id in p.serving
    case Overrun(w, id, _) => w.Server? && id in p.streams
    case SendCancel(_, id) => id in p.sent || id in p.started
    case Forget(_, id) => true
    case Lose(w, i) => i < |Inbox(s, w)|
  }

  function NextId(w: Side, p: Peer): int {
    Sign(w) * (p.last + 1)
  }

  function Called(w: Side, p: Peer, arg: Arg): Peer {
    p.(last := p.last + 1, pending := p.pending + {NextId(w, p)}, sent := p.sent[NextId(w, p) := arg])
  }

  function Opened(w: Side, p: Peer): Peer {
    p.(last := p.last + 1, streams := p.streams + {NextId(w, p)}, started := p.started + {NextId(w, p)})
  }

  function Answered(p: Peer, id: int, arg: Arg, res: Result): Peer {
    p.(work := p.work - multiset{(id, arg)}, ran := p.ran + {(id, arg, res)})
  }

  function Rejected(p: Peer, id: int): Peer {
    p.(serving := p.serving - {id})
  }

  function Forgotten(p: Peer, id: int): Peer {
    p.(pending := p.pending - {id}, streams := p.streams - {id}, serving := p.serving - {id})
  }

  function Next(s: State, a: Action): State
    requires Enabled(s, a)
  {
    var p := Me(s, a.w);
    var inbox := Inbox(s, a.w);
    match a
    case Call(w, arg) => After(s, w, Called(w, p, arg), inbox, [Request(NextId(w, p), arg)])
    case Resend(w, id) => After(s, w, p, inbox, [Request(id, p.sent[id])])
    case Open(w) => After(s, w, Opened(w, p), inbox, [OpenStream(NextId(w, p))])
    case SendFrame(w, id) => After(s, w, p, inbox, [Frame(id)])
    case Receive(w) => After(s, w, Handled(w, p, inbox[0]), inbox[1..], [])
    case Answer(w, id, arg, res) => After(s, w, Answered(p, id, arg, res), inbox, [Response(id, res)])
    case Reject(w, id, code) => After(s, w, Rejected(p, id), inbox, [Response(id, Failed(code))])
    case Overrun(w, id, code) => After(s, w, p.(streams := p.streams - {id}), inbox, [Response(id, Failed(code))])
    case SendCancel(w, id) => After(s, w, p, inbox, [Cancel(id)])
    case Forget(w, id) => After(s, w, Forgotten(p, id), inbox, [])
    case Lose(w, i) => After(s, w, p, inbox[..i] + inbox[i + 1..], [])
  }

  predicate Runs(s: State, acts: seq<Action>, t: State)
    decreases |acts|
  {
    if acts == [] then s == t
    else Enabled(s, acts[0]) && Runs(Next(s, acts[0]), acts[1..], t)
  }

  // ---- invariant ----

  /** `id` was allocated by side `w`. */
  predicate Own(w: Side, p: Peer, id: int) {
    1 <= Sign(w) * id <= p.last
  }

  /** Tables and histories of one side hold its own ids where they should, the
      other side's where they should. */
  ghost predicate Tables(w: Side, me: Peer, other: Peer) {
    && (forall id :: id in me.sent || id in me.started ==> Own(w, me, id))
    && me.sent.Keys !! me.started
    && me.pending <= me.sent.Keys
    && me.streams <= me.started
    && me.serving <= other.started
    && me.pending !! me.done.Keys
  }

  /** What one side's handlers work on and have answered are requests of the other. */
  ghost predicate Work(me: Peer, other: Peer) {
    && (forall id, arg :: (id, arg) in me.work ==> id in other.sent && other.sent[id] == arg)
    && (forall id, arg, res :: (id, arg, res) in me.ran ==> id in other.sent && other.sent[id] == arg)
    && (forall id :: id in me.done ==> id in me.sent && (id, me.sent[id], me.done[id]) in other.ran)
  }

  ghost predicate Genuine(me: Peer, other: Peer, m: Message) {
    match m
    case Request(id, arg) => id in other.sent && other.sent[id] == arg
    case Response(id, res) =>
      || (id in me.sent && (id, me.sent[id], res) in other.ran)
      || ((id in me.started || id in other.started) && res.Failed?)
    case OpenStream(id) => id in other.started
    case Frame(id) => id in me.started || id in other.started
    case Cancel(id) => id in other.sent || id in other.started
  }

  ghost predicate Mail(me: Peer, other: Peer, inbox: seq<Message>) {
    forall m :: m in inbox ==> Genuine(me, other, m)
  }

  ghost predicate SideInv(w: Side, me: Peer, other: Peer, inbox: seq<Message>) {
    Tables(w, me, other) && Work(me, other) && Mail(me, other, inbox)
  }

  ghost predicate Inv(s: State) {
    SideInv(Client, s.client, s.server, s.toClient) && SideInv(Server, s.server, s.client, s.toServer)
  }

  lemma CallKeeps(w: Side, me: Peer, other: Peer, inbox: seq<Message>, outbox: seq<Message>, arg: Arg)
    requires SideInv(w, me, other, inbox) && SideInv(Other(w), other, me, outbox)
    ensures SideInv(w, Called(w, me, arg), other, inbox)
    ensures SideInv(Other(w), other, Called(w, me, arg), outbox + [Request(NextId(w, me), arg)])
  {
  }

  lemma OpenKeeps(w: Side, me: Peer, other: Peer, inbox: seq<Message>, outbox: seq<Message>)
    requires SideInv(w, me, other, inbox) && SideInv(Other(w), other, me, outbox)
    ensures SideInv(w, Opened(w, me), other, inbox)
    ensures SideInv(Other(w), other, Opened(w, me), outbox + [OpenStream(NextId(w, me))])
  {
  }

  lemma ReceiveKeepsMail(w: Side, me: Peer, other: Peer, inbox: seq<Message>, outbox: seq<Message>)
    requires Mail(me, other, inbox) && Mail(other, me, outbox) && inbox != []
    ensures Mail(Handled(w, me, inbox[0]), other, inbox[1..])
    ensures Mail(other, Handled(w, me, inbox[0]), outbox)
  {
    var me' := Handled(w, me, inbox[0]);
    assert me'.sent == me.sent && me'.started == me.started && me'.ran == me.ran;
    forall m | m in inbox[1..]
      ensures Genuine(me', other, m)
    {
      assert m in inbox;
    }
  }

  lemma HandledKeepsTables(w: Side, me: Peer, other: Peer, m: Message)
    requires Tables(w, me, other) && Tables(Other(w), other, me) && Genuine(me, other, m)
    ensures Tables(w, Handled(w, me, m), other) && Tables(Other(w), other, Handled(w, me, m))
  {
  }

  lemma HandledKeepsWork(w: Side, me: Peer, other: Peer, m: Message)
    requires Tables(w, me, other) && Tables(Other(w), other, me) && Genuine(me, other, m)
    requires Work(me, other) && Work(other, me)
    ensures Work(Handled(w, me, m), other) && Work(other, Handled(w, me, m))
  {
  }

  lemma ReceiveKeeps(w: Side, me: Peer, other: Peer, inbox: seq<Message>, outbox: seq<Message>)
    requires SideInv(w, me, other, inbox) && SideInv(Other(w), other, me, outbox) && inbox != []
    ensures SideInv(w, Handled(w, me, inbox[0]), other, inbox[1..])
    ensures SideInv(Other(w), other, Handled(w, me, inbox[0]), outbox)
  {
    assert Genuine(me, other, inbox[0]);
    HandledKeepsTables(w, me, other, inbox[0]);
    HandledKeepsWork(w, me, other, inbox[0]);
    ReceiveKeepsMail(w, me, other, inbox, outbox);
  }

  lemma AnswerKeeps(w: Side, me: Peer, other: Peer, inbox: seq<Message>, outbox: seq<Message>,
                    id: int, arg: Arg, res: Result)
    requires SideInv(w, me, other, inbox) && SideInv(Other(w), other, me, outbox) && (id, arg) in me.work
    ensures SideInv(w, Answered(me, id, arg, res), other, inbox)
    ensures SideInv(Other(w), other, Answered(me, id, arg, res), outbox + [Response(id, res)])
  {
  }

  lemma SendKeeps(w: Side, me: Peer, other: Peer, outbox: seq<Message>, m: Message)
    requires SideInv(Other(w), other, me, outbox) && Genuine(other, me, m)
    ensures SideInv(Other(w), other, me, outbox + [m])
  {
  }

  lemma ForgetKeeps(w: Side, me: Peer, other: Peer, inbox: seq<Message>, outbox: seq<Message>, id: int)
    requires SideInv(w, me, other, inbox) && SideInv(Other(w), other, me, outbox)
    ensures SideInv(w, Forgotten(me, id), other, inbox) && SideInv(Other(w), other, Forgotten(me, id), outbox)
  {
  }

  lemma RejectKeeps(w: Side, me: Peer, other: Peer, inbox: seq<Message>, outbox: seq<Message>, id: int, code: int)
    requires SideInv(w, me, other, inbox) && SideInv(Other(w), other, me, outbox) && id in me.serving
    ensures SideInv(w, Rejected(me, id), other, inbox)
    ensures SideInv(Other(w), other, Rejected(me, id), outbox + [Response(id, Failed(code))])
  {
  }

  lemma OverrunKeeps(w: Side, me: Peer, other: Peer, inbox: seq<Message>, outbox: seq<Message>, id: int, code: int)
    requires SideInv(w, me, other, inbox) && SideInv(Other(w), other, me, outbox) && id in me.streams
    ensures SideInv(w, me.(streams := me.streams - {id}), other, inbox)
    ensures SideInv(Other(w), other, me.(streams := me.streams - {id}), outbox + [Response(id, Failed(code))])
  {
  }

  lemma LoseKeeps(w: Side, me: Peer, other: Peer, inbox: seq<Message>, i: nat)
    requires SideInv(w, me, other, inbox) && i < |inbox|
    ensures SideInv(w, me, other, inbox[..i] + inbox[i + 1..])
  {
    forall m | m in inbox[..i] + inbox[i + 1..]
      ensures m in inbox
    {
    }
  }

  lemma AfterKeeps(s: State, w: Side, me: Peer, inbox: seq<Message>, out: seq<Message>)
    requires SideInv(w, me, Me(s, Other(w)), inbox)
    requires SideInv(Other(w), Me(s, Other(w)), me, Inbox(s, Other(w)) + out)
    ensures Inv(After(s, w, me, inbox, out))
  {
  }

  lemma StepKeepsInv(s: State, a: Action)
    requires Inv(s) && Enabled(s, a)
    ensures Inv(Next(s, a))
  {
    var w := a.w;
    var me, other, inbox, outbox := Me(s, w), Me(s, Other(w)), Inbox(s, w), Inbox(s, Other(w));
    assert SideInv(w, me, other, inbox) && SideInv(Other(w), other, me, outbox);
    assert outbox + [] == outbox;
    match a
    case Call(_, arg) =>
      CallKeeps(w, me, other, inbox, outbox, arg);
      AfterKeeps(s, w, Called(w, me, arg), inbox, [Request(NextId(w, me), arg)]);
    case Resend(_, id) =>
      SendKeeps(w, me, other, outbox, Request(id, me.sent[id]));
      AfterKeeps(s, w, me, inbox, [Request(id, me.sent[id])]);
    case Open(_) =>
      OpenKeeps(w, me, other, inbox, outbox);
      AfterKeeps(s, w, Opened(w, me), inbox, [OpenStream(NextId(w, me))]);
    case SendFrame(_, id) =>
      SendKeeps(w, me, other, outbox, Frame(id));
      AfterKeeps(s, w, me, inbox, [Frame(id)]);
    case Receive(_) =>
      ReceiveKeeps(w, me, other, inbox, outbox);
      AfterKeeps(s, w, Handled(w, me, inbox[0]), inbox[1..], []);
    case Answer(_, id, arg, res) =>
      AnswerKeeps(w, me, other, inbox, outbox, id, arg, res);
      AfterKeeps(s, w, Answered(me, id, arg, res), inbox, [Response(id, res)]);
    case Reject(_, id, code) =>
      RejectKeeps(w, me, other, inbox, outbox, id, code);
      AfterKeeps(s, w, Rejected(me, id), inbox, [Response(id, Failed(code))]);
    case Overrun(_, id, code) =>
      OverrunKeeps(w, me, other, inbox, outbox, id, code);
      AfterKeeps(s, w, me.(streams := me.streams - {id}), inbox, [Response(id, Failed(code))]);
    case SendCancel(_, id) =>
      SendKeeps(w, me, other, outbox, Cancel(id));
      AfterKeeps(s, w, me, inbox, [Cancel(id)]);
    case Forget(_, id) =>
      ForgetKeeps(w, me, other, inbox, outbox, id);
      AfterKeeps(s, w, Forgotten(me, id), inbox, []);
    case Lose(_, i) =>
      LoseKeeps(w, me, other, inbox, i);
      AfterKeeps(s, w, me, inbox[..i] + inbox[i + 1..], []);
  }

  lemma {:induction false} RunKeepsInv(s: State, acts: seq<Action>, t: State)
    requires Inv(s) && Runs(s, acts, t)
    ensures Inv(t)
    decreases |acts|
  {
    if acts != [] {
      StepKeepsInv(s, acts[0]);
      RunKeepsInv(Next(s, acts[0]), acts[1..], t);
    }
  }

  // ---- theorems ----

  /** In every run the tables stay sign-separated: each side's own calls and
      streams are under ids of its sign, and the streams it serves under ids of
      the other's, so no lookup can find an entry of the wrong table. */
  lemma TablesAreSignSeparated(acts: seq<Action>, s: State, w: Side, id: int)
    requires Runs(Init(), acts, s)
    ensures id in Me(s, w).pending || id in Me(s, w).streams || id in Me(s, w).sent ==> Sign(w) * id > 0
    ensures id in Me(s, w).serving ==> Sign(w) * id < 0
    ensures !(id in Me(s, w).pending && id in Me(s, w).streams)
  {
    RunKeepsInv(Init(), acts, s);
  }

  /** Ids are issued in strictly increasing absolute value, none twice. */
  lemma IdsAreFresh(acts: seq<Action>, s: State, w: Side, id: int)
    requires Runs(Init(), acts, s) && (id in Me(s, w).sent || id in Me(s, w).started)
    ensures Sign(w) * id < Sign(w) * NextId(w, Me(s, w))
  {
    RunKeepsInv(Init(), acts, s);
  }

  /** In every run a message goes where it belongs: a request to a handler, an
      open to a new entry, a reply to the call or the stream it is for, a stream's
      frame to that stream, a cancel to what is served under its id, or nowhere
      when the entry is gone; on either side, although the two look things up in
      different orders. */
  lemma MessagesAreRoutedRight(acts: seq<Action>, s: State, w: Side)
    requires Runs(Init(), acts, s) && Inbox(s, w) != []
    ensures
      var m, p := Inbox(s, w)[0], Me(s, w);
      RouteAt(w, p, m) ==
        match m
        case Request(_, _) => Serve
        case OpenStream(id) => (if w.Server? && id in p.serving then ToServing else Accept)
        case Response(id, _) =>
          (if id in p.pending || id in p.streams then ToOwn
           else if w.Client? && id in p.serving then ToServing
           else Unknown)
        case Frame(id) => (if id in p.streams then ToOwn else if id in p.serving then ToServing else Unknown)
        case Cancel(id) => (if id in p.serving then ToServing else if w.Server? then ToHandler else Unknown)
  {
    RunKeepsInv(Init(), acts, s);
    var m, p, o := Inbox(s, w)[0], Me(s, w), Me(s, Other(w));
    assert Genuine(p, o, m);
  }

  /** In every run an error in place of a stream ends that stream, and is the
      result of no call. */
  lemma ErrorEndsItsStream(acts: seq<Action>, s: State, w: Side)
    requires Runs(Init(), acts, s) && Inbox(s, w) != []
    requires Inbox(s, w)[0].Response? && Inbox(s, w)[0].id in Me(s, w).streams
    ensures Inbox(s, w)[0].res.Failed?
    ensures Me(Next(s, Receive(w)), w) == Me(s, w).(streams := Me(s, w).streams - {Inbox(s, w)[0].id})
  {
    MessagesAreRoutedRight(acts, s, w);
    RunKeepsInv(Init(), acts, s);
    assert Genuine(Me(s, w), Me(s, Other(w)), Inbox(s, w)[0]);
  }

  /** In every run the result of a unary call is one that a handler of the other
      side gave for the very argument this side sent under that id. */
  lemma CallsGetTheirOwnResults(acts: seq<Action>, s: State, w: Side, id: int)
    requires Runs(Init(), acts, s) && id in Me(s, w).done
    ensures id in Me(s, w).sent && id !in Me(s, w).pending
    ensures (id, Me(s, w).sent[id], Me(s, w).done[id]) in Me(s, Other(w)).ran
  {
    RunKeepsInv(Init(), acts, s);
  }

  /** A call completes once: later replies, of a replayed request for instance,
      change neither its result nor its argument. */
  lemma {:induction false} CompletionIsFinal(s: State, acts: seq<Action>, t: State, w: Side, id: int)
    requires Inv(s) && Runs(s, acts, t) && id in Me(s, w).done
    ensures id in Me(t, w).done && Me(t, w).done[id] == Me(s, w).done[id]
    ensures id in Me(s, w).sent && id in Me(t, w).sent && Me(t, w).sent[id] == Me(s, w).sent[id]
    decreases |acts|
  {
    if acts != [] {
      StepKeepsInv(s, acts[0]);
      StepKeepsDone(s, acts[0], w, id);
      CompletionIsFinal(Next(s, acts[0]), acts[1..], t, w, id);
    }
  }

  lemma StepKeepsDone(s: State, a: Action, w: Side, id: int)
    requires Inv(s) && Enabled(s, a) && id in Me(s, w).done
    ensures id in Me(Next(s, a), w).done && Me(Next(s, a), w).done[id] == Me(s, w).done[id]
    ensures id in Me(s, w).sent && id in Me(Next(s, a), w).sent && Me(Next(s, a), w).sent[id] == Me(s, w).sent[id]
  {
    assert SideInv(w, Me(s, w), Me(s, Other(w)), Inbox(s, w));
    if a.w != w {
      assert Me(Next(s, a), w) == Me(s, w);
    } else if a.Receive? {
      HandlingKeepsDone(w, Me(s, w), Me(s, Other(w)), Inbox(s, w)[0], id);
    } else if a.Call? {
      CallingKeepsDone(w, Me(s, w), Me(s, Other(w)), a.arg, id);
    }
  }

  lemma CallingKeepsDone(w: Side, me: Peer, other: Peer, arg: Arg, id: int)
    requires Tables(w, me, other) && id in me.sent
    ensures id in Called(w, me, arg).sent && Called(w, me, arg).sent[id] == me.sent[id]
  {
    assert Own(w, me, id);
  }

  lemma HandlingKeepsDone(w: Side, me: Peer, other: Peer, m: Message, id: int)
    requires Tables(w, me, other) && Tables(Other(w), other, me) && Genuine(me, other, m) && id in me.done
    ensures id in Handled(w, me, m).done && Handled(w, me, m).done[id] == me.done[id]
  {
  }
}
