/** Shutting a server down (valueserver/server.go, Run and Close): any number of
    accept loops, the connection handlers they start, and one Close, interleaved
    at every step. Registration of a handler and the shutdown signal are ordered
    by one mutex. */
module Shutdown {

  /** An accept loop, with the connection it is dealing with. */
  datatype Acceptor =
    | AtAccept
    | Accepted(conn: nat)    // before the mutex
    | Checking(conn: nat)    // holding it, before the look at the shutdown signal
    | Counting(conn: nat)    // holding it, about to count the connection
    | Storing(conn: nat)     // ... about to store it in the connection map
    | Adding(conn: nat)      // ... about to add to the wait group
    | Starting(conn: nat)    // ... about to release the mutex and start the handler
    | Dropping(conn: nat)    // mutex released after the signal, about to close the connection

  /** A connection handler, from the moment it is added to the wait group; it is
      pending until its accept loop has released the mutex. */
  datatype Handler = Pending | Serving | Closed | Unmapped | Uncounted | Gone

  datatype Closer =
    | NotClosing
    | Locked                 // holding the mutex
    | Signalled              // holding it, shutdown signal given
    | Released
    | Ranging(visited: set<nat>)  // closing the connections of the connection map
    | Clients                // closing the serving clients
    | Waiting                // in wg.Wait
    | Returned

  datatype Owner = Nobody | Loop(tid: nat) | CloseCall

  datatype State = State(
    mutex: Owner,
    shutdown: bool,
    loops: map<nat, Acceptor>,
    handlers: map<nat, Handler>,  // by connection; the keys are all that were ever registered
    closer: Closer,
    connMap: set<nat>,
    live: int,                    // the counter of live connections
    waitGroup: int,
    closed: set<nat>,             // connections that have been closed
    seen: set<nat>,               // history: connections accepted so far
    finished: set<nat>            // history: connections whose handler has left the wait group
  )

  datatype Action =
    | NewLoop(tid: nat)
    | Accept(tid: nat, conn: nat)
    | Refuse(tid: nat)            // over the connection limit
    | LoopStep(tid: nat)
    | HandlerStep(conn: nat)
    | CloseStep
    | Visit(conn: nat)            // one turn of the Range over the connection map

  function Init(): State {
    State(Nobody, false, map[], map[], NotClosing, {}, 0, 0, {}, {}, {})
  }

  predicate LoopEnabled(s: State, x: Acceptor) {
    match x
    case AtAccept => false
    case Accepted(_) => s.mutex.Nobody?
    case _ => true
  }

  predicate CloseEnabled(s: State) {
    match s.closer
    case NotClosing => s.mutex.Nobody?
    case Ranging(visited) => s.connMap <= visited
    case Waiting => s.waitGroup == 0
    case Returned => false
    case _ => true
  }

  predicate Enabled(s: State, a: Action) {
    match a
    case NewLoop(tid) => tid !in s.loops
    case Accept(tid, conn) => tid in s.loops && s.loops[tid].AtAccept? && conn !in s.seen
    case Refuse(tid) => tid in s.loops && s.loops[tid].Accepted?
    case LoopStep(tid) => tid in s.loops && LoopEnabled(s, s.loops[tid])
    case HandlerStep(conn) => conn in s.handlers && !s.handlers[conn].Pending? && !s.handlers[conn].Gone?
    case CloseStep => CloseEnabled(s)
    case Visit(conn) => s.closer.Ranging? && conn in s.connMap && conn !in s.closer.visited
  }

  function At(s: State, tid: nat, x: Acceptor): State {
    s.(loops := s.loops[tid := x])
  }

  function AfterLoopStep(s: State, tid: nat): State
    requires tid in s.loops
  {
    match s.loops[tid]
    case AtAccept => s
    case Accepted(c) => At(s, tid, Checking(c)).(mutex := Loop(tid))
    case Checking(c) =>
      if s.shutdown then At(s, tid, Dropping(c)).(mutex := Nobody) else At(s, tid, Counting(c))
    case Counting(c) => At(s, tid, Storing(c)).(live := s.live + 1)
    case Storing(c) => At(s, tid, Adding(c)).(connMap := s.connMap + {c})
    case Adding(c) => At(s, tid, Starting(c)).(waitGroup := s.waitGroup + 1, handlers := s.handlers[c := Pending])
    case Starting(c) => At(s, tid, AtAccept).(mutex := Nobody, handlers := s.handlers[c := Serving])
    case Dropping(c) => At(s, tid, AtAccept).(closed := s.closed + {c})
  }

  /** The deferred clean-up of a handler, in the order it runs. */
  function AfterHandlerStep(s: State, conn: nat): State
    requires conn in s.handlers
  {
    match s.handlers[conn]
    case Pending => s
    case Serving => s.(handlers := s.handlers[conn := Closed], closed := s.closed + {conn})
    case Closed => s.(handlers := s.handlers[conn := Unmapped], connMap := s.connMap - {conn})
    case Unmapped => s.(handlers := s.handlers[conn := Uncounted], live := s.live - 1)
    case Uncounted =>
      s.(handlers := s.handlers[conn := Gone], waitGroup := s.waitGroup - 1, finished := s.finished + {conn})
    case Gone => s
  }

  function AfterCloseStep(s: State): State {
    match s.closer
    case NotClosing => s.(closer := Locked, mutex := CloseCall)
    case Locked => s.(closer := Signalled, shutdown := true)
    case Signalled => s.(closer := Released, mutex := Nobody)
    case Released => s.(closer := Ranging({}))
    case Ranging(_) => s.(closer := Clients)
    case Clients => s.(closer := Waiting)
    case Waiting => s.(closer := Returned)
    case Returned => s
  }

  function Next(s: State, a: Action): State
    requires Enabled(s, a)
  {
    match a
    case NewLoop(tid) => At(s, tid, AtAccept)
    case Accept(tid, conn) => At(s, tid, Accepted(conn)).(seen := s.seen + {conn})
    case Refuse(tid) => At(s, tid, AtAccept).(closed := s.closed + {s.loops[tid].conn})
    case LoopStep(tid) => AfterLoopStep(s, tid)
    case HandlerStep(conn) => AfterHandlerStep(s, conn)
    case CloseStep => AfterCloseStep(s)
    case Visit(conn) => s.(closed := s.closed + {conn}, closer := Ranging(s.closer.visited + {conn}))
  }

  predicate Runs(s: State, acts: seq<Action>, t: State)
    decreases |acts|
  {
    if acts == [] then s == t
    else Enabled(s, acts[0]) && Runs(Next(s, acts[0]), acts[1..], t)
  }

  // ---- invariant ----

  predicate Critical(x: Acceptor) {
    x.Checking? || x.Counting? || x.Storing? || x.Adding? || x.Starting?
  }

  predicate SignalGiven(c: Closer) {
    !c.NotClosing? && !c.Locked?
  }

  /** The mutex has one owner, and the signal is not given while a loop that
      has found it absent holds the mutex. */
  predicate MutexInv(s: State) {
    && (forall t :: t in s.loops && Critical(s.loops[t]) ==> s.mutex == Loop(t))
    && (s.closer.Locked? || s.closer.Signalled? <==> s.mutex.CloseCall?)
    && (s.shutdown <==> SignalGiven(s.closer))
    && (forall t :: t in s.loops && Critical(s.loops[t]) && !s.loops[t].Checking? ==> !s.shutdown)
  }

  /** The connection a loop is dealing with is known to no one else. */
  predicate LoopInv(s: State, tid: nat, x: Acceptor) {
    !x.AtAccept? ==>
      && x.conn in s.seen && (x.conn in s.handlers <==> x.Starting?)
      && (x.Starting? ==> s.handlers[x.conn].Pending?)
      && (x.Adding? || x.Starting? ==> x.conn in s.connMap)
      && (forall u :: u in s.loops && u != tid && !s.loops[u].AtAccept? ==> s.loops[u].conn != x.conn)
  }

  /** A handler that has not finished is in the connection map or has had its
      connection closed; one that is pending keeps the signal from being given. */
  predicate HandlerInv(s: State, conn: nat, h: Handler) {
    && conn in s.seen
    && (h.Gone? <==> conn in s.finished)
    && (h.Pending? || h.Serving? ==> conn in s.connMap)
    && (!h.Pending? && !h.Serving? ==> conn in s.closed)
    && (h.Pending? ==> s.mutex.Loop? && s.mutex.tid in s.loops && s.loops[s.mutex.tid] == Starting(conn))
  }

  predicate GroupInv(s: State) {
    && s.finished <= s.handlers.Keys
    && s.waitGroup == |s.handlers.Keys - s.finished|
  }

  predicate RangeInv(s: State) {
    match s.closer
    case Ranging(visited) => visited <= s.closed
    case Clients => s.connMap <= s.closed
    case Waiting => s.connMap <= s.closed
    case Returned => s.connMap <= s.closed && s.handlers.Keys <= s.finished
    case _ => true
  }

  predicate Inv(s: State) {
    && MutexInv(s) && GroupInv(s) && RangeInv(s)
    && (forall t :: t in s.loops ==> LoopInv(s, t, s.loops[t]))
    && (forall c :: c in s.handlers ==> HandlerInv(s, c, s.handlers[c]))
  }

  lemma MutexKeeps(s: State, a: Action)
    requires MutexInv(s) && Enabled(s, a)
    ensures MutexInv(Next(s, a))
  {
  }

  lemma KeysAfter(m: map<nat, Handler>, c: nat, h: Handler)
    ensures m[c := h].Keys == m.Keys + {c}
    ensures c in m ==> m[c := h].Keys == m.Keys
  {
  }

  lemma OneMoreMember(keys: set<nat>, finished: set<nat>, c: nat)
    requires c !in keys && finished <= keys
    ensures |keys + {c} - finished| == |keys - finished| + 1
  {
    assert keys + {c} - finished == keys - finished + {c};
  }

  lemma OneLessMember(keys: set<nat>, finished: set<nat>, c: nat)
    requires c in keys && c !in finished
    ensures |keys - (finished + {c})| == |keys - finished| - 1
  {
    assert keys - (finished + {c}) == keys - finished - {c};
  }

  lemma AddKeepsGroup(s: State, tid: nat)
    requires GroupInv(s) && tid in s.loops && s.loops[tid].Adding? && s.loops[tid].conn !in s.handlers
    ensures GroupInv(AfterLoopStep(s, tid))
  {
    KeysAfter(s.handlers, s.loops[tid].conn, Pending);
    OneMoreMember(s.handlers.Keys, s.finished, s.loops[tid].conn);
  }

  lemma LoopStepKeepsGroup(s: State, tid: nat)
    requires GroupInv(s) && tid in s.loops && !s.loops[tid].Adding?
    requires s.loops[tid].Starting? ==> s.loops[tid].conn in s.handlers
    ensures GroupInv(AfterLoopStep(s, tid))
  {
    if s.loops[tid].Starting? {
      KeysAfter(s.handlers, s.loops[tid].conn, Serving);
    }
  }

  lemma LeaveKeepsGroup(s: State, conn: nat)
    requires GroupInv(s) && conn in s.handlers && s.handlers[conn].Uncounted? && conn !in s.finished
    ensures GroupInv(AfterHandlerStep(s, conn))
  {
    KeysAfter(s.handlers, conn, Gone);
    OneLessMember(s.handlers.Keys, s.finished, conn);
  }

  lemma HandlerStepKeepsGroup(s: State, conn: nat)
    requires GroupInv(s) && conn in s.handlers && !s.handlers[conn].Uncounted?
    ensures GroupInv(AfterHandlerStep(s, conn))
  {
    KeysAfter(s.handlers, conn, Closed);
    KeysAfter(s.handlers, conn, Unmapped);
    KeysAfter(s.handlers, conn, Uncounted);
  }

  lemma RangeKeeps(s: State, a: Action)
    requires Inv(s) && Enabled(s, a)
    ensures RangeInv(Next(s, a))
  {
    if a.LoopStep? {
      assert LoopInv(s, a.tid, s.loops[a.tid]);
    }
  }

  lemma LoopStepKeepsLoop(s: State, tid: nat, u: nat)
    requires MutexInv(s) && tid in s.loops && LoopEnabled(s, s.loops[tid]) && LoopInv(s, tid, s.loops[tid])
    requires u in s.loops && LoopInv(s, u, s.loops[u])
    ensures LoopInv(AfterLoopStep(s, tid), u, AfterLoopStep(s, tid).loops[u])
  {
  }

  lemma HandlerStepKeepsLoop(s: State, conn: nat, u: nat)
    requires conn in s.handlers && !s.handlers[conn].Pending?
    requires u in s.loops && LoopInv(s, u, s.loops[u])
    ensures LoopInv(AfterHandlerStep(s, conn), u, s.loops[u])
  {
  }

  lemma AcceptKeepsLoop(s: State, a: Action, u: nat)
    requires Enabled(s, a) && (a.NewLoop? || a.Accept? || a.Refuse?)
    requires forall t :: t in s.loops ==> LoopInv(s, t, s.loops[t])
    requires forall c :: c in s.handlers ==> c in s.seen
    requires u in Next(s, a).loops
    ensures LoopInv(Next(s, a), u, Next(s, a).loops[u])
  {
    assert u in s.loops ==> LoopInv(s, u, s.loops[u]);
  }

  lemma LoopsKeep(s: State, a: Action, u: nat)
    requires Inv(s) && Enabled(s, a) && u in Next(s, a).loops
    ensures LoopInv(Next(s, a), u, Next(s, a).loops[u])
  {
    match a
    case LoopStep(tid) => LoopStepKeepsLoop(s, tid, u);
    case HandlerStep(conn) => HandlerStepKeepsLoop(s, conn, u);
    case CloseStep => assert LoopInv(s, u, s.loops[u]);
    case Visit(_) => assert LoopInv(s, u, s.loops[u]);
    case _ =>
      assert forall c :: c in s.handlers ==> HandlerInv(s, c, s.handlers[c]);
      AcceptKeepsLoop(s, a, u);
  }

  lemma LoopStepKeepsHandler(s: State, tid: nat, c: nat)
    requires MutexInv(s) && tid in s.loops && LoopEnabled(s, s.loops[tid]) && LoopInv(s, tid, s.loops[tid])
    requires c in s.handlers ==> HandlerInv(s, c, s.handlers[c])
    requires c in AfterLoopStep(s, tid).handlers && s.finished <= s.handlers.Keys
    ensures HandlerInv(AfterLoopStep(s, tid), c, AfterLoopStep(s, tid).handlers[c])
  {
  }

  lemma HandlerStepKeepsHandler(s: State, conn: nat, c: nat)
    requires conn in s.handlers && HandlerInv(s, conn, s.handlers[conn]) && !s.handlers[conn].Pending?
    requires c in s.handlers && HandlerInv(s, c, s.handlers[c])
    ensures HandlerInv(AfterHandlerStep(s, conn), c, AfterHandlerStep(s, conn).handlers[c])
  {
  }

  lemma OtherStepsKeepHandler(s: State, a: Action, c: nat)
    requires MutexInv(s) && Enabled(s, a) && !a.LoopStep? && !a.HandlerStep?
    requires c in s.handlers && HandlerInv(s, c, s.handlers[c])
    ensures HandlerInv(Next(s, a), c, s.handlers[c])
  {
  }

  lemma HandlersKeep(s: State, a: Action, c: nat)
    requires Inv(s) && Enabled(s, a) && c in Next(s, a).handlers
    ensures HandlerInv(Next(s, a), c, Next(s, a).handlers[c])
  {
    match a
    case LoopStep(tid) => LoopStepKeepsHandler(s, tid, c);
    case HandlerStep(conn) => HandlerStepKeepsHandler(s, conn, c);
    case _ => OtherStepsKeepHandler(s, a, c);
  }

  lemma StepKeepsInv(s: State, a: Action)
    requires Inv(s) && Enabled(s, a)
    ensures Inv(Next(s, a))
  {
    MutexKeeps(s, a);
    match a {
      case LoopStep(tid) =>
        assert LoopInv(s, tid, s.loops[tid]);
        if s.loops[tid].Adding? {
          AddKeepsGroup(s, tid);
        } else {
          LoopStepKeepsGroup(s, tid);
        }
      case HandlerStep(conn) =>
        assert HandlerInv(s, conn, s.handlers[conn]);
        if s.handlers[conn].Uncounted? {
          LeaveKeepsGroup(s, conn);
        } else {
          HandlerStepKeepsGroup(s, conn);
        }
      case _ =>
    }
    RangeKeeps(s, a);
    forall t | t in Next(s, a).loops
      ensures LoopInv(Next(s, a), t, Next(s, a).loops[t])
    {
      LoopsKeep(s, a, t);
    }
    forall c | c in Next(s, a).handlers
      ensures HandlerInv(Next(s, a), c, Next(s, a).handlers[c])
    {
      HandlersKeep(s, a, c);
    }
  }

  lemma {:induction false} RunKeepsInv(s: State, acts: seq<Action>, t: State)
    requires Inv(s) && Runs(s, acts, t)
    ensures Inv(t)
    decreases |acts|
  {
    if acts != [] {
      StepKeepsInv(s, acts[0]);
      RunKeepsInv(Next(s, acts[0]), acts[1..], t);
    }
  }

  // ---- theorems ----

  /** Once the shutdown signal is given no handler is registered any more, in
      any continuation of any run. */
  lemma {:induction false} NoHandlerAfterSignal(s: State, acts: seq<Action>, t: State)
    requires Inv(s) && Runs(s, acts, t) && s.shutdown
    ensures t.shutdown && t.handlers.Keys == s.handlers.Keys && t.connMap <= s.connMap
    decreases |acts|
  {
    if acts != [] {
      StepKeepsInv(s, acts[0]);
      StepAfterSignal(s, acts[0]);
      NoHandlerAfterSignal(Next(s, acts[0]), acts[1..], t);
    }
  }

  lemma StepAfterSignal(s: State, a: Action)
    requires MutexInv(s) && Enabled(s, a) && s.shutdown
    requires a.LoopStep? ==> LoopInv(s, a.tid, s.loops[a.tid])
    ensures Next(s, a).shutdown && Next(s, a).handlers.Keys == s.handlers.Keys && Next(s, a).connMap <= s.connMap
  {
  }

  /** In every run, when Close starts to wait, every registered handler that has
      not finished has had its connection closed, so its read loop will end; and
      when Close returns, every registered handler has finished. */
  lemma CloseUnblocksHandlers(acts: seq<Action>, t: State, conn: nat)
    requires Runs(Init(), acts, t) && conn in t.handlers
    ensures t.closer.Waiting? && !t.handlers[conn].Gone? ==> conn in t.closed
    ensures t.closer.Returned? ==> t.handlers[conn].Gone?
    ensures t.waitGroup == |t.handlers.Keys - t.finished|
  {
    RunKeepsInv(Init(), acts, t);
    assert HandlerInv(t, conn, t.handlers[conn]);
  }
}
