/** Closing a request from two sides (valueclient/request.go, and its copy in
    valueserver/serving_stream.go): any number of TryGetClose, TryPutClose and
    Close calls, interleaved at every atomic store, load and Once. */
module HalfClose {

  datatype Kind = Unary | GetStream | PutStream | Chat

  /** A call, with what its caller does next: TryGetClose and TryPutClose are
      followed by removal of the map entry when they report true; a Close is
      followed by removal or not, depending on who calls it. */
  datatype Op = TryGetClose | TryPutClose | Close(thenRemove: bool)

  datatype Pc =
    | Begin                    // before the first flag store
    | SecondStore              // Close: between its two flag stores
    | AtOnce                   // about to enter closeOnce
    | InDone                   // inside it: about to close done and the credit gate
    | InResult                 // about to close the result channel (or its pump)
    | InEnd                    // about to fire RequestEnd
    | AtLoad                   // about to load the other side's flag
    | Returned(finished: bool) // back in the caller
    | Over(finished: bool)     // the caller has acted on the answer

  datatype Thread = Thread(op: Op, pc: Pc)

  datatype Once = Idle | Busy(tid: nat) | Finished

  /** What the calls share. */
  datatype Shared = Shared(
    kind: Kind,
    getClosed: bool,
    putClosed: bool,
    once: Once,
    dones: nat,                // times the done channel was closed
    closes: nat,               // times the result channel was closed
    ends: nat,                 // times RequestEnd fired
    present: bool              // the request is in the request map
  )

  datatype State = State(sh: Shared, threads: map<nat, Thread>)

  datatype Action = Spawn(tid: nat, op: Op) | Step(tid: nat)

  function Init(kind: Kind): State {
    State(Shared(kind, false, false, Idle, 0, 0, 0, true), map[])
  }

  /** A thread can move unless it is over, or waits for another inside the Once. */
  predicate CanMove(sh: Shared, th: Thread) {
    !th.pc.Over? && !(th.pc.AtOnce? && sh.once.Busy?)
  }

  predicate Enabled(s: State, a: Action) {
    match a
    case Spawn(tid, _) => tid !in s.threads
    case Step(tid) => tid in s.threads && CanMove(s.sh, s.threads[tid])
  }

  /** Where a call continues behind closeResult. */
  function AfterOnce(kind: Kind, op: Op): Pc {
    match op
    case TryGetClose => if kind.Chat? then AtLoad else Returned(true)
    case TryPutClose => Returned(true)
    case Close(remove) => Returned(remove)
  }

  function NextPc(sh: Shared, th: Thread): Pc {
    match th.pc
    case Begin =>
      (match th.op
       case TryGetClose => AtOnce
       case TryPutClose => if sh.kind.PutStream? then AtOnce else AtLoad
       case Close(_) => SecondStore)
    case SecondStore => AtOnce
    case AtOnce => if sh.once.Idle? then InDone else AfterOnce(sh.kind, th.op)
    case InDone => InResult
    case InResult => InEnd
    case InEnd => AfterOnce(sh.kind, th.op)
    case AtLoad => Returned(if th.op.TryGetClose? then sh.putClosed else sh.getClosed)
    case Returned(finished) => Over(finished)
    case Over(finished) => Over(finished)
  }

  function NextShared(sh: Shared, tid: nat, th: Thread): Shared {
    match th.pc
    case Begin => if th.op.TryPutClose? then sh.(putClosed := true) else sh.(getClosed := true)
    case SecondStore => sh.(putClosed := true)
    case AtOnce => if sh.once.Idle? then sh.(once := Busy(tid)) else sh
    case InDone => sh.(dones := sh.dones + 1)
    case InResult => sh.(closes := sh.closes + 1)
    case InEnd => sh.(ends := sh.ends + 1, once := Finished)
    case Returned(finished) => if finished then sh.(present := false) else sh
    case _ => sh
  }

  function Next(s: State, a: Action): State
    requires Enabled(s, a)
  {
    match a
    case Spawn(tid, op) => s.(threads := s.threads[tid := Thread(op, Begin)])
    case Step(tid) =>
      var th := s.threads[tid];
      State(NextShared(s.sh, tid, th), s.threads[tid := th.(pc := NextPc(s.sh, th))])
  }

  predicate Runs(s: State, acts: seq<Action>, t: State)
    decreases |acts|
  {
    if acts == [] then s == t
    else Enabled(s, acts[0]) && Runs(Next(s, acts[0]), acts[1..], t)
  }

  // ---- invariant ----

  predicate Inside(pc: Pc) {
    pc.InDone? || pc.InResult? || pc.InEnd?
  }

  predicate HasReturned(pc: Pc) {
    pc.Returned? || pc.Over?
  }

  predicate Answered(pc: Pc, finished: bool) {
    pc == Returned(finished) || pc == Over(finished)
  }

  /** What thread `t` has done by the time it is where it is. */
  predicate ThreadInv(sh: Shared, t: nat, th: Thread) {
    && (Inside(th.pc) ==> sh.once == Busy(t))
    && (!th.pc.Begin? ==> if th.op.TryPutClose? then sh.putClosed else sh.getClosed)
    && (th.pc.SecondStore? ==> th.op.Close?)
    && (th.op.TryPutClose? && !sh.kind.PutStream? ==> !th.pc.AtOnce? && !Inside(th.pc))
    && (th.pc.AtLoad? ==> (th.op.TryGetClose? && sh.kind.Chat?) || (th.op.TryPutClose? && !sh.kind.PutStream?))
    && (th.pc.AtLoad? || th.pc.Returned? || th.pc.Over? ==>
          (th.op.TryPutClose? && !sh.kind.PutStream?) || sh.once.Finished?)
    && (Answered(th.pc, false) ==>
          th.op.Close? || (th.op.TryGetClose? && sh.kind.Chat?) || (th.op.TryPutClose? && !sh.kind.PutStream?))
    && (th.pc == Over(true) ==> !sh.present)
  }

  /** The Once runs its body once, in one thread. */
  predicate OnceInv(s: State) {
    match s.sh.once
    case Idle => s.sh.dones == 0 && s.sh.closes == 0 && s.sh.ends == 0
    case Busy(t) =>
      && t in s.threads && Inside(s.threads[t].pc)
      && s.sh.dones == (if s.threads[t].pc.InDone? then 0 else 1)
      && s.sh.closes == (if s.threads[t].pc.InEnd? then 1 else 0)
      && s.sh.ends == 0
    case Finished => s.sh.dones == 1 && s.sh.closes == 1 && s.sh.ends == 1
  }

  /** Not both halves have been told that the other is still open. */
  predicate PairInv(g: Thread, p: Thread) {
    g.op.TryGetClose? && p.op.TryPutClose? ==> !(Answered(g.pc, false) && Answered(p.pc, false))
  }

  predicate Inv(s: State) {
    && OnceInv(s)
    && (forall t :: t in s.threads ==> ThreadInv(s.sh, t, s.threads[t]))
    && (forall g, p :: g in s.threads && p in s.threads ==> PairInv(s.threads[g], s.threads[p]))
  }

  lemma StepKeepsMover(sh: Shared, t: nat, th: Thread)
    requires ThreadInv(sh, t, th) && CanMove(sh, th)
    ensures ThreadInv(NextShared(sh, t, th), t, th.(pc := NextPc(sh, th)))
  {
  }

  lemma StepKeepsOther(sh: Shared, t: nat, th: Thread, u: nat, other: Thread)
    requires ThreadInv(sh, t, th) && CanMove(sh, th) && ThreadInv(sh, u, other) && t != u
    ensures ThreadInv(NextShared(sh, t, th), u, other)
  {
  }

  /** A half that finds the other's flag clear is the only one to have stored. */
  lemma StepKeepsPair(sh: Shared, t: nat, th: Thread, u: nat, other: Thread)
    requires ThreadInv(sh, t, th) && ThreadInv(sh, u, other)
    requires PairInv(th, other) && PairInv(other, th)
    ensures PairInv(th.(pc := NextPc(sh, th)), other) && PairInv(other, th.(pc := NextPc(sh, th)))
  {
  }

  lemma StepKeepsOnce(s: State, t: nat)
    requires OnceInv(s) && Enabled(s, Step(t)) && ThreadInv(s.sh, t, s.threads[t])
    ensures OnceInv(Next(s, Step(t)))
  {
  }

  lemma StepKeepsInv(s: State, a: Action)
    requires Inv(s) && Enabled(s, a)
    ensures Inv(Next(s, a)) && Next(s, a).sh.kind == s.sh.kind
  {
    var s' := Next(s, a);
    if a.Step? {
      var th := s.threads[a.tid];
      StepKeepsMover(s.sh, a.tid, th);
      StepKeepsOnce(s, a.tid);
      forall u | u in s.threads && u != a.tid
        ensures ThreadInv(s'.sh, u, s.threads[u])
        ensures PairInv(s'.threads[a.tid], s.threads[u]) && PairInv(s.threads[u], s'.threads[a.tid])
      {
        StepKeepsOther(s.sh, a.tid, th, u, s.threads[u]);
        StepKeepsPair(s.sh, a.tid, th, u, s.threads[u]);
      }
    }
  }

  lemma {:induction false} RunKeepsInv(s: State, acts: seq<Action>, t: State)
    requires Inv(s) && Runs(s, acts, t)
    ensures Inv(t) && t.sh.kind == s.sh.kind
    decreases |acts|
  {
    if acts != [] {
      StepKeepsInv(s, acts[0]);
      RunKeepsInv(Next(s, acts[0]), acts[1..], t);
    }
  }

  // ---- theorems ----

  /** In every interleaving the result channel is closed at most once and
      RequestEnd fires at most once; both have happened by the time any Close or
      TryGetClose returns. */
  lemma ClosedExactlyOnce(kind: Kind, acts: seq<Action>, t: State, tid: nat)
    requires Runs(Init(kind), acts, t)
    ensures t.sh.dones <= 1 && t.sh.closes <= 1 && t.sh.ends <= t.sh.closes
    ensures tid in t.threads && !t.threads[tid].op.TryPutClose? && HasReturned(t.threads[tid].pc)
            ==> t.sh.closes == 1 && t.sh.ends == 1
    ensures tid in t.threads && kind.PutStream? && HasReturned(t.threads[tid].pc)
            ==> t.sh.closes == 1 && t.sh.ends == 1
  {
    RunKeepsInv(Init(kind), acts, t);
    assert tid in t.threads ==> ThreadInv(t.sh, tid, t.threads[tid]);
  }

  /** When both halves of a chat have been closed and their callers have acted,
      at least one call reported the request finished, and its map entry is gone.
      A put-stream is gone after its put half alone, any other kind after its
      get half. */
  lemma FinishedRequestIsRemoved(kind: Kind, acts: seq<Action>, t: State, g: nat, p: nat)
    requires Runs(Init(kind), acts, t)
    ensures g in t.threads && p in t.threads && t.threads[g].op.TryGetClose? && t.threads[p].op.TryPutClose?
            && t.threads[g].pc.Over? && t.threads[p].pc.Over? ==>
              !t.sh.present && (t.threads[g].pc.finished || t.threads[p].pc.finished)
    ensures p in t.threads && t.threads[p].op.TryPutClose? && t.threads[p].pc.Over? && kind.PutStream? ==> !t.sh.present
    ensures g in t.threads && t.threads[g].op.TryGetClose? && t.threads[g].pc.Over? && !kind.Chat? ==> !t.sh.present
  {
    RunKeepsInv(Init(kind), acts, t);
    assert g in t.threads ==> ThreadInv(t.sh, g, t.threads[g]);
    assert p in t.threads ==> ThreadInv(t.sh, p, t.threads[p]);
  }
}
