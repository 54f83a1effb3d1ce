/** Completing one unary request (valueclient/client.go, processResponse;
    valueclient/request.go, notifyResult, closeResult and SingleResp) while any
    number of responses to it are processed concurrently: after a replay on a new
    connection the old and the new read loop may both hold one. */
module UnaryCompletion {

  type Result = string

  /** One thread that ends the request. A loop with a result delivers it first;
      anyone else (an error response, a failed reconnect, a cancelled context)
      just closes. A closer that leaves the map entry alone is one that never
      takes its last step. */
  datatype Pc =
    | Notify(res: Result)      // about to send into the result channel
    | AtOnce                   // about to enter closeOnce
    | InDone                   // inside it: about to close done
    | InResult                 // about to close the result channel
    | InEnd                    // about to fire RequestEnd
    | Remove                   // about to delete the map entry
    | Over

  datatype Caller = Waiting | Got(res: Result) | NoResponse | GaveUp

  datatype Once = Idle | Busy(tid: nat) | Finished

  datatype Shared = Shared(
    buffer: seq<Result>,       // the result channel, of capacity 1
    closed: bool,              // the result channel is closed
    done: bool,                // the done channel is closed
    once: Once,
    ends: nat,                 // times RequestEnd fired
    present: bool,             // the request is in the request map
    caller: Caller,
    delivered: seq<Result>,    // history: results that entered the channel
    outside: bool              // history: someone without a result closes
  )

  datatype State = State(sh: Shared, threads: map<nat, Pc>)

  datatype Action =
    | Respond(tid: nat, res: Result)  // a loop with a result has looked the request up
    | CloseBy(tid: nat)               // someone without a result starts to close the request
    | Step(tid: nat)
    | DropStep(tid: nat)              // the select in notifyResult takes its done branch
    | Read                            // the caller reads the channel
    | GiveUp                          // the caller's timeout or cancellation

  function Init(): State {
    State(Shared([], false, false, Idle, 0, true, Waiting, [], false), map[])
  }

  predicate CanMove(sh: Shared, pc: Pc) {
    match pc
    case Notify(_) => sh.closed || |sh.buffer| < 1
    case AtOnce => !sh.once.Busy?
    case Over => false
    case _ => true
  }

  predicate Enabled(s: State, a: Action) {
    match a
    case Respond(tid, _) => tid !in s.threads && s.sh.present
    case CloseBy(tid) => tid !in s.threads
    case Step(tid) => tid in s.threads && CanMove(s.sh, s.threads[tid])
    case DropStep(tid) => tid in s.threads && s.threads[tid].Notify? && s.sh.done
    case Read => s.sh.caller.Waiting? && (s.sh.buffer != [] || s.sh.closed)
    case GiveUp => s.sh.caller.Waiting?
  }

  /** A send into the closed channel panics, is recovered and delivers nothing. */
  function NextShared(sh: Shared, tid: nat, pc: Pc): Shared {
    match pc
    case Notify(res) =>
      if sh.closed then sh else sh.(buffer := sh.buffer + [res], delivered := sh.delivered + [res])
    case AtOnce => if sh.once.Idle? then sh.(once := Busy(tid)) else sh
    case InDone => sh.(done := true)
    case InResult => sh.(closed := true)
    case InEnd => sh.(ends := sh.ends + 1, once := Finished)
    case Remove => sh.(present := false)
    case Over => sh
  }

  function NextPc(sh: Shared, pc: Pc): Pc {
    match pc
    case Notify(_) => AtOnce
    case AtOnce => if sh.once.Idle? then InDone else Remove
    case InDone => InResult
    case InResult => InEnd
    case InEnd => Remove
    case Remove => Over
    case Over => Over
  }

  function Next(s: State, a: Action): State
    requires Enabled(s, a)
  {
    match a
    case Respond(tid, res) => s.(threads := s.threads[tid := Notify(res)])
    case CloseBy(tid) => s.(threads := s.threads[tid := AtOnce], sh := s.sh.(outside := true))
    case Step(tid) =>
      State(NextShared(s.sh, tid, s.threads[tid]), s.threads[tid := NextPc(s.sh, s.threads[tid])])
    case DropStep(tid) => s.(threads := s.threads[tid := AtOnce])
    case Read =>
      if s.sh.buffer == [] then s.(sh := s.sh.(caller := NoResponse))
      else s.(sh := s.sh.(caller := Got(s.sh.buffer[0]), buffer := s.sh.buffer[1..]))
    case GiveUp => s.(sh := s.sh.(caller := GaveUp))
  }

  predicate Runs(s: State, acts: seq<Action>, t: State)
    decreases |acts|
  {
    if acts == [] then s == t
    else Enabled(s, acts[0]) && Runs(Next(s, acts[0]), acts[1..], t)
  }

  // ---- invariant ----

  predicate Inside(pc: Pc) {
    pc.InDone? || pc.InResult? || pc.InEnd?
  }

  /** Nothing is taken out of the channel but by the caller, who reads once. */
  predicate ChannelInv(sh: Shared) {
    && |sh.buffer| <= 1
    && sh.delivered == (if sh.caller.Got? then [sh.caller.res] else []) + sh.buffer
    && (sh.caller.NoResponse? ==> sh.delivered == [] && sh.closed)
    && (sh.closed ==> sh.done)
    && (sh.done ==> !sh.once.Idle? && (sh.delivered != [] || sh.outside))
    && sh.ends == (if sh.once.Finished? then 1 else 0)
    && (sh.once.Finished? ==> sh.closed)
  }

  /** A thread past its send has delivered, or found the request ended. */
  predicate ThreadInv(sh: Shared, tid: nat, pc: Pc) {
    && (!pc.Notify? ==> sh.delivered != [] || sh.outside)
    && (Inside(pc) ==> sh.once == Busy(tid))
    && (pc.InResult? || pc.InEnd? ==> sh.done)
    && (pc.InEnd? ==> sh.closed)
    && (pc.Remove? || pc.Over? ==> sh.once.Finished?)
    && (pc.Over? ==> !sh.present)
  }

  predicate Inv(s: State) {
    ChannelInv(s.sh) && forall t :: t in s.threads ==> ThreadInv(s.sh, t, s.threads[t])
  }

  lemma MoverKeeps(sh: Shared, tid: nat, pc: Pc)
    requires ChannelInv(sh) && ThreadInv(sh, tid, pc) && CanMove(sh, pc)
    ensures ChannelInv(NextShared(sh, tid, pc)) && ThreadInv(NextShared(sh, tid, pc), tid, NextPc(sh, pc))
  {
  }

  lemma OtherKeeps(sh: Shared, tid: nat, pc: Pc, u: nat, other: Pc)
    requires ChannelInv(sh) && ThreadInv(sh, tid, pc) && CanMove(sh, pc) && ThreadInv(sh, u, other) && u != tid
    ensures ThreadInv(NextShared(sh, tid, pc), u, other)
  {
  }

  lemma StepKeepsInv(s: State, a: Action)
    requires Inv(s) && Enabled(s, a)
    ensures Inv(Next(s, a))
  {
    if a.Step? {
      MoverKeeps(s.sh, a.tid, s.threads[a.tid]);
      forall u | u in s.threads && u != a.tid
        ensures ThreadInv(Next(s, a).sh, u, s.threads[u])
      {
        OtherKeeps(s.sh, a.tid, s.threads[a.tid], u, s.threads[u]);
      }
    }
  }

  lemma {:induction false} RunKeepsInv(s: State, acts: seq<Action>, t: State)
    requires Inv(s) && Runs(s, acts, t)
    ensures Inv(t)
    decreases |acts|
  {
    if acts != [] {
      StepKeepsInv(s, acts[0]);
      RunKeepsInv(Next(s, acts[0]), acts[1..], t);
    }
  }

  /** A unary request completes at most once: RequestEnd never fires twice; a
      result the caller gets is the first one delivered; a caller that finds the
      channel closed without a result owes that to a closer without one; and
      once any of the closing threads is through, the map entry is gone. */
  lemma UnaryCompletesOnce(acts: seq<Action>, t: State, tid: nat)
    requires Runs(Init(), acts, t)
    ensures t.sh.ends <= 1
    ensures t.sh.caller.Got? ==> t.sh.delivered != [] && t.sh.caller.res == t.sh.delivered[0]
    ensures t.sh.caller.NoResponse? ==> t.sh.delivered == [] && t.sh.outside
    ensures tid in t.threads && t.threads[tid].Over? ==> !t.sh.present && t.sh.ends == 1
  {
    RunKeepsInv(Init(), acts, t);
    assert tid in t.threads ==> ThreadInv(t.sh, tid, t.threads[tid]);
  }

  /** The caller's outcome, once it has one, never changes. */
  lemma {:induction false} OutcomeIsFinal(s: State, acts: seq<Action>, t: State)
    requires Runs(s, acts, t) && !s.sh.caller.Waiting?
    ensures t.sh.caller == s.sh.caller
    decreases |acts|
  {
    if acts != [] {
      OutcomeIsFinal(Next(s, acts[0]), acts[1..], t);
    }
  }
}
