/** The sender side of flow control (valuerpc/credit.go): a counter of credits
    with a close flag. `Gate` is the value a gate holds; class `CreditGate` is
    the object that changes it in place under its mutex. */
module CreditGates {

  datatype Gate = Gate(credit: int, closed: bool)

  /** What one pass through the wait loop of Acquire finds. */
  datatype Attempt = Blocked | Acquired | Refused

  const FRESH_GATE := Gate(0, false)

  function AttemptOn(g: Gate): Attempt {
    if g.closed then Refused else if g.credit <= 0 then Blocked else Acquired
  }

  function AfterAttempt(g: Gate): Gate {
    if AttemptOn(g).Acquired? then g.(credit := g.credit - 1) else g
  }

  function AfterGrant(g: Gate, n: int): Gate {
    if n <= 0 then g else g.(credit := g.credit + n)
  }

  class CreditGate {
    var credit: int
    var closed: bool

    function View(): Gate
      reads this
    {
      Gate(credit, closed)
    }

    constructor ()
      ensures View() == FRESH_GATE
    {
      credit := 0;
      closed := false;
    }

    /** One wake-up of Acquire: `Blocked` is the state in which the caller keeps
        waiting, and then nothing has changed. */
    method TryAcquire() returns (a: Attempt)
      modifies this
      ensures a == AttemptOn(old(View()))
      ensures View() == AfterAttempt(old(View()))
      ensures a.Acquired? ==> old(credit) > 0 && credit == old(credit) - 1
      ensures !a.Acquired? ==> View() == old(View())
    {
      if credit <= 0 && !closed {
        return Blocked;
      }
      if closed {
        return Refused;
      }
      credit := credit - 1;
      return Acquired;
    }

    method Grant(n: int)
      modifies this
      ensures View() == AfterGrant(old(View()), n)
      ensures n <= 0 ==> View() == old(View())
    {
      if n <= 0 {
        return;
      }
      credit := credit + n;
    }

    method Close()
      modifies this
      ensures View() == old(View()).(closed := true)
    {
      closed := true;
    }
  }

  // ---- every history of one gate ----

  datatype Call = TryAcquire | Grant(n: int) | Close

  function AfterCall(g: Gate, c: Call): Gate {
    match c
    case TryAcquire => AfterAttempt(g)
    case Grant(n) => AfterGrant(g, n)
    case Close => g.(closed := true)
  }

  function AfterCalls(g: Gate, calls: seq<Call>): Gate
    decreases |calls|
  {
    if calls == [] then g else AfterCalls(AfterCall(g, calls[0]), calls[1..])
  }

  /** How many Acquire calls of a history took a credit. */
  function Acquisitions(g: Gate, calls: seq<Call>): nat
    decreases |calls|
  {
    if calls == [] then 0
    else (if calls[0].TryAcquire? && AttemptOn(g).Acquired? then 1 else 0)
         + Acquisitions(AfterCall(g, calls[0]), calls[1..])
  }

  function GrantedTotal(calls: seq<Call>): nat {
    if calls == [] then 0
    else (if calls[0].Grant? && calls[0].n > 0 then calls[0].n else 0) + GrantedTotal(calls[1..])
  }

  /** Every history of a gate spends exactly what it was granted: acquisitions
      plus the credit left over equal the credit at the start plus the positive
      grants; a non-negative credit stays so, and a closed gate hands out none. */
  lemma {:induction false} GateNeverOverspends(g: Gate, calls: seq<Call>)
    requires g.credit >= 0
    ensures AfterCalls(g, calls).credit >= 0
    ensures Acquisitions(g, calls) + AfterCalls(g, calls).credit == g.credit + GrantedTotal(calls)
    ensures g.closed ==> Acquisitions(g, calls) == 0 && AfterCalls(g, calls).closed
    decreases |calls|
  {
    if calls != [] {
      GateNeverOverspends(AfterCall(g, calls[0]), calls[1..]);
    }
  }
}
