/** The bounded queue between a connection's read loop and one consumer
    (valuerpc/pump.go). `Pump` is what callers can observe; class `StreamPump`
    stores it in a slice: a backing array, a length and a head index, with
    delivered slots reclaimed by in-place compaction. */
module StreamPumps {
  import opened Values

  const DEFAULT_MAX_PENDING: nat := 4096

  datatype Pump = Pump(queue: seq<Cell>, inputEnd: bool, overflow: bool, stopped: bool, maxPending: nat)

  /** The bound a pump works with: a non-positive request means the default. */
  function Bound(maxPending: int): (r: nat)
    ensures r >= 1
  {
    if maxPending <= 0 then DEFAULT_MAX_PENDING else maxPending
  }

  function FreshPump(maxPending: int): Pump {
    Pump([], false, false, false, Bound(maxPending))
  }

  predicate Accepts(p: Pump) {
    !p.inputEnd && !p.stopped && |p.queue| < p.maxPending
  }

  function AfterPush(p: Pump, v: Cell): Pump {
    if Accepts(p) then p.(queue := p.queue + [v])
    else if p.inputEnd || p.stopped then p
    else p.(overflow := true, inputEnd := true)
  }

  function AfterTake(p: Pump): Pump
    requires p.queue != []
  {
    p.(queue := p.queue[1..])
  }

  /** copy(a, a[from:from+n]) on overlapping regions, front to back. */
  method MoveDown(a: array<Cell>, from: nat, n: nat)
    requires from + n <= a.Length
    modifies a
    ensures a[..n] == old(a[..])[from..from + n]
    ensures forall j :: n <= j < a.Length ==> a[j] == old(a[j])
  {
    for i := 0 to n
      invariant a[..i] == old(a[..])[from..from + i]
      invariant forall j :: i <= j < a.Length ==> a[j] == old(a[..])[j]
    {
      a[i] := a[from + i];
    }
  }

  method Clear(a: array<Cell>, lo: nat, hi: nat)
    requires lo <= hi <= a.Length
    modifies a
    ensures a[..lo] == old(a[..lo]) && (forall j :: hi <= j < a.Length ==> a[j] == old(a[j]))
    ensures forall j :: lo <= j < hi ==> a[j] == Nil
  {
    for i := lo to hi
      invariant a[..lo] == old(a[..lo]) && (forall j :: hi <= j < a.Length ==> a[j] == old(a[j]))
      invariant forall j :: lo <= j < i ==> a[j] == Nil
    {
      a[i] := Nil;
    }
  }

  /** A larger array, of a size the runtime chooses, that starts like `a`. */
  method Grow(a: array<Cell>) returns (grown: array<Cell>)
    ensures fresh(grown) && grown.Length > a.Length && grown[..a.Length] == a[..]
    ensures forall j :: a.Length <= j < grown.Length ==> grown[j] == Nil
  {
    var capacity: int :| capacity > a.Length;
    grown := new Cell[capacity](_ => Nil);
    for i := 0 to a.Length
      modifies grown
      invariant grown[..i] == a[..i]
      invariant forall j :: i <= j < capacity ==> grown[j] == Nil
    {
      grown[i] := a[i];
    }
  }

  class StreamPump {
    const maxPending: nat
    var buf: array<Cell>   // backing array of the slice; its capacity is buf.Length
    var len: nat           // length of the slice
    var head: nat          // the live region is buf[head..len]
    var inputEnd: bool
    var overflow: bool
    var stopped: bool

    /** Only the live region holds references: every other slot is nil. */
    ghost predicate Valid()
      reads this, buf
    {
      && maxPending >= 1
      && head <= len <= buf.Length
      && len - head <= maxPending
      && (head == len ==> head == 0)
      && (forall i :: 0 <= i < buf.Length && !(head <= i < len) ==> buf[i] == Nil)
    }

    ghost function View(): Pump
      requires Valid()
      reads this, buf
    {
      Pump(buf[head..len], inputEnd, overflow, stopped, maxPending)
    }

    constructor (requested: int)
      ensures Valid() && fresh(buf)
      ensures View() == FreshPump(requested)
    {
      maxPending := Bound(requested);
      buf := new Cell[0];
      len, head := 0, 0;
      inputEnd, overflow, stopped := false, false, false;
    }

    /** Never blocks. The queue grows by exactly the pushed value or not at all;
        crossing the bound ends the input; and the backing array is replaced
        only when it is full of live values, fewer than the bound. */
    method Push(v: Cell) returns (ok: bool)
      requires Valid()
      modifies this, buf
      ensures Valid()
      ensures ok == Accepts(old(View()))
      ensures View() == AfterPush(old(View()), v)
      ensures buf == old(buf) || fresh(buf)
      ensures buf != old(buf) <==> ok && old(head) == 0 && old(len) == old(buf.Length)
      ensures buf != old(buf) ==> old(buf.Length) < maxPending
    {
      if inputEnd || stopped {
        return false;
      }
      if len - head >= maxPending {
        overflow, inputEnd := true, true;
        return false;
      }
      if head > 0 && len == buf.Length {
        Compact();
      }
      Append(v);
      return true;
    }

    /** Moves the live region to the front of the same array and clears the
        slots it leaves behind; no caller can tell. */
    method Compact()
      requires Valid()
      modifies this`len, this`head, buf
      ensures Valid()
      ensures View() == old(View())
      ensures head == 0 && len == old(len) - old(head)
    {
      var n := len - head;
      MoveDown(buf, head, n);
      Clear(buf, n, len);
      len, head := n, 0;
    }

    /** Go's append: in place while there is capacity, else into a larger array. */
    method Append(v: Cell)
      requires Valid() && len - head < maxPending && (head > 0 ==> len < buf.Length)
      modifies this`len, this`buf, buf
      ensures Valid() && head == old(head)
      ensures View() == old(View()).(queue := old(View()).queue + [v])
      ensures buf == old(buf) || fresh(buf)
      ensures buf != old(buf) <==> old(len) == old(buf.Length)
    {
      if len == buf.Length {
        buf := Grow(buf);
      }
      buf[len] := v;
      len := len + 1;
    }

    /** The critical section of run that picks the next value to deliver. */
    method Take() returns (v: Cell)
      requires Valid() && View().queue != []
      modifies this`len, this`head, buf
      ensures Valid()
      ensures v == old(View()).queue[0]
      ensures View() == AfterTake(old(View()))
    {
      v := buf[head];
      buf[head] := Nil;
      head := head + 1;
      if head == len {
        len, head := 0, 0;
      }
    }

    method Close()
      requires Valid()
      modifies this`inputEnd
      ensures Valid()
      ensures View() == old(View()).(inputEnd := true)
    {
      inputEnd := true;
    }

    method Stop()
      requires Valid()
      modifies this`stopped
      ensures Valid()
      ensures View() == old(View()).(stopped := true)
    {
      stopped := true;
    }
  }
}
