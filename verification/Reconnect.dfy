/** What happens to requests when a client reconnects (valueclient/client.go,
    Reconnect, failRequest and sendRequest; valueclient/sync_conn.go): callers that
    issue requests, read loops that complete them, dials by others, and one
    reconnect after another, interleaved at every step. */
module Reconnects {

  datatype Kind = Unary | Stream
  datatype Request = Request(kind: Kind, name: string)

  /** Requests that a policy allows to be sent again; without one, none is. */
  predicate Replayable(r: Request, policy: string -> bool) {
    r.kind.Unary? && policy(r.name)
  }

  /** How far sendRequest has come with a request. The connection it gets when
      it asks for one, waiting if there is none, is the one it sends on. */
  datatype Pc = Allocated | Stored | Sent(conn: nat)

  datatype Call = Call(req: Request, pc: Pc)

  datatype Phase =
    | Idle
    | Began                      // the flag is won
    | Down                       // the connection is reset
    | Cut                        // the cutoff is read
    | Ranging                    // going through the request map
    | Dialing                    // about to look for a connection
    | Trying                     // there was none: dialing
    | Resending(left: seq<int>)
    | Failing(left: seq<int>)
    | Finished(ok: bool)         // about to release the flag

  /** What the latest reconnect has found. */
  datatype Walk = Walk(
    cutoff: int,
    due: set<int>,               // keys of the map when the walk over it began
    seen: set<int>,              // keys it has had since
    visited: set<int>,
    replay: seq<int>             // collected for replay, in order
  )

  /** Requests and what has become of them. */
  datatype Book = Book(
    last: nat,                   // the request id counter
    calls: map<int, Call>,       // history: all requests by id
    requests: set<int>,          // keys of the request map
    wired: set<int>,             // history: requests that were put on some connection
    done: set<int>,              // history: requests completed by a response
    lost: multiset<int>          // history: requests failed with the connection-lost error
  )

  datatype Net = Net(
    conn: nat,                   // the current connection, 0 for none
    dials: nat,                  // connections made so far; the latest has this number
    resent: multiset<(int, nat)> // history: which request was sent again on which connection
  )

  datatype State = State(book: Book, net: Net, phase: Phase, walk: Walk)

  datatype Action =
    | Allocate(req: Request)
    | Store(id: int)
    | Send(id: int)
    | Complete(id: int)
    | Dial                       // by a caller that found no connection
    | Begin
    | Skip                       // a reconnect that finds another one under way
    | Reset
    | Cutoff
    | StartRange
    | Visit(id: int)
    | EndRange
    | Look
    | Connect(ok: bool)
    | Resend
    | FailNext
    | Finish
    | Release

  function Init(): State {
    State(Book(0, map[], {}, {}, {}, multiset{}), Net(0, 0, multiset{}), Idle, Walk(0, {}, {}, {}, []))
  }

  /** The walk shows an entry that was in the map at some time during it, and
      no entry twice; it may end when it has shown every entry that was there
      from beginning to end. */
  predicate Enabled(s: State, a: Action) {
    match a
    case Allocate(_) => true
    case Store(id) => id in s.book.calls && s.book.calls[id].pc.Allocated?
    case Send(id) => id in s.book.calls && s.book.calls[id].pc.Stored? && s.net.conn != 0
    case Complete(id) => id in s.book.requests && id in s.book.wired
    case Dial => s.net.conn == 0
    case Begin => s.phase.Idle?
    case Skip => !s.phase.Idle?
    case Reset => s.phase.Began?
    case Cutoff => s.phase.Down?
    case StartRange => s.phase.Cut?
    case Visit(id) => s.phase.Ranging? && id in s.walk.seen && id in s.book.calls && id !in s.walk.visited
    case EndRange => s.phase.Ranging? && s.walk.due * s.book.requests <= s.walk.visited
    case Look => s.phase.Dialing?
    case Connect(_) => s.phase.Trying?
    case Resend => s.phase.Resending? && s.phase.left != [] && s.net.conn != 0
    case FailNext => s.phase.Failing? && s.phase.left != []
    case Finish => (s.phase.Resending? || s.phase.Failing?) && s.phase.left == []
    case Release => s.phase.Finished?
  }

  function AtPc(b: Book, id: int, pc: Pc): map<int, Call>
    requires id in b.calls
  {
    b.calls[id := b.calls[id].(pc := pc)]
  }

  /** failRequest: report and remove. */
  function Failed(b: Book, id: int): Book {
    b.(lost := b.lost + multiset{id}, requests := b.requests - {id})
  }

  function BookAfterVisit(policy: string -> bool, b: Book, cutoff: int, id: int): Book
    requires id in b.calls
  {
    if id > cutoff || Replayable(b.calls[id].req, policy) then b else Failed(b, id)
  }

  function WalkAfterVisit(policy: string -> bool, w: Walk, r: Request, id: int): Walk {
    if id > w.cutoff || !Replayable(r, policy) then w.(visited := w.visited + {id})
    else w.(visited := w.visited + {id}, replay := w.replay + [id])
  }

  /** A connection: the current one, or else a new one. */
  function Connected(n: Net): Net {
    if n.conn != 0 then n else n.(conn := n.dials + 1, dials := n.dials + 1)
  }

  function NextBook(policy: string -> bool, s: State, a: Action): Book
    requires Enabled(s, a)
  {
    var b := s.book;
    match a
    case Allocate(r) => b.(last := b.last + 1, calls := b.calls[b.last + 1 := Call(r, Allocated)])
    case Store(id) => b.(calls := AtPc(b, id, Stored), requests := b.requests + {id})
    case Send(id) => b.(calls := AtPc(b, id, Sent(s.net.conn)), wired := b.wired + {id})
    case Complete(id) => b.(requests := b.requests - {id}, done := b.done + {id})
    case Visit(id) => BookAfterVisit(policy, b, s.walk.cutoff, id)
    case Resend => b.(wired := b.wired + {s.phase.left[0]})
    case FailNext => Failed(b, s.phase.left[0])
    case _ => b
  }

  function NextNet(s: State, a: Action): Net
    requires Enabled(s, a)
  {
    match a
    case Dial => Connected(s.net)
    case Reset => s.net.(conn := 0)
    case Connect(ok) => if ok then Connected(s.net) else s.net
    case Resend => s.net.(resent := s.net.resent + multiset{(s.phase.left[0], s.net.conn)})
    case _ => s.net
  }

  function NextPhase(s: State, a: Action): Phase
    requires Enabled(s, a)
  {
    match a
    case Begin => Began
    case Reset => Down
    case Cutoff => Cut
    case StartRange => Ranging
    case EndRange => Dialing
    case Look => if s.net.conn != 0 then Resending(s.walk.replay) else Trying
    case Connect(ok) => if ok then Resending(s.walk.replay) else Failing(s.walk.replay)
    case Resend => Resending(s.phase.left[1..])
    case FailNext => Failing(s.phase.left[1..])
    case Finish => Finished(s.phase.Resending?)
    case Release => Idle
    case _ => s.phase
  }

  function NextWalk(policy: string -> bool, s: State, a: Action): Walk
    requires Enabled(s, a)
  {
    match a
    case Store(id) => if s.phase.Ranging? then s.walk.(seen := s.walk.seen + {id}) else s.walk
    case Cutoff => Walk(s.book.last, {}, {}, {}, [])
    case StartRange => Walk(s.walk.cutoff, s.book.requests, s.book.requests, {}, [])
    case Visit(id) => WalkAfterVisit(policy, s.walk, s.book.calls[id].req, id)
    case _ => s.walk
  }

  function Next(policy: string -> bool, s: State, a: Action): State
    requires Enabled(s, a)
  {
    State(NextBook(policy, s, a), NextNet(s, a), NextPhase(s, a), NextWalk(policy, s, a))
  }

  predicate Runs(policy: string -> bool, s: State, acts: seq<Action>, t: State)
    decreases |acts|
  {
    if acts == [] then s == t
    else Enabled(s, acts[0]) && Runs(policy, Next(policy, s, acts[0]), acts[1..], t)
  }

  // ---- what happened to one request ----

  /** How often a request was put on connection `c`: by its caller, and again. */
  function OnConn(s: State, id: int, c: nat): nat {
    (if id in s.book.calls && s.book.calls[id].pc == Sent(c) then 1 else 0) + s.net.resent[(id, c)]
  }

  /** The latest reconnect came across the request, as one of before. */
  predicate Met(w: Walk, id: int) {
    id in w.visited && id <= w.cutoff
  }

  predicate Keeps(policy: string -> bool, b: Book, id: int) {
    id in b.calls && Replayable(b.calls[id].req, policy)
  }

  /** The request is in the map, or will be when its caller goes on. */
  predicate Open(b: Book, id: int) {
    id in b.calls && (b.calls[id].pc.Allocated? || id in b.requests)
  }

  function Count(x: seq<int>, id: int): nat {
    if x == [] then 0 else (if x[0] == id then 1 else 0) + Count(x[1..], id)
  }

  lemma {:induction false} CountLast(x: seq<int>, y: int, id: int)
    ensures Count(x + [y], id) == Count(x, id) + if y == id then 1 else 0
    decreases |x|
  {
    if x == [] {
      assert [] + [y] == [y];
    } else {
      assert (x + [y])[1..] == x[1..] + [y];
      CountLast(x[1..], y, id);
    }
  }

  // ---- invariant ----

  /** Every request is nowhere yet, or in the map, or completed or lost; it is
      lost at most once. */
  predicate BookInv(b: Book, seen: set<int>, id: int) {
    && (id in b.calls <==> 1 <= id <= b.last)
    && (id !in b.calls || b.calls[id].pc.Allocated? ==>
          id !in b.requests && id !in b.done && b.lost[id] == 0 && id !in seen)
    && b.lost[id] <= 1
    && (id in b.requests ==> b.lost[id] == 0 && id !in b.done)
    && (id in b.calls && !b.calls[id].pc.Allocated? && b.lost[id] == 0 && id !in b.done ==> id in b.requests)
    && (id in b.calls && b.calls[id].pc.Sent? ==> id in b.wired)
  }

  predicate Walking(p: Phase) {
    !p.Idle? && !p.Began? && !p.Down? && !p.Cut?
  }

  /** How often the latest reconnect has failed the request so far. */
  function LostBy(policy: string -> bool, b: Book, p: Phase, w: Walk, id: int): int {
    if !Met(w, id) then 0
    else if !Keeps(policy, b, id) then 1
    else if p.Failing? then 1 - Count(p.left, id)
    else if p == Finished(false) then 1
    else 0
  }

  predicate WalkInv(policy: string -> bool, b: Book, p: Phase, w: Walk, id: int) {
    && (id in w.visited || id in w.due ==> id in w.seen)
    && (p.Cut? || Walking(p) ==> w.cutoff <= b.last && (b.lost[id] > 0 ==> id <= w.cutoff))
    && (Walking(p) ==>
          && Count(w.replay, id) == (if Met(w, id) && Keeps(policy, b, id) then 1 else 0)
          && (id in w.seen ==> b.lost[id] == LostBy(policy, b, p, w, id))
          && (!p.Ranging? && id in w.due && id in b.requests ==> id in w.visited)
          && (p.Resending? || p.Failing? ==> Count(p.left, id) <= Count(w.replay, id)))
  }

  /** What the latest reconnect has sent again on the connection it found. */
  function ResentBy(p: Phase, w: Walk, id: int): int {
    if p.Resending? then Count(w.replay, id) - Count(p.left, id)
    else if p == Finished(true) then Count(w.replay, id)
    else 0
  }

  predicate ConnInv(n: Net, p: Phase) {
    n.conn <= n.dials && (p.Resending? || p == Finished(true) ==> n.conn >= 1)
  }

  predicate SentInv(b: Book, n: Net, id: int) {
    id in b.calls && b.calls[id].pc.Sent? ==> 1 <= b.calls[id].pc.conn <= n.dials
  }

  predicate ResentInv(n: Net, p: Phase, w: Walk, id: int, c: nat) {
    && n.resent[(id, c)] <= 1
    && (c == 0 || c > n.dials ==> n.resent[(id, c)] == 0)
    && (c == n.conn && !p.Idle? && !p.Began? ==> n.resent[(id, c)] == ResentBy(p, w, id))
  }

  predicate KeptInv(policy: string -> bool, b: Book, n: Net, id: int, c: nat) {
    n.resent[(id, c)] > 0 ==> Keeps(policy, b, id)
  }

  /** The invariant, for one request. */
  ghost predicate IdInv(policy: string -> bool, s: State, id: int) {
    && BookInv(s.book, s.walk.seen, id)
    && WalkInv(policy, s.book, s.phase, s.walk, id)
    && SentInv(s.book, s.net, id)
    && (forall c: nat :: ResentInv(s.net, s.phase, s.walk, id, c) && KeptInv(policy, s.book, s.net, id, c))
  }

  ghost predicate Inv(policy: string -> bool, s: State) {
    ConnInv(s.net, s.phase) && forall id :: IdInv(policy, s, id)
  }

  lemma BookKeeps(policy: string -> bool, s: State, a: Action, id: int)
    requires Enabled(s, a) && BookInv(s.book, s.walk.seen, id) && WalkInv(policy, s.book, s.phase, s.walk, id)
    ensures BookInv(NextBook(policy, s, a), NextWalk(policy, s, a).seen, id)
  {
  }

  lemma WalkKeeps(policy: string -> bool, s: State, a: Action, id: int)
    requires Enabled(s, a) && BookInv(s.book, s.walk.seen, id) && WalkInv(policy, s.book, s.phase, s.walk, id)
    ensures WalkInv(policy, NextBook(policy, s, a), NextPhase(s, a), NextWalk(policy, s, a), id)
  {
    if a.Visit? {
      CountLast(s.walk.replay, a.id, id);
    }
  }

  lemma ResentKeeps(policy: string -> bool, s: State, a: Action, id: int, c: nat)
    requires Enabled(s, a) && ConnInv(s.net, s.phase)
    requires WalkInv(policy, s.book, s.phase, s.walk, id) && ResentInv(s.net, s.phase, s.walk, id, c)
    ensures ResentInv(NextNet(s, a), NextPhase(s, a), NextWalk(policy, s, a), id, c)
  {
  }

  lemma KeptKeeps(policy: string -> bool, s: State, a: Action, id: int, c: nat)
    requires Enabled(s, a) && BookInv(s.book, s.walk.seen, id)
    requires WalkInv(policy, s.book, s.phase, s.walk, id) && KeptInv(policy, s.book, s.net, id, c)
    ensures KeptInv(policy, NextBook(policy, s, a), NextNet(s, a), id, c)
  {
  }

  lemma SentKeeps(policy: string -> bool, s: State, a: Action, id: int)
    requires Enabled(s, a) && ConnInv(s.net, s.phase) && SentInv(s.book, s.net, id)
    ensures SentInv(NextBook(policy, s, a), NextNet(s, a), id)
  {
  }

  lemma StepKeepsInv(policy: string -> bool, s: State, a: Action)
    requires Inv(policy, s) && Enabled(s, a)
    ensures Inv(policy, Next(policy, s, a))
  {
    forall id
      ensures IdInv(policy, Next(policy, s, a), id)
    {
      assert IdInv(policy, s, id);
      BookKeeps(policy, s, a, id);
      WalkKeeps(policy, s, a, id);
      SentKeeps(policy, s, a, id);
      forall c: nat
        ensures ResentInv(NextNet(s, a), NextPhase(s, a), NextWalk(policy, s, a), id, c)
        ensures KeptInv(policy, NextBook(policy, s, a), NextNet(s, a), id, c)
      {
        ResentKeeps(policy, s, a, id, c);
        KeptKeeps(policy, s, a, id, c);
      }
    }
  }

  lemma {:induction false} RunKeepsInv(policy: string -> bool, s: State, acts: seq<Action>, t: State)
    requires Inv(policy, s) && Runs(policy, s, acts, t)
    ensures Inv(policy, t)
    decreases |acts|
  {
    if acts != [] {
      StepKeepsInv(policy, s, acts[0]);
      RunKeepsInv(policy, Next(policy, s, acts[0]), acts[1..], t);
    }
  }

  /** From one state to a later one: a request stays what it is, its send is
      final, and connections only get newer. */
  predicate Later(s: State, t: State, id: int) {
    && s.net.dials <= t.net.dials
    && (id in s.book.calls ==> id in t.book.calls && t.book.calls[id].req == s.book.calls[id].req)
    && (id in s.book.calls && s.book.calls[id].pc.Sent? ==> t.book.calls[id].pc == s.book.calls[id].pc)
  }

  lemma {:induction false} RunGoesOn(policy: string -> bool, s: State, acts: seq<Action>, t: State, id: int)
    requires Inv(policy, s) && Runs(policy, s, acts, t)
    ensures Later(s, t, id)
    decreases |acts|
  {
    if acts != [] {
      assert IdInv(policy, s, id);
      assert Later(s, Next(policy, s, acts[0]), id);
      StepKeepsInv(policy, s, acts[0]);
      RunGoesOn(policy, Next(policy, s, acts[0]), acts[1..], t, id);
    }
  }

  // ---- what holds in every run ----

  /** In every run, with any number of reconnects: a request is put on any one
      connection at most twice, once by its caller and once again; it is
      reported lost at most once; and from its store on it is in the map until
      it is completed or lost. */
  lemma RequestsAreAccountedFor(policy: string -> bool, acts: seq<Action>, t: State, id: int, c: nat)
    requires Runs(policy, Init(), acts, t)
    ensures OnConn(t, id, c) <= 2 && t.net.resent[(id, c)] <= 1
    ensures t.book.lost[id] <= 1
    ensures id in t.book.requests <==>
              id in t.book.calls && !t.book.calls[id].pc.Allocated? && id !in t.book.done && t.book.lost[id] == 0
  {
    RunKeepsInv(policy, Init(), acts, t);
    assert IdInv(policy, t, id) && ResentInv(t.net, t.phase, t.walk, id, c);
  }

  /** What a reconnect has done when it is over, in every run. A request it met,
      at or below its cutoff, is sent again exactly once if it is replayable and
      there is a connection, else reported lost exactly once and out of the map.
      It is on the new connection that often, and once more if its caller sent
      it there. A request above the cutoff is neither resent nor lost. */
  lemma OutcomeOfReconnect(policy: string -> bool, acts: seq<Action>, t: State, id: int)
    requires Runs(policy, Init(), acts, t) && t.phase.Finished? && id in t.book.calls
    ensures
      var kept := t.phase.ok && Keeps(policy, t.book, id);
      var own := if t.book.calls[id].pc == Sent(t.net.conn) then 1 else 0;
      && (Met(t.walk, id) ==>
            && OnConn(t, id, t.net.conn) == own + (if kept then 1 else 0)
            && t.book.lost[id] == (if kept then 0 else 1)
            && (!kept ==> id !in t.book.requests))
      && (!Met(t.walk, id) ==> OnConn(t, id, t.net.conn) == own)
      && (id > t.walk.cutoff ==> t.book.lost[id] == 0)
  {
    RunKeepsInv(policy, Init(), acts, t);
    assert IdInv(policy, t, id) && ResentInv(t.net, t.phase, t.walk, id, t.net.conn);
  }

  /** A request that was in the map when the walk began, and that no response has
      completed since, has been met. */
  lemma DueIsMet(policy: string -> bool, t: State, id: int)
    requires IdInv(policy, t, id) && t.phase.Finished?
    requires id in t.walk.due && id <= t.walk.cutoff && id !in t.book.done
    ensures Met(t.walk, id)
  {
  }

  // ---- one request through one reconnect ----

  /** From the moment before the reset on: the request that was in the map then
      is completed, or it is still there until the walk begins, and due in it;
      and the connection is none, or newer than `prev`. */
  predicate Carried(u: State, id: int, prev: nat) {
    && !u.phase.Idle? && prev <= u.net.dials
    && (u.phase.Began? || u.net.conn == 0 || u.net.conn > prev)
    && (id in u.book.done || if Walking(u.phase) then id in u.walk.due else id in u.book.requests)
    && (u.phase.Cut? || Walking(u.phase) ==> id <= u.walk.cutoff)
  }

  lemma CarriedKeeps(policy: string -> bool, u: State, a: Action, id: int, prev: nat)
    requires Enabled(u, a) && !a.Release? && Carried(u, id, prev) && BookInv(u.book, u.walk.seen, id)
    ensures Carried(Next(policy, u, a), id, prev)
    ensures id in Next(policy, u, a).book.done ==> id in u.book.done || a == Complete(id)
  {
  }

  lemma {:induction false} CarriedThrough(policy: string -> bool, s: State, acts: seq<Action>, t: State,
                                          id: int, prev: nat)
    requires Inv(policy, s) && Runs(policy, s, acts, t) && Release !in acts && Carried(s, id, prev)
    ensures Carried(t, id, prev)
    ensures id in t.book.done ==> id in s.book.done || Complete(id) in acts
    decreases |acts|
  {
    if acts != [] {
      assert IdInv(policy, s, id);
      CarriedKeeps(policy, s, acts[0], id, prev);
      StepKeepsInv(policy, s, acts[0]);
      CarriedThrough(policy, Next(policy, s, acts[0]), acts[1..], t, id, prev);
    }
  }

  /** Reconnect conserves the requests its caller was through with: one that is
      in the map and has been sent before the reset, and that no response
      completes in the meantime, is in the end either kept, on the new connection
      once and not lost, or gone, lost once and not on it; the former exactly
      if it is replayable and the connect succeeded. Whatever others do. */
  lemma SentRequestIsConserved(policy: string -> bool, before: seq<Action>, s: State,
                               acts: seq<Action>, t: State, id: int)
    requires Runs(policy, Init(), before, s) && s.phase.Began?
    requires id in s.book.requests && id in s.book.calls && s.book.calls[id].pc.Sent?
    requires Runs(policy, s, acts, t) && t.phase.Finished? && Release !in acts && Complete(id) !in acts
    ensures
      var kept := t.phase.ok && Keeps(policy, s.book, id);
      && OnConn(t, id, t.net.conn) == (if kept then 1 else 0)
      && t.book.lost[id] == (if kept then 0 else 1)
      && (id in t.book.requests <==> kept)
  {
    RunKeepsInv(policy, Init(), before, s);
    RunKeepsInv(policy, s, acts, t);
    assert IdInv(policy, s, id) && IdInv(policy, t, id) && ResentInv(t.net, t.phase, t.walk, id, t.net.conn);
    CarriedThrough(policy, s, acts, t, id, s.net.dials);
    RunGoesOn(policy, s, acts, t, id);
    DueIsMet(policy, t, id);
  }

  // ---- and the others ----

  lemma {:induction false} RunThen(policy: string -> bool, s: State, acts: seq<Action>, t: State,
                                   more: seq<Action>, u: State)
    requires Runs(policy, s, acts, t) && Runs(policy, t, more, u)
    ensures Runs(policy, s, acts + more, u)
    decreases |acts|
  {
    if acts == [] {
      assert acts + more == more;
    } else {
      assert (acts + more)[1..] == acts[1..] + more;
      RunThen(policy, Next(policy, s, acts[0]), acts[1..], t, more, u);
    }
  }

  lemma RunFirst(policy: string -> bool, s: State, a: Action, more: seq<Action>, u: State)
    requires Enabled(s, a) && Runs(policy, Next(policy, s, a), more, u)
    ensures Runs(policy, s, [a] + more, u)
  {
    assert ([a] + more)[1..] == more;
  }

  /** Nothing happened between the two but steps of a reconnect. */
  predicate SameCalls(s: State, t: State) {
    t.book.calls == s.book.calls && t.book.done == s.book.done && t.book.last == s.book.last
  }

  lemma NotAllVisited(x: set<int>, visited: set<int>)
    ensures x <= visited || exists id :: id in x && id !in visited
  {
    if forall id :: id in x ==> id in visited {
      assert x <= visited;
    }
  }

  /** A walk can be brought to its end. */
  lemma {:induction false} WalkEnds(policy: string -> bool, s: State) returns (acts: seq<Action>, t: State)
    requires Inv(policy, s) && s.phase.Ranging?
    ensures Runs(policy, s, acts, t) && Release !in acts && t.phase.Dialing? && SameCalls(s, t) && t.net == s.net
    ensures t.walk.due == s.walk.due && t.walk.cutoff == s.walk.cutoff
    decreases |s.walk.due * s.book.requests - s.walk.visited|
  {
    var left := s.walk.due * s.book.requests - s.walk.visited;
    NotAllVisited(s.walk.due * s.book.requests, s.walk.visited);
    if s.walk.due * s.book.requests <= s.walk.visited {
      acts, t := [EndRange], Next(policy, s, EndRange);
      RunFirst(policy, s, EndRange, [], t);
    } else {
      var id :| id in s.walk.due * s.book.requests && id !in s.walk.visited;
      assert IdInv(policy, s, id);
      var u := Next(policy, s, Visit(id));
      StepKeepsInv(policy, s, Visit(id));
      assert u.walk.due * u.book.requests - u.walk.visited <= left - {id};
      Smaller(u.walk.due * u.book.requests - u.walk.visited, left, id);
      var rest;
      rest, t := WalkEnds(policy, u);
      RunFirst(policy, s, Visit(id), rest, t);
      acts := [Visit(id)] + rest;
    }
  }

  lemma Smaller(a: set<int>, b: set<int>, x: int)
    requires a <= b - {x} && x in b
    ensures |a| < |b|
  {
    assert |b - {x} - a| + |a| == |b - {x}|;
  }

  /** The list of collected requests can be worked off. */
  lemma {:induction false} ListEnds(policy: string -> bool, s: State) returns (acts: seq<Action>, t: State)
    requires s.phase.Failing? || (s.phase.Resending? && s.net.conn != 0)
    ensures Runs(policy, s, acts, t) && Release !in acts && t.phase == Finished(s.phase.Resending?) && SameCalls(s, t)
    ensures t.walk == s.walk && t.net.conn == s.net.conn && t.net.dials == s.net.dials
    decreases |s.phase.left|
  {
    var a := if s.phase.left == [] then Finish else if s.phase.Failing? then FailNext else Resend;
    var u := Next(policy, s, a);
    var rest := [];
    t := u;
    if s.phase.left != [] {
      rest, t := ListEnds(policy, u);
    }
    RunFirst(policy, s, a, rest, t);
    acts := [a] + rest;
  }

  /** From a walk to the end of the reconnect, with the outcome of our choice. */
  lemma WalkToEnd(policy: string -> bool, s: State, ok: bool) returns (acts: seq<Action>, t: State)
    requires Inv(policy, s) && s.phase.Ranging? && s.net.conn == 0
    ensures Runs(policy, s, acts, t) && Release !in acts && t.phase == Finished(ok) && SameCalls(s, t)
    ensures t.walk.due == s.walk.due && t.walk.cutoff == s.walk.cutoff
    ensures ok ==> t.net.conn == s.net.dials + 1
  {
    var first, s1 := WalkEnds(policy, s);
    var s2 := Next(policy, s1, Look);
    var s3 := Next(policy, s2, Connect(ok));
    var last, u := ListEnds(policy, s3);
    RunFirst(policy, s2, Connect(ok), last, u);
    RunFirst(policy, s1, Look, [Connect(ok)] + last, u);
    RunThen(policy, s, first, s1, [Look] + ([Connect(ok)] + last), u);
    acts, t := first + ([Look] + ([Connect(ok)] + last)), u;
  }

  /** The whole reconnect, undisturbed. */
  lemma ReconnectEnds(policy: string -> bool, s: State, ok: bool) returns (acts: seq<Action>, t: State)
    requires Inv(policy, s) && s.phase.Began?
    ensures Runs(policy, s, acts, t) && Release !in acts && t.phase == Finished(ok) && SameCalls(s, t)
    ensures t.walk.due == s.book.requests && t.walk.cutoff == s.book.last
    ensures ok ==> t.net.conn == s.net.dials + 1
  {
    var s1 := Next(policy, s, Reset);
    var s2 := Next(policy, s1, Cutoff);
    var s3 := Next(policy, s2, StartRange);
    StepKeepsInv(policy, s, Reset);
    StepKeepsInv(policy, s1, Cutoff);
    StepKeepsInv(policy, s2, StartRange);
    var rest, u := WalkToEnd(policy, s3, ok);
    RunFirst(policy, s2, StartRange, rest, u);
    RunFirst(policy, s1, Cutoff, [StartRange] + rest, u);
    RunFirst(policy, s, Reset, [Cutoff] + ([StartRange] + rest), u);
    acts, t := [Reset] + ([Cutoff] + ([StartRange] + rest)), u;
  }

  /** An open request that its caller has not sent yet can be met by the
      reconnect, and sent by its caller when that is over. */
  lemma UnsentIsSentLate(policy: string -> bool, s: State, id: int) returns (acts: seq<Action>, t: State)
    requires Inv(policy, s) && s.phase.Began? && Open(s.book, id) && !s.book.calls[id].pc.Sent?
    ensures Runs(policy, s, acts, t) && t.phase == Finished(true) && Met(t.walk, id)
    ensures id in t.book.calls && t.book.calls[id] == Call(s.book.calls[id].req, Sent(t.net.conn))
    ensures t.net.conn > s.net.dials
  {
    assert IdInv(policy, s, id);
    var first, s1 := [], s;
    if s.book.calls[id].pc.Allocated? {
      first, s1 := [Store(id)], Next(policy, s, Store(id));
      StepKeepsInv(policy, s, Store(id));
      RunFirst(policy, s, Store(id), [], s1);
    }
    assert IdInv(policy, s1, id);
    var rest, s2 := ReconnectEnds(policy, s1, true);
    RunKeepsInv(policy, s1, rest, s2);
    assert IdInv(policy, s2, id);
    DueIsMet(policy, s2, id);
    t := Next(policy, s2, Send(id));
    RunFirst(policy, s2, Send(id), [], t);
    RunThen(policy, s1, rest, s2, [Send(id)] + [], t);
    RunThen(policy, s, first, s1, rest + ([Send(id)] + []), t);
    acts := first + (rest + ([Send(id)] + []));
  }

  ghost predicate CanBeSentTwice(policy: string -> bool, s: State, id: int) {
    exists acts, t, c: nat :: Runs(policy, s, acts, t) && c > s.net.dials && OnConn(t, id, c) == 2
  }

  ghost predicate CanBeLostAndSent(policy: string -> bool, s: State, id: int) {
    exists acts, t, c: nat ::
      Runs(policy, s, acts, t) && c > s.net.dials && OnConn(t, id, c) > 0 && t.book.lost[id] == 1
  }

  ghost predicate CanSurviveFailure(policy: string -> bool, s: State, id: int) {
    exists acts, t ::
      Runs(policy, s, acts, t) && Release !in acts && t.phase == Finished(false) && id in t.book.requests
  }

  /** A replayable request can be put twice on a connection made after the reset if
      and only if its caller has not sent it when the reset comes. */
  lemma SentTwiceExactlyWhenUnsent(policy: string -> bool, before: seq<Action>, s: State, id: int)
    requires Runs(policy, Init(), before, s) && s.phase.Began? && Open(s.book, id) && Keeps(policy, s.book, id)
    ensures CanBeSentTwice(policy, s, id) <==> !s.book.calls[id].pc.Sent?
  {
    RunKeepsInv(policy, Init(), before, s);
    assert IdInv(policy, s, id);
    if s.book.calls[id].pc.Sent? {
      forall acts, t, c: nat | Runs(policy, s, acts, t) && c > s.net.dials
        ensures OnConn(t, id, c) <= 1
      {
        RunKeepsInv(policy, s, acts, t);
        RunGoesOn(policy, s, acts, t, id);
        assert IdInv(policy, t, id) && ResentInv(t.net, t.phase, t.walk, id, c);
      }
    } else {
      var acts, t := UnsentIsSentLate(policy, s, id);
      RunKeepsInv(policy, s, acts, t);
      assert IdInv(policy, t, id) && ResentInv(t.net, t.phase, t.walk, id, t.net.conn);
      assert OnConn(t, id, t.net.conn) == 2;
    }
  }

  /** A request that may not be replayed can be reported lost and yet be put on a
      connection made after the reset if and only if its caller has not sent
      it when the reset comes. */
  lemma LostAndSentExactlyWhenUnsent(policy: string -> bool, before: seq<Action>, s: State, id: int)
    requires Runs(policy, Init(), before, s) && s.phase.Began? && Open(s.book, id) && !Keeps(policy, s.book, id)
    ensures CanBeLostAndSent(policy, s, id) <==> !s.book.calls[id].pc.Sent?
  {
    RunKeepsInv(policy, Init(), before, s);
    assert IdInv(policy, s, id);
    if s.book.calls[id].pc.Sent? {
      forall acts, t, c: nat | Runs(policy, s, acts, t) && c > s.net.dials
        ensures OnConn(t, id, c) == 0
      {
        RunKeepsInv(policy, s, acts, t);
        RunGoesOn(policy, s, acts, t, id);
        assert IdInv(policy, t, id) && KeptInv(policy, t.book, t.net, id, c);
      }
    } else {
      var acts, t := UnsentIsSentLate(policy, s, id);
      RunKeepsInv(policy, s, acts, t);
      assert IdInv(policy, t, id);
      assert OnConn(t, id, t.net.conn) > 0;
    }
  }

  /** An open request can be left in the map by a reconnect that fails if and only
      if its caller has not stored it when the reset comes, although its id is
      at or below the cutoff. */
  lemma SurvivesFailureExactlyWhenUnstored(policy: string -> bool, before: seq<Action>, s: State, id: int)
    requires Runs(policy, Init(), before, s) && s.phase.Began? && Open(s.book, id)
    ensures CanSurviveFailure(policy, s, id) <==> s.book.calls[id].pc.Allocated?
  {
    RunKeepsInv(policy, Init(), before, s);
    assert IdInv(policy, s, id);
    if !s.book.calls[id].pc.Allocated? {
      forall acts, t | Runs(policy, s, acts, t) && Release !in acts && t.phase == Finished(false)
        ensures id !in t.book.requests
      {
        RunKeepsInv(policy, s, acts, t);
        CarriedThrough(policy, s, acts, t, id, s.net.dials);
        assert IdInv(policy, t, id);
      }
    } else {
      var acts, s1 := ReconnectEnds(policy, s, false);
      var t := Next(policy, s1, Store(id));
      RunFirst(policy, s1, Store(id), [], t);
      RunThen(policy, s, acts, s1, [Store(id)] + [], t);
      assert id in t.book.requests;
    }
  }

  /** In every run a request that is about to be sent again is out of the map if
      and only if a response has completed it. */
  lemma GoneExactlyWhenCompleted(policy: string -> bool, before: seq<Action>, s: State)
    requires Runs(policy, Init(), before, s) && s.phase.Resending? && s.phase.left != []
    ensures s.phase.left[0] !in s.book.requests <==> s.phase.left[0] in s.book.done
  {
    RunKeepsInv(policy, Init(), before, s);
    assert IdInv(policy, s, s.phase.left[0]);
  }

  /** Every replay can be for nothing: from every state about to send a request
      again some run completes it, with that resend still to come, and the
      resend then puts the completed request on the new connection. */
  lemma CompletedIsResent(policy: string -> bool, before: seq<Action>, s: State) returns (acts: seq<Action>, u: State)
    requires Runs(policy, Init(), before, s) && s.phase.Resending? && s.phase.left != []
    ensures Runs(policy, s, acts, u) && u.phase == s.phase && u.net == s.net && Enabled(u, Resend)
    ensures
      var id := s.phase.left[0];
      var t := Next(policy, u, Resend);
      && id in u.book.done && id !in u.book.requests
      && u.net.resent[(id, u.net.conn)] == 0 && t.net.resent[(id, u.net.conn)] == 1
  {
    var id := s.phase.left[0];
    RunKeepsInv(policy, Init(), before, s);
    assert IdInv(policy, s, id) && ResentInv(s.net, s.phase, s.walk, id, s.net.conn);
    acts, u := [], s;
    if id in u.book.requests && s.book.calls[id].pc.Stored? {
      u := Next(policy, s, Send(id));
      RunFirst(policy, s, Send(id), [], u);
      acts := [Send(id)] + [];
    }
    if id in u.book.requests {
      var v := Next(policy, u, Complete(id));
      RunFirst(policy, u, Complete(id), [], v);
      RunThen(policy, s, acts, u, [Complete(id)] + [], v);
      acts, u := acts + ([Complete(id)] + []), v;
    }
  }

  /** From the start: a request is stored and not sent when a reconnect begins. */
  lemma StoredUnsent(policy: string -> bool, r: Request) returns (before: seq<Action>, s: State)
    ensures Runs(policy, Init(), before, s) && s.phase.Began?
    ensures s.book.requests == {1} && s.book.calls == map[1 := Call(r, Stored)]
  {
    var s1 := Next(policy, Init(), Dial);
    var s2 := Next(policy, s1, Allocate(r));
    var s3 := Next(policy, s2, Store(1));
    s := Next(policy, s3, Begin);
    RunFirst(policy, s3, Begin, [], s);
    RunFirst(policy, s2, Store(1), [Begin] + [], s);
    RunFirst(policy, s1, Allocate(r), [Store(1)] + ([Begin] + []), s);
    before := [Dial] + ([Allocate(r)] + ([Store(1)] + ([Begin] + [])));
    RunFirst(policy, Init(), Dial, [Allocate(r)] + ([Store(1)] + ([Begin] + [])), s);
  }

  /** ... and ends up twice on the new connection if it is replayable. */
  lemma DoubleSend(policy: string -> bool, r: Request)
      returns (before: seq<Action>, s: State, acts: seq<Action>, t: State)
    requires Replayable(r, policy)
    ensures Runs(policy, Init(), before, s) && s.phase.Began?
    ensures s.book.requests == {1} && s.book.calls == map[1 := Call(r, Stored)]
    ensures Runs(policy, s, acts, t) && t.phase == Finished(true) && OnConn(t, 1, t.net.conn) == 2
  {
    before, s := StoredUnsent(policy, r);
    RunKeepsInv(policy, Init(), before, s);
    acts, t := UnsentIsSentLate(policy, s, 1);
    RunKeepsInv(policy, s, acts, t);
    assert IdInv(policy, t, 1) && ResentInv(t.net, t.phase, t.walk, 1, t.net.conn);
  }

  /** Steps a reconnect has left before it works off its list. */
  function Rank(p: Phase): nat {
    match p
    case Began => 6
    case Down => 5
    case Cut => 4
    case Ranging => 3
    case Dialing => 2
    case Trying => 1
    case _ => 0
  }

  /** From every state the invariant allows a reconnect that is under way can be
      brought to its end. */
  lemma {:induction false} EveryReconnectCanEnd(policy: string -> bool, s: State) returns (acts: seq<Action>, t: State)
    requires Inv(policy, s) && !s.phase.Idle?
    ensures Runs(policy, s, acts, t) && Release !in acts && t.phase.Finished? && SameCalls(s, t)
    decreases Rank(s.phase)
  {
    if s.phase.Finished? {
      acts, t := [], s;
    } else if s.phase.Resending? || s.phase.Failing? {
      acts, t := ListEnds(policy, s);
    } else if s.phase.Ranging? {
      var first, u := WalkEnds(policy, s);
      RunKeepsInv(policy, s, first, u);
      var rest;
      rest, t := EveryReconnectCanEnd(policy, u);
      RunThen(policy, s, first, u, rest, t);
      acts := first + rest;
    } else {
      var a := NextStep(s.phase);
      StepKeepsInv(policy, s, a);
      var rest;
      rest, t := EveryReconnectCanEnd(policy, Next(policy, s, a));
      RunFirst(policy, s, a, rest, t);
      acts := [a] + rest;
    }
  }

  function NextStep(p: Phase): Action {
    match p
    case Began => Reset
    case Down => Cutoff
    case Cut => StartRange
    case Dialing => Look
    case Trying => Connect(true)
    case _ => Skip
  }
}
