/** Resuming a session over an unreliable network: one client with its hash
    chain, one server, and a network that may lose, delay, reorder and repeat
    handshakes. The server may lose its table of sessions at any time. */
module SessionResumption {
  import opened HashChains

  // ---- the client's choice of token ----

  datatype Offer = Present(token: Token) | Exhausted

  /** The client's part of a handshake (valueclient/client.go, handshakeToken). */
  class ResumingClient {
    const h: Hash
    var chain: HashChain?
    var established: bool

    ghost predicate Valid()
      reads this, chain, if chain == null then {} else {chain.links}
    {
      chain != null ==> chain.Valid() && chain.h == h
    }

    constructor (h: Hash)
      ensures Valid() && this.h == h && chain == null && !established
    {
      this.h := h;
      chain := null;
      established := false;
    }

    /** The anchor until the server has acknowledged the session, at no cost;
        then the next pre-image on every attempt, never one twice. */
    method HandshakeToken(seed: Link) returns (o: Offer)
      requires Valid()
      modifies this, chain
      ensures Valid() && chain != null && established == old(established)
      ensures old(chain) != null ==> chain == old(chain)
      ensures old(chain) == null ==>
                fresh(chain) && chain.links[0] == seed && chain.links.Length == DEFAULT_CHAIN_LEN + 1
      ensures
        var next := if old(chain) == null then DEFAULT_CHAIN_LEN - 1 else old(chain.next);
        && chain.next == (if established && next >= 0 then next - 1 else next)
        && o == (if !established then Present(Encoded(Iter(h, chain.links[0], chain.links.Length - 1)))
                 else if next < 0 then Exhausted
                 else Present(Encoded(Iter(h, chain.links[0], next))))
    {
      if chain == null {
        chain := new HashChain(h, seed, DEFAULT_CHAIN_LEN);
      }
      if !established {
        var anchor := chain.Anchor();
        return Present(anchor);
      }
      var tok := chain.Next();
      if tok == Malformed {
        return Exhausted;
      }
      return Present(tok);
    }
  }

  // ---- the system ----

  datatype Config = Config(h: Hash, seed: Link, n: nat, principal: string)

  /** The server's record under this client's id. `index` is a history variable:
      which link of the chain the stored token is, in a record of this client. */
  datatype Record = Unknown | Known(token: Token, principal: string, index: int)

  datatype State = State(
    next: int,              // index of the next pre-image to reveal
    established: bool,
    wire: set<int>,         // indices of links ever presented; any may arrive, at any time, repeatedly
    revealed: seq<int>,     // history: pre-images revealed, in order
    server: Record,
    acks: nat               // accepting replies that the client has not received
  )

  datatype Action =
    | Dial                  // the client presents a token
    | Arrive(i: int)        // the server handles a handshake with link i
    | Probe(token: Token, principal: string)  // a handshake for this client id under another principal
    | Ack                   // an accepting reply reaches the client
    | Forget                // the server loses its sessions

  /** Link `i` of the client's chain. */
  function LinkAt(c: Config, i: nat): Link {
    Iter(c.h, c.seed, i)
  }

  function Init(c: Config): State {
    State(c.n - 1, false, {}, [], Unknown, 0)
  }

  predicate Enabled(c: Config, s: State, a: Action) {
    match a
    case Dial => !s.established || s.next >= 0
    case Arrive(i) => i in s.wire && 0 <= i
    case Probe(_, p) => p != c.principal
    case Ack => s.acks > 0
    case Forget => true
  }

  /** The record is of this client, not of another principal under its id. */
  predicate Mine(c: Config, r: Record) {
    r.Known? && r.principal == c.principal
  }

  ghost predicate Accepts(c: Config, r: Record, i: nat) {
    r.Known? ==> Mine(c, r) && Authorized(c.h, r.token, Encoded(LinkAt(c, i)))
  }

  ghost function RecordAfter(c: Config, r: Record, i: nat): Record {
    if r.Unknown? || (Mine(c, r) && Advances(c.h, r.token, Encoded(LinkAt(c, i))))
    then Known(Encoded(LinkAt(c, i)), c.principal, i)
    else r
  }

  /** ... after a handshake under another principal. */
  ghost function RecordAfterProbe(c: Config, r: Record, token: Token, principal: string): Record {
    if r.Unknown? then Known(token, principal, -1)
    else if r.principal == principal then r.(token := AfterResume(c.h, r.token, token))
    else r
  }

  ghost function Next(c: Config, s: State, a: Action): State
    requires Enabled(c, s, a)
  {
    match a
    case Dial =>
      if !s.established then s.(wire := s.wire + {c.n})
      else s.(wire := s.wire + {s.next}, revealed := s.revealed + [s.next], next := s.next - 1)
    case Arrive(i) =>
      s.(server := RecordAfter(c, s.server, i), acks := if Accepts(c, s.server, i) then s.acks + 1 else s.acks)
    case Probe(token, p) => s.(server := RecordAfterProbe(c, s.server, token, p))
    case Ack => s.(acks := s.acks - 1, established := true)
    case Forget => s.(server := Unknown)
  }

  ghost predicate Runs(c: Config, s: State, acts: seq<Action>, t: State)
    decreases |acts|
  {
    if acts == [] then s == t
    else Enabled(c, s, acts[0]) && Runs(c, Next(c, s, acts[0]), acts[1..], t)
  }

  /** The server's steps here are those of its session table: a handshake for
      this client and principal changes the table the way Arrive changes the
      record, and one under another principal the way Probe does. */
  lemma ServerStepIsTableStep(c: Config, r: Record, sessions: map<int, Session>, id: int, i: nat,
                              other: string, tok: Token, conn: int)
    requires other != c.principal && Records(r, sessions, id)
    ensures Admitted(c.h, sessions, id, Encoded(LinkAt(c, i)), c.principal) <==> Accepts(c, r, i)
    ensures Records(RecordAfter(c, r, i), AfterConnect(c.h, sessions, id, Encoded(LinkAt(c, i)), c.principal, conn), id)
    ensures Records(RecordAfterProbe(c, r, tok, other), AfterConnect(c.h, sessions, id, tok, other, conn), id)
  {
  }

  /** The record says what the table has under `id`. */
  predicate Records(r: Record, sessions: map<int, Session>, id: int) {
    && (r.Known? <==> id in sessions)
    && (r.Known? ==> r.token == sessions[id].token && r.principal == sessions[id].principal)
  }

  // ---- invariant ----

  ghost predicate Inv(c: Config, s: State) {
    && -1 <= s.next < c.n
    && |s.revealed| + (s.next + 1) == c.n
    && (forall k :: 0 <= k < |s.revealed| ==> s.revealed[k] == c.n - 1 - k)
    && (forall i :: i in s.wire ==> i == c.n || s.next < i < c.n)
    && (Mine(c, s.server) ==> s.server.index in s.wire && s.server.token == Encoded(LinkAt(c, s.server.index)))
  }

  lemma StepKeepsInv(c: Config, s: State, a: Action)
    requires c.n >= 1 && Inv(c, s) && Enabled(c, s, a)
    ensures Inv(c, Next(c, s, a))
  {
  }

  lemma {:induction false} RunKeepsInv(c: Config, s: State, acts: seq<Action>, t: State)
    requires c.n >= 1 && Inv(c, s) && Runs(c, s, acts, t)
    ensures Inv(c, t)
    decreases |acts|
  {
    if acts != [] {
      StepKeepsInv(c, s, acts[0]);
      RunKeepsInv(c, Next(c, s, acts[0]), acts[1..], t);
    }
  }

  // ---- theorems ----

  /** The iterates of the hash from the seed do not repeat within reach. */
  ghost predicate Distinct(c: Config) {
    forall i: nat, j: nat :: i < j <= c.n + RESYNC_WINDOW ==> LinkAt(c, i) != LinkAt(c, j)
  }

  lemma LaterLinkAdvances(c: Config, stored: nat, i: nat)
    requires 1 <= stored - i <= RESYNC_WINDOW
    ensures Advances(c.h, Encoded(LinkAt(c, stored)), Encoded(LinkAt(c, i)))
  {
    IterAdd(c.h, c.seed, i, stored - i);
  }

  lemma AdvanceIsWithinWindow(c: Config, stored: nat, i: nat)
    requires Distinct(c) && stored <= c.n && i <= c.n
    requires Advances(c.h, Encoded(LinkAt(c, stored)), Encoded(LinkAt(c, i)))
    ensures 1 <= stored - i <= RESYNC_WINDOW
  {
    var k: nat :| 1 <= k <= RESYNC_WINDOW && Iter(c.h, LinkAt(c, i), k) == LinkAt(c, stored);
    IterAdd(c.h, c.seed, i, k);
    assert LinkAt(c, i + k) == LinkAt(c, stored);
    assert i + k == stored;
  }

  /** In every run a genuine link is accepted if and only if the server does not
      know the client id, or knows it as this client's and the links consumed
      since the last accepted one number 0 or at most the window, this one
      included. One that advances the chain is stored; the server that has lost
      its sessions takes up the chain at the first link it sees. */
  lemma AcceptedExactlyWithinWindow(c: Config, acts: seq<Action>, s: State, i: nat)
    requires c.n >= 1 && Distinct(c) && i <= c.n && Runs(c, Init(c), acts, s)
    ensures Accepts(c, s.server, i) <==>
              s.server.Unknown? || (Mine(c, s.server) && 0 <= s.server.index - i <= RESYNC_WINDOW)
    ensures RecordAfter(c, s.server, i)
            == if s.server.Unknown? || (Mine(c, s.server) && 1 <= s.server.index - i <= RESYNC_WINDOW)
               then Known(Encoded(LinkAt(c, i)), c.principal, i)
               else s.server
  {
    RunKeepsInv(c, Init(c), acts, s);
    if Mine(c, s.server) {
      var j: nat := s.server.index;
      if 1 <= j - i <= RESYNC_WINDOW {
        LaterLinkAdvances(c, j, i);
      } else if Advances(c.h, s.server.token, Encoded(LinkAt(c, i))) {
        AdvanceIsWithinWindow(c, j, i);
      }
      assert i != j ==> LinkAt(c, i) != LinkAt(c, j);
    }
  }

  /** A client id that is another principal's rejects every link of this client
      for as long as the server keeps its sessions. */
  lemma {:induction false} TakenIdStaysTaken(c: Config, s: State, acts: seq<Action>, t: State, i: nat)
    requires s.server.Known? && !Mine(c, s.server) && Runs(c, s, acts, t) && Forget !in acts
    ensures t.server.Known? && t.server.principal == s.server.principal && !Accepts(c, t.server, i)
    decreases |acts|
  {
    if acts != [] {
      TakenIdStaysTaken(c, Next(c, s, acts[0]), acts[1..], t, i);
    }
  }

  /** ... which is how every state may go on in which the server loses its sessions. */
  lemma IdCanBeTaken(c: Config, s: State, tok: Token, other: string) returns (acts: seq<Action>, t: State)
    requires other != c.principal
    ensures Runs(c, s, acts, t) && t.server == Known(tok, other, -1)
  {
    var s1 := Next(c, s, Forget);
    t := Next(c, s1, Probe(tok, other));
    acts := [Forget, Probe(tok, other)];
    assert acts[1..] == [Probe(tok, other)] && acts[1..][1..] == [];
    assert Runs(c, s1, acts[1..], t);
  }

  /** The links revealed after the one the server has stored: their handshakes
      have not been accepted so far. */
  function LostLinks(c: Config, s: State): seq<int> {
    if Mine(c, s.server) && 0 <= c.n - s.server.index <= |s.revealed| then s.revealed[c.n - s.server.index..] else []
  }

  /** Self-healing: the next link an established client reveals is accepted
      exactly when fewer links than the window have been lost. Acceptance needs
      no assumption about the hash. */
  lemma NextLinkHeals(c: Config, acts: seq<Action>, s: State)
    requires c.n >= 1 && Runs(c, Init(c), acts, s)
    requires s.established && s.next >= 0 && Mine(c, s.server)
    ensures forall i :: i in LostLinks(c, s) <==> i in s.revealed && i < s.server.index
    ensures |LostLinks(c, s)| < RESYNC_WINDOW ==> Accepts(c, s.server, s.next)
    ensures Distinct(c) ==> (Accepts(c, s.server, s.next) <==> |LostLinks(c, s)| < RESYNC_WINDOW)
  {
    RunKeepsInv(c, Init(c), acts, s);
    LostIsNewer(c, s);
    if s.server.index - s.next <= RESYNC_WINDOW {
      LaterLinkAdvances(c, s.server.index, s.next);
    }
    if Distinct(c) {
      AcceptedExactlyWithinWindow(c, acts, s, s.next);
    }
  }

  lemma LostIsNewer(c: Config, s: State)
    requires Inv(c, s) && Mine(c, s.server)
    ensures |LostLinks(c, s)| == s.server.index - 1 - s.next
    ensures forall i :: i in LostLinks(c, s) <==> i in s.revealed && i < s.server.index
  {
    var from := c.n - s.server.index;
    forall i | i in s.revealed && i < s.server.index
      ensures i in LostLinks(c, s)
    {
      assert s.revealed[c.n - 1 - i] == s.revealed[from..][c.n - 1 - i - from];
    }
  }

  /** `k` handshakes of an established client that never arrive. */
  lemma {:induction false} DialsAreLost(c: Config, s: State, k: nat) returns (acts: seq<Action>, t: State)
    requires s.established && k <= s.next + 1
    ensures Runs(c, s, acts, t) && t.next == s.next - k && t.established && t.server == s.server
    decreases k
  {
    if k == 0 {
      return [], s;
    }
    var rest;
    rest, t := DialsAreLost(c, Next(c, s, Dial), k - 1);
    acts := [Dial] + rest;
    assert acts[1..] == rest;
  }

  /** A window of lost handshakes is one too many: for every chain that is long
      enough some run loses exactly that many after the session is established,
      and then the next link is rejected. */
  lemma WindowOfLossesIsTooMany(c: Config) returns (acts: seq<Action>, s: State)
    requires c.n > RESYNC_WINDOW && Distinct(c)
    ensures Runs(c, Init(c), acts, s) && s.established && Mine(c, s.server) && s.next >= 0
    ensures |LostLinks(c, s)| == RESYNC_WINDOW && !Accepts(c, s.server, s.next)
  {
    var s1 := Next(c, Init(c), Dial);
    var s2 := Next(c, s1, Arrive(c.n));
    var s3 := Next(c, s2, Ack);
    var rest, u := DialsAreLost(c, s3, RESYNC_WINDOW);
    s := u;
    acts := [Dial, Arrive(c.n), Ack] + rest;
    assert acts[1..] == [Arrive(c.n), Ack] + rest && acts[1..][1..] == [Ack] + rest && acts[1..][1..][1..] == rest;
    assert Runs(c, s2, acts[1..][1..], s);
    assert Runs(c, s1, acts[1..], s);
    RunKeepsInv(c, Init(c), acts, s);
    LostIsNewer(c, s);
    NextLinkHeals(c, acts, s);
  }

  /** One-time links: pre-images are revealed at strictly decreasing indices,
      revealed and remaining ones add up to the chain, and nothing but those and
      the anchor is ever presented, so presenting the anchor consumes none. */
  lemma LinksAreOneTime(c: Config, acts: seq<Action>, s: State)
    requires c.n >= 1 && Runs(c, Init(c), acts, s)
    ensures |s.revealed| + (s.next + 1) == c.n
    ensures forall k, l :: 0 <= k < l < |s.revealed| ==> s.revealed[l] < s.revealed[k]
    ensures forall i :: i in s.wire ==> i == c.n || i in s.revealed
    ensures c.n !in s.revealed
  {
    RunKeepsInv(c, Init(c), acts, s);
    forall i | i in s.wire && i != c.n
      ensures i in s.revealed
    {
      assert s.revealed[c.n - 1 - i] == i;
    }
  }

  /** As long as the server keeps its sessions, the index of its stored link
      never increases. */
  lemma {:induction false} StoredIndexNeverIncreases(c: Config, s: State, acts: seq<Action>, t: State)
    requires c.n >= 1 && Distinct(c) && Inv(c, s) && Mine(c, s.server) && Runs(c, s, acts, t)
    requires Forget !in acts
    ensures Mine(c, t.server) && t.server.index <= s.server.index
    decreases |acts|
  {
    if acts != [] {
      StepKeepsInv(c, s, acts[0]);
      var s' := Next(c, s, acts[0]);
      if acts[0].Arrive? && s'.server != s.server {
        AdvanceIsWithinWindow(c, s.server.index, acts[0].i);
      }
      StoredIndexNeverIncreases(c, s', acts[1..], t);
    }
  }

  /** Replay: a link older than the stored one is rejected and changes nothing. */
  lemma OlderLinkIsRejected(c: Config, acts: seq<Action>, s: State, i: nat)
    requires c.n >= 1 && Distinct(c) && Runs(c, Init(c), acts, s)
    requires Mine(c, s.server) && s.server.index < i <= c.n
    ensures !Accepts(c, s.server, i) && RecordAfter(c, s.server, i) == s.server
  {
    AcceptedExactlyWithinWindow(c, acts, s, i);
  }
}
