/** The reverse hash chain of session resumption (valuerpc/hashchain.go) and the
    server that verifies its links. The hash is any function on 256-bit digests;
    hex strings are represented by what decoding makes of them. */
module HashChains {

  /** A SHA-256 digest, read as a number. */
  type Link = x: int | 0 <= x < 0x1_0000000000000000_0000000000000000_0000000000000000_0000000000000000
  type Hash = Link -> Link

  /** A token on the wire: malformed (in particular empty), or an encoded link. */
  datatype Token = Malformed | Encoded(link: Link)

  const DEFAULT_CHAIN_LEN: nat := 10000
  const RESYNC_WINDOW: nat := 1024

  /** `x` hashed `k` times. */
  function Iter(h: Hash, x: Link, k: nat): Link {
    if k == 0 then x else h(Iter(h, x, k - 1))
  }

  lemma {:induction false} IterAdd(h: Hash, x: Link, i: nat, k: nat)
    ensures Iter(h, Iter(h, x, i), k) == Iter(h, x, i + k)
    decreases k
  {
    if k > 0 {
      IterAdd(h, x, i, k - 1);
    }
  }

  /** A fresh array of the seed and its first `n` iterates. */
  method Precompute(h: Hash, seed: Link, n: nat) returns (links: array<Link>)
    ensures fresh(links) && links.Length == n + 1
    ensures forall i :: 0 <= i <= n ==> links[i] == Iter(h, seed, i)
  {
    links := new Link[n + 1];
    links[0] := seed;
    for i := 1 to n + 1
      invariant forall j :: 0 <= j < i ==> links[j] == Iter(h, seed, j)
    {
      links[i] := h(links[i - 1]);
      assert links[i] == Iter(h, seed, i);
    }
  }

  /** The client's chain: links[0] is the seed, the last link is the anchor, and
      `next` is the index of the next pre-image to reveal. */
  class HashChain {
    const h: Hash
    const links: array<Link>
    var next: int

    ghost predicate Valid()
      reads this, links
    {
      && links.Length >= 2
      && -1 <= next < links.Length - 1
      && (forall i :: 0 <= i < links.Length ==> links[i] == Iter(h, links[0], i))
    }

    constructor (h: Hash, seed: Link, requested: int)
      ensures Valid() && fresh(links) && this.h == h
      ensures links[0] == seed
      ensures links.Length == 1 + (if requested <= 0 then DEFAULT_CHAIN_LEN else requested)
      ensures next == links.Length - 2
    {
      var n := if requested <= 0 then DEFAULT_CHAIN_LEN else requested;
      var filled := Precompute(h, seed, n);
      this.h := h;
      links := filled;
      next := n - 1;
    }

    /** The public commitment; it can be sent again and consumes no link. */
    method Anchor() returns (tok: Token)
      requires Valid()
      ensures tok == Encoded(Iter(h, links[0], links.Length - 1))
    {
      tok := Encoded(links[links.Length - 1]);
    }

    /** Reveals the next pre-image and always advances; the empty token once the
        chain is exhausted. */
    method Next() returns (tok: Token)
      requires Valid()
      modifies this`next
      ensures Valid()
      ensures old(next) < 0 ==> tok == Malformed && next == old(next)
      ensures old(next) >= 0 ==> tok == Encoded(Iter(h, links[0], old(next))) && next == old(next) - 1
      ensures forall k: nat :: Tokens(h, links[0], old(next), k + 1) == [tok] + Tokens(h, links[0], next, k)
    {
      if next < 0 {
        return Malformed;
      }
      tok := Encoded(links[next]);
      next := next - 1;
    }

    /** Of any number of further Next calls the first `r` reveal a link. */
    method Remaining() returns (r: nat)
      requires Valid()
      ensures forall k: nat :: Revealing(Tokens(h, links[0], next, k)) == if k < r then k else r
    {
      r := next + 1;
      forall k: nat
        ensures Revealing(Tokens(h, links[0], next, k)) == if k < r then k else r
      {
        TokensReveal(h, links[0], next, k);
      }
    }
  }

  /** What the next `k` calls of Next return. */
  function Tokens(h: Hash, seed: Link, next: int, k: nat): seq<Token>
    decreases k
  {
    if k == 0 then []
    else if next < 0 then [Malformed] + Tokens(h, seed, next, k - 1)
    else [Encoded(Iter(h, seed, next))] + Tokens(h, seed, next - 1, k - 1)
  }

  /** How many of them reveal a link. */
  function Revealing(toks: seq<Token>): nat {
    if toks == [] then 0 else (if toks[0].Encoded? then 1 else 0) + Revealing(toks[1..])
  }

  lemma {:induction false} TokensReveal(h: Hash, seed: Link, next: int, k: nat)
    requires next >= -1
    ensures Revealing(Tokens(h, seed, next, k)) == if k < next + 1 then k else next + 1
    decreases k
  {
    if k > 0 {
      TokensReveal(h, seed, if next < 0 then next else next - 1, k - 1);
    }
  }

  function WindowFor(requested: int): nat {
    if requested <= 0 then RESYNC_WINDOW else requested
  }

  /** Hashing `p` forward between 1 and `window` times reaches `target`. */
  ghost predicate Reaches(h: Hash, p: Link, target: Link, window: nat) {
    exists k: nat :: 1 <= k <= window && Iter(h, p, k) == target
  }

  /** Succeeds exactly when the presented link hashes forward to the last one
      verified within the window, and returns the least number of hashes. */
  method VerifyHashStep(h: Hash, presented: Token, lastVerified: Token, requested: int) returns (steps: nat, ok: bool)
    ensures ok <==> presented.Encoded? && lastVerified.Encoded?
                    && Reaches(h, presented.link, lastVerified.link, WindowFor(requested))
    ensures !ok ==> steps == 0
    ensures ok ==> 1 <= steps <= WindowFor(requested)
    ensures ok ==> Iter(h, presented.link, steps) == lastVerified.link
    ensures ok ==> forall j: nat :: 1 <= j < steps ==> Iter(h, presented.link, j) != lastVerified.link
  {
    if presented.Malformed? || lastVerified.Malformed? {
      return 0, false;
    }
    var window := WindowFor(requested);
    var cur := presented.link;
    var step := 1;
    while step <= window
      invariant 1 <= step <= window + 1
      invariant cur == Iter(h, presented.link, step - 1)
      invariant forall j: nat :: 1 <= j < step ==> Iter(h, presented.link, j) != lastVerified.link
    {
      cur := h(cur);
      if cur == lastVerified.link {
        assert Iter(h, presented.link, step) == lastVerified.link;
        return step, true;
      }
      step := step + 1;
    }
    return 0, false;
  }

  method SameToken(a: Token, b: Token) returns (same: bool)
    ensures same <==> a.Encoded? && b.Encoded? && a.link == b.link
  {
    same := a.Encoded? && b.Encoded? && a.link == b.link;
  }

  // ---- the server's side ----

  /** A session, with the connection it sends on. */
  datatype Session = Session(token: Token, principal: string, conn: int)

  ghost predicate Advances(h: Hash, stored: Token, presented: Token) {
    stored.Encoded? && presented.Encoded? && Reaches(h, presented.link, stored.link, RESYNC_WINDOW)
  }

  /** A link is accepted when it advances the chain, or repeats the last one. */
  ghost predicate Authorized(h: Hash, stored: Token, presented: Token) {
    Advances(h, stored, presented) || (stored.Encoded? && stored == presented)
  }

  ghost function AfterResume(h: Hash, stored: Token, presented: Token): Token {
    if Advances(h, stored, presented) then presented else stored
  }

  /** The verify-and-advance of one session's stored link. */
  class ServingClient {
    const h: Hash
    var resumeToken: Token
    const principal: string
    var activeConn: int

    constructor (h: Hash, token: Token, principal: string, conn: int)
      ensures this.h == h && resumeToken == token && this.principal == principal && activeConn == conn
    {
      this.h := h;
      resumeToken := token;
      this.principal := principal;
      activeConn := conn;
    }

    method AuthorizeResume(presented: Token) returns (ok: bool)
      modifies this`resumeToken
      ensures ok <==> Authorized(h, old(resumeToken), presented)
      ensures resumeToken == AfterResume(h, old(resumeToken), presented)
      ensures !ok ==> resumeToken == old(resumeToken)
    {
      var _, stepped := VerifyHashStep(h, presented, resumeToken, RESYNC_WINDOW);
      if stepped {
        resumeToken := presented;
        return true;
      }
      var same := SameToken(presented, resumeToken);
      return same;
    }
  }

  /** The server's table of sessions by client id. */
  class RpcServer {
    const h: Hash
    var sessions: map<int, ServingClient>
    var closed: set<int>    // connections that have been closed

    ghost predicate Valid()
      reads this, sessions.Values
    {
      && (forall id :: id in sessions ==> sessions[id].h == h)
      && (forall i, j :: i in sessions && j in sessions && i != j ==> sessions[i] != sessions[j])
    }

    ghost function View(): map<int, Session>
      reads this, sessions.Values
    {
      map id | id in sessions :: Session(sessions[id].resumeToken, sessions[id].principal, sessions[id].activeConn)
    }

    constructor (h: Hash)
      ensures Valid() && this.h == h && View() == map[] && closed == {}
    {
      this.h := h;
      sessions := map[];
      closed := {};
    }

    /** Resumption of a known client id: only for the same principal and an
        authorized link; the session moves to the new connection, the one it was
        on is closed, and no other session is touched. */
    method Resume(clientId: int, presented: Token, principal: string, conn: int) returns (ok: bool)
      requires Valid() && clientId in sessions
      modifies this`closed, sessions.Values
      ensures Valid()
      ensures ok <==> Admitted(h, old(View()), clientId, presented, principal)
      ensures View() == AfterConnect(h, old(View()), clientId, presented, principal, conn)
      ensures closed == old(closed) + Replaced(h, old(View()), clientId, presented, principal)
    {
      var existing := sessions[clientId];
      assert existing in sessions.Values;
      if existing.principal != principal {
        return false;
      }
      ok := existing.AuthorizeResume(presented);
      if ok {
        closed := closed + {existing.activeConn};
        existing.activeConn := conn;
      }
      assert forall id :: id in sessions && id != clientId ==> sessions[id] != existing;
    }

    /** The second look-up, which stores a new session unless another connection
        has done so since the first one: on the table as it finds it, its effect
        is that of one step. The loser of that race closes the session it has
        made, and with it its own connection, before it resumes on it: an admitted
        loser leaves the session on a closed connection. */
    method LoadOrStore(clientId: int, presented: Token, principal: string, conn: int) returns (ok: bool)
      requires Valid()
      modifies this, sessions.Values
      ensures Valid()
      ensures ok <==> Admitted(h, old(View()), clientId, presented, principal)
      ensures View() == AfterConnect(h, old(View()), clientId, presented, principal, conn)
      ensures closed == old(closed) + Replaced(h, old(View()), clientId, presented, principal)
                        + if old(clientId in sessions) then {conn} else {}
      ensures ok ==> clientId in sessions && sessions[clientId].activeConn == conn
      ensures ok && conn !in old(closed) ==> (conn in closed <==> old(clientId in sessions))
    {
      if clientId in sessions {
        closed := closed + {conn};
        ok := Resume(clientId, presented, principal, conn);
      } else {
        var client := new ServingClient(h, presented, principal, conn);
        assert forall id :: id in sessions ==> sessions[id] in sessions.Values;
        sessions := sessions[clientId := client];
        ok := true;
      }
    }

    /** A known client id is resumed only for the same principal and an
        authorized link, and no other session is touched; an unknown id starts a
        session whose first link is the one presented. Without a race a session
        ends up on an open connection. */
    method CreateOrUpdateServingClient(clientId: int, presented: Token, principal: string, conn: int)
        returns (ok: bool)
      requires Valid()
      modifies this, sessions.Values
      ensures Valid()
      ensures ok <==> Admitted(h, old(View()), clientId, presented, principal)
      ensures View() == AfterConnect(h, old(View()), clientId, presented, principal, conn)
      ensures closed == old(closed) + Replaced(h, old(View()), clientId, presented, principal)
      ensures ok && conn !in old(closed) && !(clientId in old(View()) && old(View())[clientId].conn == conn) ==>
                clientId in sessions && sessions[clientId].activeConn == conn && conn !in closed
    {
      if clientId in sessions {
        ok := Resume(clientId, presented, principal, conn);
      } else {
        ok := LoadOrStore(clientId, presented, principal, conn);
      }
      assert ok ==> View()[clientId].conn == conn;
    }
  }

  ghost predicate Admitted(h: Hash, sessions: map<int, Session>, id: int, presented: Token, principal: string) {
    id in sessions ==> sessions[id].principal == principal && Authorized(h, sessions[id].token, presented)
  }

  ghost function AfterConnect(h: Hash, sessions: map<int, Session>, id: int, presented: Token, principal: string,
                              conn: int): map<int, Session>
  {
    if id !in sessions then sessions[id := Session(presented, principal, conn)]
    else if !Admitted(h, sessions, id, presented, principal) then sessions
    else sessions[id := Session(AfterResume(h, sessions[id].token, presented), principal, conn)]
  }

  /** The connection that a resumed session leaves. */
  ghost function Replaced(h: Hash, sessions: map<int, Session>, id: int, presented: Token, principal: string):
    set<int>
  {
    if id in sessions && Admitted(h, sessions, id, presented, principal) then {sessions[id].conn} else {}
  }
}
