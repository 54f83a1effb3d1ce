/** Opening streams: every frame of a stream finds the entry it is routed by.
    Any number of streams opened by one side (the initiator) and served by the
    other (the responder) share one connection; either side may be the server. */
module Registration {

  /** From the initiator's point of view. */
  datatype Kind = Get | Put | Chat

  datatype Message = Open(id: int) | Ready(id: int) | Value(id: int) | End(id: int) | Credit(id: int)

  datatype State = State(
    kinds: map<int, Kind>,    // streams allocated so far
    pending: set<int>,        // keys of the initiator's request map
    serving: set<int>,        // keys of the responder's request map
    toResponder: seq<Message>,
    toInitiator: seq<Message>,
    handling: set<int>,       // responder handlers that have not stored their entry
    registered: set<int>,     // streams whose responder entry has been stored
    granted: set<int>,        // ... and whose initial window has been granted to the initiator
    streaming: set<int>,      // ... and whose responder has sent StreamReady
    established: set<int>,    // streams whose StreamReady has reached the initiator
    paidI: set<int>,          // streams for which the initiator has received credit
    paidR: set<int>,          // streams for which the responder has received credit
    tornI: set<int>,          // streams the initiator has torn down or retired
    tornR: set<int>,          // streams the responder has torn down or retired
    misrouted: nat            // frames whose receiver had no entry and had removed none
  )

  datatype Action =
    | Allocate(id: int, kind: Kind)  // the initiator stores its entry
    | SendOpen(id: int)
    | Register(id: int)              // the responder stores its entry
    | GrantWindow(id: int)           // the responder's initial window for a put or chat
    | SendReady(id: int)
    | InitiatorCredit(id: int)       // the initiator's initial window, and its later grants
    | InitiatorValue(id: int)
    | InitiatorEnd(id: int)
    | ResponderCredit(id: int)       // later grants of the responder
    | ResponderValue(id: int)
    | ResponderEnd(id: int)
    | ReceiveAtResponder
    | ReceiveAtInitiator
    | TearInitiator(id: int)
    | TearResponder(id: int)

  function Init(): State {
    State(map[], {}, {}, [], [], {}, {}, {}, {}, {}, {}, {}, {}, {}, 0)
  }

  predicate InitiatorSends(s: State, id: int) {
    id in s.kinds && !s.kinds[id].Get?
  }

  predicate ResponderSends(s: State, id: int) {
    id in s.kinds && !s.kinds[id].Put?
  }

  predicate Enabled(s: State, a: Action) {
    match a
    case Allocate(id, _) => id !in s.kinds
    case SendOpen(id) => id in s.pending && id !in s.handling && id !in s.registered && Open(id) !in s.toResponder
    case Register(id) => id in s.handling
    case GrantWindow(id) => id in s.registered && InitiatorSends(s, id) && id !in s.granted
    case SendReady(id) => id in s.registered && (InitiatorSends(s, id) ==> id in s.granted) && id !in s.streaming
    case InitiatorCredit(id) => id in s.established && ResponderSends(s, id)
    case InitiatorValue(id) => id in s.established && InitiatorSends(s, id) && id in s.paidI
    case InitiatorEnd(id) => id in s.established && InitiatorSends(s, id)
    case ResponderCredit(id) => id in s.granted
    case ResponderValue(id) => id in s.streaming && ResponderSends(s, id) && id in s.paidR
    case ResponderEnd(id) => id in s.streaming && ResponderSends(s, id)
    case ReceiveAtResponder => s.toResponder != []
    case ReceiveAtInitiator => s.toInitiator != []
    case TearInitiator(id) => id in s.pending
    case TearResponder(id) => id in s.serving
  }

  /** The responder's read loop handles one frame. */
  function AtResponder(s: State): State
    requires s.toResponder != []
  {
    var m := s.toResponder[0];
    var t := s.(toResponder := s.toResponder[1..]);
    if m.Open? then t.(handling := s.handling + {m.id})
    else if m.id !in s.serving then (if m.id in s.tornR then t else t.(misrouted := s.misrouted + 1))
    else if m.Credit? then t.(paidR := s.paidR + {m.id})
    else if m.End? && m.id in s.kinds && s.kinds[m.id].Put?
      then t.(serving := s.serving - {m.id}, tornR := s.tornR + {m.id})
    else t
  }

  /** The initiator's read loop handles one frame. */
  function AtInitiator(s: State): State
    requires s.toInitiator != []
  {
    var m := s.toInitiator[0];
    var t := s.(toInitiator := s.toInitiator[1..]);
    if m.id !in s.pending then (if m.id in s.tornI then t else t.(misrouted := s.misrouted + 1))
    else if m.Ready? then t.(established := s.established + {m.id})
    else if m.Credit? then t.(paidI := s.paidI + {m.id})
    else if m.End? && m.id in s.kinds && s.kinds[m.id].Get?
      then t.(pending := s.pending - {m.id}, tornI := s.tornI + {m.id})
    else t
  }

  function Next(s: State, a: Action): State
    requires Enabled(s, a)
  {
    match a
    case Allocate(id, kind) => s.(kinds := s.kinds[id := kind], pending := s.pending + {id})
    case SendOpen(id) => s.(toResponder := s.toResponder + [Open(id)])
    case Register(id) =>
      s.(handling := s.handling - {id}, serving := s.serving + {id}, registered := s.registered + {id})
    case GrantWindow(id) => s.(granted := s.granted + {id}, toInitiator := s.toInitiator + [Credit(id)])
    case SendReady(id) => s.(streaming := s.streaming + {id}, toInitiator := s.toInitiator + [Ready(id)])
    case InitiatorCredit(id) => s.(toResponder := s.toResponder + [Credit(id)])
    case InitiatorValue(id) => s.(toResponder := s.toResponder + [Value(id)])
    case InitiatorEnd(id) => s.(toResponder := s.toResponder + [End(id)])
    case ResponderCredit(id) => s.(toInitiator := s.toInitiator + [Credit(id)])
    case ResponderValue(id) => s.(toInitiator := s.toInitiator + [Value(id)])
    case ResponderEnd(id) => s.(toInitiator := s.toInitiator + [End(id)])
    case ReceiveAtResponder => AtResponder(s)
    case ReceiveAtInitiator => AtInitiator(s)
    case TearInitiator(id) => s.(pending := s.pending - {id}, tornI := s.tornI + {id})
    case TearResponder(id) => s.(serving := s.serving - {id}, tornR := s.tornR + {id})
  }

  predicate Runs(s: State, acts: seq<Action>, t: State)
    decreases |acts|
  {
    if acts == [] then s == t
    else Enabled(s, acts[0]) && Runs(Next(s, acts[0]), acts[1..], t)
  }

  // ---- invariant ----

  /** Everything that depends on the responder's entry comes after its store. */
  predicate AfterStore(s: State) {
    && s.granted <= s.registered && s.streaming <= s.registered && s.established <= s.registered
    && s.registered <= s.serving + s.tornR
    && s.serving <= s.registered
  }

  /** A stream the responder has heard of was entered by the initiator first. */
  predicate AfterEntry(s: State) {
    && s.registered <= s.pending + s.tornI
    && s.handling <= s.pending + s.tornI
  }

  predicate InFlight(s: State) {
    && (forall m :: m in s.toResponder ==> m.id in s.pending + s.tornI)
    && (forall m :: m in s.toResponder && !m.Open? ==> m.id in s.registered)
    && (forall m :: m in s.toInitiator ==> m.id in s.registered)
  }

  predicate Inv(s: State) {
    AfterStore(s) && AfterEntry(s) && InFlight(s) && s.misrouted == 0
  }

  lemma ReceiveKeepsInv(s: State)
    requires Inv(s)
    ensures s.toResponder != [] ==> Inv(AtResponder(s))
    ensures s.toInitiator != [] ==> Inv(AtInitiator(s))
  {
  }

  lemma StepKeepsInv(s: State, a: Action)
    requires Inv(s) && Enabled(s, a)
    ensures Inv(Next(s, a))
  {
    if a.ReceiveAtResponder? || a.ReceiveAtInitiator? {
      ReceiveKeepsInv(s);
    }
  }

  lemma {:induction false} RunKeepsInv(s: State, acts: seq<Action>, t: State)
    requires Inv(s) && Runs(s, acts, t)
    ensures Inv(t)
    decreases |acts|
  {
    if acts != [] {
      StepKeepsInv(s, acts[0]);
      RunKeepsInv(Next(s, acts[0]), acts[1..], t);
    }
  }

  /** Registration precedes data. In every run, whenever a frame of a stream is
      in flight, other than the one that opens it, its receiver has the stream in
      its map unless it has itself removed it, whatever the sender has done with
      its own entry; no frame is misrouted. */
  lemma RegistrationPrecedesData(acts: seq<Action>, t: State, m: Message)
    requires Runs(Init(), acts, t)
    ensures m in t.toResponder && !m.Open? ==> m.id in t.serving || m.id in t.tornR
    ensures m in t.toInitiator ==> m.id in t.pending || m.id in t.tornI
    ensures t.misrouted == 0
  {
    RunKeepsInv(Init(), acts, t);
  }
}
