/**
  The response registry under any interleaving of requesters, readLoop and reconnectLoop.

  A request is named by the sequence number newRequest gives it, and its response channel by the
  sequence number it was made for.  Requests run newRequest, sendAndRegister and AwaitResponse
  (dap.go:267-276, 321-371, 1053-1073).  readLoop takes a response out of the registry and sends it
  on its channel in two steps (dap.go:1083-1098), or drains the registry after a read error
  (dap.go:1310).  reconnectLoop swaps the connection and then drains (dap.go:493-503).  One action is
  one mutex section, one write, or one channel operation.
  */
module RegistryProtocol {

  datatype Option<+T> = None | Some(value: T)

  /** A response: the request it answers and the connection it was read from. */
  datatype Msg = Msg(req: nat, conn: nat)

  /** How a channel left the registry. */
  datatype Fate = Open | Taken(msg: Msg) | Drained | Cleaned

  /** A one-slot response channel, registered while `born` was the current connection. */
  datatype Chan = Chan(born: nat, buf: Option<Msg>, sends: nat, closes: nat, fate: Fate)

  /** What a requester got back, and whether AwaitResponse had looked its channel up. */
  datatype Result = Response(msg: Msg) | Stale | CtxErr | SendErr | Refused
  datatype Lookup = NotAsked | Missed | Found

  datatype Request =
    | Allocated
    | Registered(made: nat)     // made is 1 when this call created the channel
    | WriteFailed(made: nat)
    | Written
    | Awaiting                  // has looked its channel up and is receiving on it
    | Done(result: Result, lookup: Lookup)

  datatype Dispatcher = Idle | Delivering(msg: Msg)

  datatype Swapper = Settled | Swapped

  datatype State = State(
    next: nat,                  // the client's sequence counter
    epoch: nat,                 // the current connection
    reqs: map<nat, Request>,
    responses: set<nat>,        // the registry
    chans: map<nat, Chan>,      // every channel ever made
    writes: map<nat, nat>,      // the connection each request reached
    dispatcher: Dispatcher,
    swapper: Swapper,
    remade: nat,                // sequence numbers for which a second channel was made or a second write done
    panics: nat)                // sends on a closed channel and closes of a closed channel

  function Init(): State {
    State(1, 0, map[], {}, map[], map[], Idle, Settled, 0, 0)
  }

  /** Whether the bytes of a failed write got through in spite of the error. */
  datatype Reach = Lost | Reached

  datatype Action =
    | Alloc
    | Refuse(q: nat)            // the stale test of sendAndRegister
    | Register(q: nat)
    | WriteOk(q: nat)
    | WriteErr(q: nat, reach: Reach)
    | CleanUp(q: nat)
    | LookUp(q: nat)
    | Receive(q: nat)
    | GiveUp(q: nat)
    | Take(m: Msg)
    | Deliver
    | ReaderDrain
    | Swap
    | SwapDrain

  /** The adapter answers only what it received on the connection it answers on. */
  predicate Answerable(s: State, m: Msg) {
    m.req in s.writes && s.writes[m.req] == m.conn
  }

  predicate Enabled(s: State, a: Action) {
    match a
    case Alloc => true
    case Refuse(q) => q in s.reqs && s.reqs[q].Allocated?
    case Register(q) => q in s.reqs && s.reqs[q].Allocated?
    case WriteOk(q) => q in s.reqs && s.reqs[q].Registered?
    case WriteErr(q, _) => q in s.reqs && s.reqs[q].Registered?
    case CleanUp(q) => q in s.reqs && s.reqs[q].WriteFailed?
    case LookUp(q) => q in s.reqs && s.reqs[q].Written?
    case Receive(q) =>
      q in s.reqs && s.reqs[q].Awaiting? && q in s.chans && (s.chans[q].buf.Some? || s.chans[q].closes > 0)
    case GiveUp(q) => q in s.reqs && s.reqs[q].Awaiting?
    case Take(m) => s.dispatcher.Idle? && Answerable(s, m)
    case Deliver => s.dispatcher.Delivering? && s.dispatcher.msg.req in s.chans && s.chans[s.dispatcher.msg.req].buf.None?
    case ReaderDrain => s.dispatcher.Idle?
    case Swap => s.swapper.Settled?
    case SwapDrain => s.swapper.Swapped?
  }

  /** registerResponseIfAbsent (dap.go:355-363). */
  function RegisterIfAbsent(s: State, q: nat): State {
    if q in s.responses then s.(reqs := s.reqs[q := Registered(0)])
    else s.(reqs := s.reqs[q := Registered(1)],
            responses := s.responses + {q},
            chans := s.chans[q := Chan(s.epoch, None, 0, 0, Open)],
            remade := if q in s.chans then s.remade + 1 else s.remade)
  }

  /** A write of request `q` reaches the current connection. */
  function WriteReaches(s: State, q: nat): State {
    s.(writes := s.writes[q := s.epoch], remade := if q in s.writes then s.remade + 1 else s.remade)
  }

  /** The registry entry for `q`, if any, leaves the registry with the given fate. */
  function Remove(s: State, q: nat, fate: Fate): State {
    if q in s.responses && q in s.chans
    then s.(responses := s.responses - {q}, chans := s.chans[q := s.chans[q].(fate := fate)])
    else s.(responses := s.responses - {q})
  }

  function CloseChan(c: Chan): Chan {
    c.(closes := c.closes + 1, fate := Drained)
  }

  /** closeRegistry: every registered channel is closed and the registry emptied (dap.go:1134-1142). */
  function CloseRegistry(s: State): State {
    s.(responses := {},
       chans := map q | q in s.chans :: if q in s.responses then CloseChan(s.chans[q]) else s.chans[q],
       panics := if exists q :: q in s.responses && q in s.chans && s.chans[q].closes > 0 then s.panics + 1 else s.panics)
  }

  function Apply(s: State, a: Action): State
    requires Enabled(s, a)
  {
    match a
    case Alloc => s.(reqs := s.reqs[s.next := Allocated], next := s.next + 1)
    case Refuse(q) => s.(reqs := s.reqs[q := Done(Refused, NotAsked)])
    case Register(q) => RegisterIfAbsent(s, q)
    case WriteOk(q) => WriteReaches(s, q).(reqs := s.reqs[q := Written])
    case WriteErr(q, reach) =>
      (if reach.Reached? then WriteReaches(s, q) else s).(reqs := s.reqs[q := WriteFailed(s.reqs[q].made)])
    case CleanUp(q) =>
      (if s.reqs[q].made == 1 then Remove(s, q, Cleaned) else s).(reqs := s.reqs[q := Done(SendErr, NotAsked)])
    case LookUp(q) => s.(reqs := s.reqs[q := if q in s.responses then Awaiting else Done(Stale, Missed)])
    case Receive(q) =>
      var c := s.chans[q];
      if c.buf.Some?
      then s.(reqs := s.reqs[q := Done(Response(c.buf.value), Found)], chans := s.chans[q := c.(buf := None)])
      else s.(reqs := s.reqs[q := Done(Stale, Found)])
    case GiveUp(q) => s.(reqs := s.reqs[q := Done(CtxErr, Found)])
    case Take(m) =>
      if m.req in s.responses then Remove(s, m.req, Taken(m)).(dispatcher := Delivering(m)) else s   // else an orphan
    case Deliver =>
      var m := s.dispatcher.msg;
      var c := s.chans[m.req];
      if c.closes > 0 then s.(dispatcher := Idle, panics := s.panics + 1)
      else s.(dispatcher := Idle, chans := s.chans[m.req := c.(buf := Some(m), sends := c.sends + 1)])
    case ReaderDrain => CloseRegistry(s)
    case Swap => s.(epoch := s.epoch + 1, swapper := Swapped)
    case SwapDrain => CloseRegistry(s).(swapper := Settled)
  }

  predicate Legal(s: State, acts: seq<Action>)
    decreases |acts|
  {
    acts == [] || (Enabled(s, acts[0]) && Legal(Apply(s, acts[0]), acts[1..]))
  }

  function Run(s: State, acts: seq<Action>): State
    requires Legal(s, acts)
    decreases |acts|
  {
    if acts == [] then s else Run(Apply(s, acts[0]), acts[1..])
  }

  ghost predicate Reachable(s: State) {
    exists acts :: Legal(Init(), acts) && Run(Init(), acts) == s
  }
}
