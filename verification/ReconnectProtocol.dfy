/**
  The reconnect protocol of the DAP client as a state machine.

  One action is one atomic step of the source: an atomic load or compare-and-swap, one
  channel operation, one mutex section, or one environment outcome (a read, write or dial
  that succeeds or fails).  Four roles take steps in any order:

  - any number of senders, which test the stale flag, write, and mark the client stale
    when the write fails (dap.go:320-355), or mark it directly (tools.go:1827-1829);
  - readLoop, the single reader (dap.go:1286-1321);
  - reconnectLoop with doReconnect, replaceConn and notifySessionReconnected
    (dap.go:493-529, 553-619, 636-648), and inside them the hook, which registers, writes and
    awaits its requests and then the InitializedEvent (dap.go:340-350, 1053-1073,
    tools.go:402-421, 1710-1793);
  - Close, which cancels the client's context.
  */
module ReconnectProtocol {

  /** What is fixed for the life of a client.  `retryFailedHook` is false for the code as
      written; true describes a loop that clears `stale` only when the hook returned nil. */
  datatype Config = Config(hasBackend: bool, hookWired: bool, retryFailedHook: bool)

  /** A raised or lowered flag of the state. */
  datatype Flag = Off | On

  /** What became of the session on the current connection. */
  datatype Session = Fresh | Synced | HookFailed

  /** Where readLoop is while it holds the reader of one connection. */
  datatype Stage =
    | Reading
    | Failed           // the read returned an error
    | Marking          // about to compare-and-swap
    | Signalling       // won the compare-and-swap, about to send on reconnCh
    | ClosingRegistry
    | Broadcasting
    | Parked           // waiting for pumpResume or the context

  /** Program counter of readLoop.  `e` is the number of the connection whose reader it holds. */
  datatype ReaderPc = AtTop | PickingReader | Holding(e: nat, stage: Stage) | ReaderDone

  /** doReconnect before it installs a connection. */
  datatype RetryPc = TopOfRetry | Dialing | BackingOff | ClosingOld | CheckingCtx | Swapping

  /** The requests of the hook: initialize, attach, and, after the InitializedEvent, one or more others. */
  datatype Place = Initialize | Attach | Restore

  /** What has reached the hook's response channel, or the two channels it subscribed to.  Closed is a drained
      registry or a ConnectionLostEvent; Either is both an InitializedEvent and a ConnectionLostEvent. */
  datatype Mail = Empty | Accepted | Rejected | Closed | Either

  /** Where the hook is. */
  datatype HookPc =
    | Starting(place: Place)               // about to register the request
    | Writing(place: Place, mail: Mail)    // registered
    | LookingUp(place: Place, mail: Mail)  // written, AwaitResponse has not looked the channel up
    | Awaiting(place: Place, mail: Mail)   // receiving on the channel
    | EventWanted                          // about to take the snapshot of the ring
    | Snapped(mail: Mail)                  // not yet subscribed
    | HalfListening(mail: Mail)            // subscribed to InitializedEvent only
    | Listening(mail: Mail)                // subscribed to ConnectionLostEvent too

  /** doReconnect from the swap of the connection to the clearing of `stale`. */
  datatype WindowPc =
    | Draining
    | Resuming
    | Notifying
    | HookRunning(h: HookPc)
    | HookMarking      // the hook failed, about to compare-and-swap
    | HookSignalling   // would have won that compare-and-swap
    | Clearing

  /** Program counter of reconnectLoop and the functions it calls. */
  datatype LoopPc =
    | Selecting
    | Woken            // consumed the token, about to test the backend
    | Retrying(r: RetryPc)
    | Installing(w: WindowPc)
    | LoopDone

  /** Counters of what has happened so far. */
  datatype Log = Log(
    refused: nat,           // sends refused by the stale test
    bufferFull: nat,        // times the default branch at dap.go:483 was taken
    stalePeriods: nat,      // compare-and-swaps won
    reconnects: nat,        // calls to doReconnect
    clears: nat,            // times doReconnect stored false
    resumes: nat,           // tokens readLoop took from pumpResume
    lostEvents: nat,        // ConnectionLostEvent broadcasts
    hookRuns: nat,
    hookErrors: nat)

  datatype State = State(
    stale: Flag,
    reconnCh: nat,          // tokens in the one-slot channel reconnCh
    pumpResume: nat,        // tokens in the one-slot channel pumpResume
    cancelled: Flag,        // the client's context is cancelled
    epoch: nat,             // number of replaceConn swaps; names the current connection
    reader: ReaderPc,
    loop: LoopPc,
    inFlight: set<nat>,     // senders that passed the stale test and are writing
    toMark: set<nat>,       // callers about to compare-and-swap
    marking: set<nat>,      // callers that won it and have not yet sent
    log: Log,
    // facts about the past
    abandoned: Flag,        // the loop consumed a wakeup and gave up
    session: Session,       // of the current connection; Fresh until its hook has returned
    initEvent: Flag,        // an InitializedEvent entered the ring since the last attach
    windowError: Flag)      // readLoop marked the current connection between its swap and the clear

  function Init(): State {
    State(Off, 0, 0, Off, 0, AtTop, Selecting, {}, {}, {}, Log(0, 0, 0, 0, 0, 0, 0, 0, 0), Off, Synced, Off, Off)
  }

  datatype SenderStep =
    | SendTest(t: nat) | WriteOk(t: nat) | WriteFail(t: nat)
    | ForceMark(t: nat) | MarkCas(t: nat) | MarkSignal(t: nat)

  /** The next step of readLoop and of the loop is fixed by its program counter; `ok` picks the outcome
      where there are two: a read, dial or write that succeeds, a channel that is chosen over ctx.Done. */
  datatype Action =
    | Sender(step: SenderStep)
    | Reader(ok: bool)
    | Loop(ok: bool)
    | Answer(ok: bool)   // readLoop dispatches the response to the hook's request
    | Announce           // readLoop dispatches an InitializedEvent
    | HookCtx            // the hook stops waiting because the context is cancelled
    | Cancel

  /** readLoop is past its compare-and-swap for connection `e` and has not resumed. */
  predicate PastCas(pc: ReaderPc, e: nat) {
    pc.Holding? && pc.e == e && !pc.stage.Reading? && !pc.stage.Failed? && !pc.stage.Marking?
  }

  predicate IsSignalling(pc: ReaderPc) { pc.Holding? && pc.stage.Signalling? }

  predicate IsParked(pc: ReaderPc) { pc.Holding? && pc.stage.Parked? }

  predicate InHook(pc: LoopPc) { pc.Installing? && pc.w.HookRunning? }

  /** The hook waits on a channel. */
  predicate Waits(h: HookPc) { h.Awaiting? || h.Listening? }

  /** The hook's request is written and its channel registered. */
  predicate Unanswered(h: HookPc) { (h.LookingUp? || h.Awaiting?) && h.mail.Empty? }

  /** The loop is in doReconnect. */
  predicate Reconnecting(pc: LoopPc) { pc.Retrying? || pc.Installing? }

  predicate SenderEnabled(c: Config, s: State, a: SenderStep) {
    match a
    case SendTest(t) => t !in s.inFlight
    case WriteOk(t) => t in s.inFlight
    case WriteFail(t) => t in s.inFlight && t !in s.toMark
    case ForceMark(t) => c.hasBackend && t !in s.toMark
    case MarkCas(t) => t in s.toMark && t !in s.marking
    case MarkSignal(t) => t in s.marking
  }

  predicate ReaderEnabled(s: State, ok: bool) {
    match s.reader
    case ReaderDone => false
    case Holding(_, Parked) => if ok then s.pumpResume > 0 else s.cancelled.On?
    case _ => true
  }

  predicate LoopEnabled(s: State, ok: bool) {
    match s.loop
    case LoopDone => false
    case Selecting => if ok then s.reconnCh > 0 else s.cancelled.On?
    case Retrying(BackingOff) => ok || s.cancelled.On?
    case Installing(HookRunning(h)) => Waits(h) ==> !h.mail.Empty?
    case _ => true
  }

  predicate Enabled(c: Config, s: State, a: Action) {
    match a
    case Sender(x) => SenderEnabled(c, s, x)
    case Reader(ok) => ReaderEnabled(s, ok)
    case Loop(ok) => LoopEnabled(s, ok)
    case Answer(_) => s.reader == Holding(s.epoch, Reading) && InHook(s.loop) && Unanswered(s.loop.w.h)
    case Announce => s.reader == Holding(s.epoch, Reading) && InHook(s.loop)
    case HookCtx => s.cancelled.On? && InHook(s.loop) && Waits(s.loop.w.h)
    case Cancel => true
  }

  /** The winning half of markStale's compare-and-swap (dap.go:480). */
  function Rise(s: State): State
    requires !s.stale.On?
  {
    s.(stale := On, log := s.log.(stalePeriods := s.log.stalePeriods + 1))
  }

  /** The non-blocking send of markStale (dap.go:481-484). */
  function Signal(s: State): State {
    if s.reconnCh == 0 then s.(reconnCh := 1) else s.(log := s.log.(bufferFull := s.log.bufferFull + 1))
  }

  function ApplySender(c: Config, s: State, a: SenderStep): State
    requires SenderEnabled(c, s, a)
  {
    match a
    case SendTest(t) => if s.stale.On? then s.(log := s.log.(refused := s.log.refused + 1)) else s.(inFlight := s.inFlight + {t})
    case WriteOk(t) => s.(inFlight := s.inFlight - {t})
    case WriteFail(t) => s.(inFlight := s.inFlight - {t}, toMark := s.toMark + {t})
    case ForceMark(t) => s.(toMark := s.toMark + {t})
    case MarkCas(t) =>
      var s1 := s.(toMark := s.toMark - {t});
      if s.stale.On? then s1 else Rise(s1).(marking := s.marking + {t})
    case MarkSignal(t) => Signal(s.(marking := s.marking - {t}))
  }

  function SetHook(s: State, h: HookPc): State { s.(loop := Installing(HookRunning(h))) }

  /** closeRegistry closes the hook's channel if it is registered (dap.go:1134-1142). */
  function OnDrain(pc: LoopPc): LoopPc {
    match pc
    case Installing(HookRunning(Writing(p, Empty))) => Installing(HookRunning(Writing(p, Closed)))
    case Installing(HookRunning(LookingUp(p, Empty))) => Installing(HookRunning(LookingUp(p, Closed)))
    case Installing(HookRunning(Awaiting(p, Empty))) => Installing(HookRunning(Awaiting(p, Closed)))
    case _ => pc
  }

  /** broadcastEvent reaches the hook if it has subscribed; the event does not enter the ring (dap.go:1146-1166). */
  function OnLoss(pc: LoopPc): LoopPc {
    match pc
    case Installing(HookRunning(Listening(Empty))) => Installing(HookRunning(Listening(Closed)))
    case Installing(HookRunning(Listening(Accepted))) => Installing(HookRunning(Listening(Either)))
    case _ => pc
  }

  /** An InitializedEvent reaches the hook if it has subscribed. */
  function OnAnnounce(h: HookPc): HookPc {
    match h
    case HalfListening(Empty) => HalfListening(Accepted)
    case Listening(Empty) => Listening(Accepted)
    case Listening(Closed) => Listening(Either)
    case _ => h
  }

  /** A step of readLoop while it holds the reader of connection `e` (dap.go:1300-1321). */
  function ApplyHolding(s: State, e: nat, stage: Stage, ok: bool): State
    requires stage.Parked? && ok ==> s.pumpResume > 0
  {
    match stage
    case Reading => s.(reader := if ok then AtTop else Holding(e, Failed))
    case Failed => s.(reader := if s.cancelled.On? then ReaderDone else Holding(e, Marking))
    case Marking =>
      var s1 := s.(windowError := if e == s.epoch && s.loop.Installing? then On else s.windowError);
      if s.stale.On? then s1.(reader := Holding(e, ClosingRegistry)) else Rise(s1).(reader := Holding(e, Signalling))
    case Signalling => Signal(s).(reader := Holding(e, ClosingRegistry))
    case ClosingRegistry => s.(reader := Holding(e, Broadcasting), loop := OnDrain(s.loop))
    case Broadcasting =>
      s.(reader := Holding(e, Parked), loop := OnLoss(s.loop), log := s.log.(lostEvents := s.log.lostEvents + 1))
    case Parked =>
      if ok
      then s.(reader := AtTop, pumpResume := s.pumpResume - 1, log := s.log.(resumes := s.log.resumes + 1))
      else s.(reader := ReaderDone)
  }

  function ApplyReader(s: State, ok: bool): State
    requires ReaderEnabled(s, ok)
  {
    match s.reader
    case AtTop => s.(reader := if s.cancelled.On? then ReaderDone else PickingReader)
    case PickingReader => s.(reader := Holding(s.epoch, Reading))
    case Holding(e, stage) => ApplyHolding(s, e, stage, ok)
  }

  /** doReconnect returns because the context is cancelled. */
  function GiveUp(s: State): State {
    s.(loop := Selecting, abandoned := On)
  }

  /** A step of doReconnect up to the swap (dap.go:557-587, 603-610). */
  function ApplyRetry(s: State, r: RetryPc, ok: bool): State {
    match r
    case TopOfRetry => if s.cancelled.On? then GiveUp(s) else s.(loop := Retrying(Dialing))
    case Dialing => s.(loop := Retrying(if ok then ClosingOld else BackingOff))
    case BackingOff => if ok then s.(loop := Retrying(TopOfRetry)) else GiveUp(s)
    case ClosingOld => s.(loop := Retrying(CheckingCtx))
    case CheckingCtx => if s.cancelled.On? then GiveUp(s) else s.(loop := Retrying(Swapping))
    case Swapping =>
      s.(loop := Installing(Draining), epoch := s.epoch + 1, session := Fresh, windowError := Off)
  }

  /** The hook returns an error. */
  function HookFails(c: Config, s: State): State {
    s.(loop := if c.retryFailedHook then Retrying(TopOfRetry) else Installing(HookMarking),
       session := HookFailed, log := s.log.(hookErrors := s.log.hookErrors + 1))
  }

  /** The hook returns nil. */
  function HookSucceeds(s: State): State { s.(loop := Installing(Clearing), session := Synced) }

  /** The hook has received the response to a request. */
  function AfterResponse(c: Config, s: State, p: Place, m: Mail, ok: bool): State {
    if !m.Accepted? then HookFails(c, s)
    else match p
      case Initialize => SetHook(s, Starting(Attach))
      case Attach => SetHook(s, EventWanted)
      case Restore => if ok then HookSucceeds(s) else SetHook(s, Starting(Restore))   // ok: it was the last one
  }

  /** A step of the hook. */
  function ApplyHook(c: Config, s: State, h: HookPc, ok: bool): State {
    match h
    case Starting(p) => SetHook(s, Writing(p, Empty)).(initEvent := if p.Attach? then Off else s.initEvent)
    case Writing(p, m) => if ok then SetHook(s, LookingUp(p, m)) else HookFails(c, s)
    case LookingUp(p, m) => if m.Empty? then SetHook(s, Awaiting(p, Empty)) else HookFails(c, s)
    case Awaiting(p, m) => AfterResponse(c, s, p, m, ok)
    case EventWanted => SetHook(s, Snapped(if s.initEvent.On? then Accepted else Empty))
    case Snapped(m) => SetHook(s, HalfListening(m))
    case HalfListening(m) => SetHook(s, Listening(m))
    case Listening(m) =>
      if m.Accepted? || (m.Either? && ok) then SetHook(s, Starting(Restore)) else HookFails(c, s)
  }

  /** A step of doReconnect from the swap to the clearing of `stale` (dap.go:503-511, 596-600, 636-648). */
  function ApplyWindow(c: Config, s: State, w: WindowPc, ok: bool): State {
    match w
    case Draining => s.(loop := Installing(Resuming))
    case Resuming => s.(loop := Installing(Notifying), pumpResume := 1)
    case Notifying =>
      if c.hookWired then SetHook(s, Starting(Initialize)).(log := s.log.(hookRuns := s.log.hookRuns + 1))
      else s.(loop := Installing(Clearing), session := Synced)
    case HookRunning(h) => ApplyHook(c, s, h, ok)
    case HookMarking => if s.stale.On? then s.(loop := Installing(Clearing)) else Rise(s).(loop := Installing(HookSignalling))
    case HookSignalling => Signal(s).(loop := Installing(Clearing))
    case Clearing => s.(loop := Selecting, stale := Off, log := s.log.(clears := s.log.clears + 1))
  }

  function ApplyLoop(c: Config, s: State, ok: bool): State
    requires LoopEnabled(s, ok)
  {
    match s.loop
    case Selecting => if ok then s.(loop := Woken, reconnCh := s.reconnCh - 1) else s.(loop := LoopDone)
    case Woken =>
      if c.hasBackend then s.(loop := Retrying(TopOfRetry), log := s.log.(reconnects := s.log.reconnects + 1))
      else s.(loop := LoopDone, abandoned := On)
    case Retrying(r) => ApplyRetry(s, r, ok)
    case Installing(w) => ApplyWindow(c, s, w, ok)
  }

  function Apply(c: Config, s: State, a: Action): State
    requires Enabled(c, s, a)
  {
    match a
    case Sender(x) => ApplySender(c, s, x)
    case Reader(ok) => ApplyReader(s, ok)
    case Loop(ok) => ApplyLoop(c, s, ok)
    case Answer(ok) =>
      var h, m := s.loop.w.h, if ok then Accepted else Rejected;
      SetHook(s, if h.LookingUp? then LookingUp(h.place, m) else Awaiting(h.place, m)).(reader := AtTop)
    case Announce => SetHook(s, OnAnnounce(s.loop.w.h)).(reader := AtTop, initEvent := On)
    case HookCtx => HookFails(c, s)
    case Cancel => s.(cancelled := On)
  }

  /** `acts` is a possible schedule from `s`. */
  predicate Legal(c: Config, s: State, acts: seq<Action>)
    decreases |acts|
  {
    acts == [] || (Enabled(c, s, acts[0]) && Legal(c, Apply(c, s, acts[0]), acts[1..]))
  }

  /** The state after the schedule `acts`. */
  function Run(c: Config, s: State, acts: seq<Action>): State
    requires Legal(c, s, acts)
    decreases |acts|
  {
    if acts == [] then s else Run(c, Apply(c, s, acts[0]), acts[1..])
  }

  /** Some schedule of a new client ends in `s`. */
  ghost predicate Reachable(c: Config, s: State) {
    exists acts :: Legal(c, Init(), acts) && Run(c, Init(), acts) == s
  }

  lemma {:induction false} RunThenStep(c: Config, s: State, acts: seq<Action>, a: Action)
    requires Legal(c, s, acts) && Enabled(c, Run(c, s, acts), a)
    ensures Legal(c, s, acts + [a]) && Run(c, s, acts + [a]) == Apply(c, Run(c, s, acts), a)
    decreases |acts|
  {
    if acts == [] {
      assert Legal(c, Apply(c, s, a), []) && ([a])[1..] == [];
    } else {
      RunThenStep(c, Apply(c, s, acts[0]), acts[1..], a);
      assert (acts + [a])[1..] == acts[1..] + [a];
    }
  }

  lemma InitReachable(c: Config)
    ensures Reachable(c, Init())
  {
    assert Legal(c, Init(), []);
  }

  lemma ReachableStep(c: Config, s: State, a: Action) returns (next: State)
    requires Reachable(c, s) && Enabled(c, s, a)
    ensures next == Apply(c, s, a) && Reachable(c, next)
  {
    next := Apply(c, s, a);
    var acts :| Legal(c, Init(), acts) && Run(c, Init(), acts) == s;
    RunThenStep(c, Init(), acts, a);
  }
}
