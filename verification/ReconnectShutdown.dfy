/**
  Close: from every state of a client whose context is cancelled, both of its goroutines can end by themselves.
  The operating system's part, that a blocked read or dial returns, is the failing outcome of that step.
  */
module ReconnectShutdown {
  import opened ReconnectProtocol
  import opened ReconnectTheorems
  import opened ReconnectRecovery

  /** Steps of readLoop before it ends, at most. */
  function ReaderLeft(pc: ReaderPc): nat {
    match pc
    case PickingReader => 9
    case Holding(_, Reading) => 8
    case Holding(_, Failed) => 7
    case Holding(_, Marking) => 6
    case Holding(_, Signalling) => 5
    case Holding(_, ClosingRegistry) => 4
    case Holding(_, Broadcasting) => 3
    case Holding(_, Parked) => 2
    case AtTop => 1
    case ReaderDone => 0
  }

  /** readLoop can end, whatever the others do not do. */
  lemma {:induction false} ReaderEnds(c: Config, o: State, s: State) returns (n: State)
    requires Leads(Free, c, o, s) && s.cancelled.On?
    ensures Leads(Free, c, o, n) && n.reader.ReaderDone? && n.cancelled.On?
    decreases ReaderLeft(s.reader)
  {
    if s.reader.ReaderDone? { return s; }
    n := Step(Free, c, o, s, Reader(false));
    n := ReaderEnds(c, o, n);
  }

  /** Steps of reconnectLoop before it ends, at most. */
  function LoopLeft(pc: LoopPc): nat {
    match pc
    case LoopDone => 0
    case Selecting => 1
    case Woken => 5
    case Retrying(TopOfRetry) => 2
    case Retrying(BackingOff) => 2
    case Retrying(CheckingCtx) => 2
    case Retrying(ClosingOld) => 3
    case Retrying(Dialing) => 3
    case Retrying(Swapping) => 20
    case Installing(Draining) => 19
    case Installing(Resuming) => 18
    case Installing(Notifying) => 17
    case Installing(HookRunning(h)) => 4 + HookRank(h)
    case Installing(HookMarking) => 4
    case Installing(HookSignalling) => 3
    case Installing(Clearing) => 2
  }

  /** What the loop does once the context is cancelled: it takes every error there is to take. */
  function LastWay(s: State): Action {
    if InHook(s.loop) && Waits(s.loop.w.h) then HookCtx else Loop(false)
  }

  lemma LoopGoesOn(c: Config, s: State)
    requires s.cancelled.On? && !s.loop.LoopDone?
    ensures var a := LastWay(s); Enabled(c, s, a) && var n := Apply(c, s, a);
            LoopLeft(n.loop) < LoopLeft(s.loop) && n.cancelled.On? && n.reader == s.reader
  {}

  /** reconnectLoop can end, even when its hook is stuck or has missed its event. */
  lemma {:induction false} LoopEnds(c: Config, o: State, s: State) returns (n: State)
    requires Leads(Free, c, o, s) && s.cancelled.On?
    ensures Leads(Free, c, o, n) && n.loop.LoopDone? && n.reader == s.reader
    decreases LoopLeft(s.loop)
  {
    if s.loop.LoopDone? { return s; }
    LoopGoesOn(c, s);
    n := Step(Free, c, o, s, LastWay(s));
    n := LoopEnds(c, o, n);
  }

  /** A cancelled client can wind down from every reachable state: no deadlock outlives the cancel. */
  lemma CancelEndsBoth(c: Config, s: State) returns (n: State)
    requires Reachable(c, s)
    ensures var s1 := Apply(c, s, Cancel); Leads(Free, c, s1, n)
    ensures n.reader.ReaderDone? && n.loop.LoopDone?
  {
    var s1 := ReachableStep(c, s, Cancel);
    Start(Free, c, s1);
    n := ReaderEnds(c, s1, s1);
    n := LoopEnds(c, s1, n);
  }

  /** readLoop has not yet found its context alive after a failed read. */
  predicate BeforeMark(pc: ReaderPc) {
    pc.AtTop? || pc.PickingReader? || pc.ReaderDone? || (pc.Holding? && (pc.stage.Reading? || pc.stage.Failed?))
  }

  lemma QuietReaderStays(c: Config, s: State, a: Action)
    requires s.cancelled.On? && BeforeMark(s.reader) && Enabled(c, s, a)
    ensures var n := Apply(c, s, a); n.cancelled.On? && BeforeMark(n.reader) && n.log.lostEvents == s.log.lostEvents
  {
    match a
    case Sender(x) => assert ApplySender(c, s, x).reader == s.reader && ApplySender(c, s, x).log.lostEvents == s.log.lostEvents;
    case _ =>
  }

  /** A read that fails because of the shutdown is not reported as a lost connection, over any schedule. */
  lemma {:induction false} ShutdownIsQuiet(c: Config, s: State, acts: seq<Action>)
    requires s.cancelled.On? && BeforeMark(s.reader) && Legal(c, s, acts)
    ensures Run(c, s, acts).log.lostEvents == s.log.lostEvents && BeforeMark(Run(c, s, acts).reader)
    decreases |acts|
  {
    if acts != [] {
      QuietReaderStays(c, s, acts[0]);
      ShutdownIsQuiet(c, Apply(c, s, acts[0]), acts[1..]);
    }
  }
}
