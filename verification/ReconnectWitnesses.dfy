/** Runs of the code as written that reach the states its comments rule out. */
module ReconnectWitnesses {
  import opened ReconnectProtocol
  import opened ReconnectTheorems
  import opened ReconnectRecovery
  import opened ReconnectRefinement

  const AS_WRITTEN := Config(true, true, false)

  /** A run without a cancel from a new client leads to `s`. */
  ghost predicate Runs(s: State) { Leads(Free, AS_WRITTEN, Init(), s) }

  lemma Go(s: State, a: Action) returns (n: State)
    requires Runs(s) && Enabled(AS_WRITTEN, s, a) && !a.Cancel?
    ensures n == Apply(AS_WRITTEN, s, a) && Runs(n)
  {
    n := Step(Free, AS_WRITTEN, Init(), s, a);
  }

  /** readLoop fails on the connection it reads and goes on to park. */
  lemma ReaderFails(s: State) returns (n: State)
    requires Runs(s) && Attentive(s) && s.cancelled.Off? && OnLoss(OnDrain(s.loop)) == s.loop == OnDrain(s.loop)
    ensures Runs(n)
    ensures n.reader == Holding(s.epoch, Parked) && n.loop == s.loop && n.cancelled.Off? && n.stale.On?
    ensures n.pumpResume == s.pumpResume && n.epoch == s.epoch && n.session == s.session && n.initEvent == s.initEvent
    ensures s.stale.Off? ==> n.reconnCh == 1
  {
    n := Go(s, Reader(false));
    n := Go(n, Reader(true));
    ReachableInv(AS_WRITTEN, n);
    n := Go(n, Reader(true));
    if n.reader.stage.Signalling? { n := Go(n, Reader(true)); }
    n := Go(n, Reader(true));
    n := Go(n, Reader(true));
  }

  /** The first connection breaks. */
  lemma FirstLoss() returns (n: State)
    ensures Runs(n) && n.reader == Holding(0, Parked) && n.loop.Selecting? && n.reconnCh == 1
    ensures n.epoch == 0 && n.cancelled.Off? && n.stale.On?
  {
    InitReachable(AS_WRITTEN);
    Start(Free, AS_WRITTEN, Init());
    n := Go(Init(), Reader(true));
    n := Go(n, Reader(true));
    n := ReaderFails(n);
  }

  /** The second one is installed. */
  lemma Redialled() returns (n: State)
    ensures Runs(n) && n.loop == Installing(Notifying) && n.cancelled.Off? && n.stale.On?
    ensures n.reader == Holding(0, Parked) && n.pumpResume == n.epoch == 1
  {
    n := FirstLoss();
    n := Go(n, Loop(true));
    n := Go(n, Loop(true));
    n := DialAndSwap(Free, AS_WRITTEN, Init(), n);
    n := DrainAndResume(Free, AS_WRITTEN, Init(), n);
  }

  /** readLoop takes the token and reads it. */
  lemma SecondConnection() returns (n: State)
    ensures Runs(n) && n.loop == Installing(Notifying) && n.cancelled.Off? && n.stale.On?
    ensures Attentive(n) && n.pumpResume == 0
  {
    n := Redialled();
    n := Go(n, Reader(true));
    n := Go(n, Reader(true));
    n := Go(n, Reader(true));
  }

  /** A failed hook leaves a client that reports itself healthy, has no initialised session and has
      nobody left to retry. */
  lemma FailedHookWitness() returns (n: State)
    ensures Runs(n) && n.stale.Off? && n.session.HookFailed? && !Owned(n)
  {
    n := SecondConnection();
    n := HookFailsAtOnce(AS_WRITTEN, Init(), n);
    ReachableInv(AS_WRITTEN, n);
  }

  /** A read error after the hook returned nil and before the clear strands readLoop, on a client that has an
      initialised session and is not stale. */
  lemma StrandedReaderWitness() returns (n: State)
    ensures Runs(n) && Stranded(n) && n.reader == Holding(n.epoch, Parked) && n.session.Synced?
  {
    n := SecondConnection();
    n := HookCompletes(Free, AS_WRITTEN, Init(), n);
    n := ReaderFails(n);
    n := Go(n, Loop(true));
    ReachableInv(AS_WRITTEN, n);
  }

  /** A read error just before the hook registers a request whose write still succeeds: the hook waits for a
      response nobody reads, inside doReconnect, for good. */
  lemma StuckRequestWitness() returns (n: State)
    ensures Runs(n) && Stuck(n) && n.loop == Installing(HookRunning(Awaiting(Initialize, Empty)))
    ensures n.reader == Holding(n.epoch, Parked) && n.cancelled.Off? && n.stale.On?
  {
    n := SecondConnection();
    n := Go(n, Loop(true));
    n := ReaderFails(n);
    n := Go(n, Loop(true));
    n := Go(n, Loop(true));
    n := Go(n, Loop(true));
  }

  /** The attach is answered and no InitializedEvent has come yet. */
  lemma Attached() returns (n: State)
    ensures Runs(n) && n.loop == Installing(HookRunning(Awaiting(Attach, Accepted))) && n.initEvent.Off?
    ensures Attentive(n) && n.pumpResume == 0 && n.cancelled.Off? && n.stale.On?
  {
    n := SecondConnection();
    n := Go(n, Loop(true));
    n := RequestAnswered(Free, AS_WRITTEN, Init(), n, Initialize);
    n := Go(n, Loop(true));
    n := RequestAnswered(Free, AS_WRITTEN, Init(), n, Attach);
  }

  /** A read error between the attach response and the subscription: the broadcast is missed, and the hook
      waits for an InitializedEvent that cannot come. */
  lemma StuckEventWitness() returns (n: State)
    ensures Runs(n) && Stuck(n) && n.loop == Installing(HookRunning(Listening(Empty)))
    ensures n.reader == Holding(n.epoch, Parked) && n.cancelled.Off? && n.stale.On?
  {
    n := Attached();
    n := ReaderFails(n);
    n := Go(n, Loop(true));
    n := Go(n, Loop(true));
    n := Go(n, Loop(true));
    n := Go(n, Loop(true));
  }

  /** The InitializedEvent is dispatched after the hook's snapshot. */
  lemma PassedBy() returns (n: State)
    ensures Runs(n) && n.loop == Installing(HookRunning(Snapped(Empty))) && n.initEvent.On?
    ensures n.reader.AtTop? && n.cancelled.Off? && n.stale.On?
  {
    n := Attached();
    n := Go(n, Loop(true));
    n := Go(n, Loop(true));
    n := Go(n, Announce);
  }

  /** The InitializedEvent is dispatched between the hook's snapshot and its subscription: nothing fails, readLoop
      reads the connection, and the hook waits for an event that has passed it by. */
  lemma MissedEventWitness() returns (n: State)
    ensures Runs(n) && Missed(n) && !Stuck(n) && n.loop == Installing(HookRunning(Listening(Empty)))
    ensures Attentive(n) && n.cancelled.Off? && n.stale.On?
  {
    n := PassedBy();
    n := ReaderBack(Free, AS_WRITTEN, Init(), n);
    n := Go(n, Loop(true));
    n := Go(n, Loop(true));
  }

  /** The client is told to reconnect while its connection is up. */
  lemma Forced() returns (n: State)
    ensures Runs(n) && n.loop.Selecting? && n.reconnCh == 1 && Attentive(n)
    ensures n.epoch == 0 && n.cancelled.Off? && n.stale.On?
  {
    InitReachable(AS_WRITTEN);
    Start(Free, AS_WRITTEN, Init());
    n := Go(Init(), Reader(true));
    n := Go(n, Reader(true));
    n := Go(n, Sender(ForceMark(0)));
    n := Go(n, Sender(MarkCas(0)));
    n := Go(n, Sender(MarkSignal(0)));
  }

  /** The new connection is installed before readLoop has drained the registry for the old one. */
  lemma SwappedUnderReader() returns (n: State)
    ensures Runs(n) && n.loop == Installing(HookRunning(Starting(Initialize))) && n.reader == Holding(0, ClosingRegistry)
    ensures n.epoch == 1 && n.cancelled.Off? && n.stale.On? && n.windowError.Off?
  {
    n := Forced();
    n := Go(n, Loop(true));
    n := Go(n, Loop(true));
    n := DialAndSwap(Free, AS_WRITTEN, Init(), n);
    n := DrainAndResume(Free, AS_WRITTEN, Init(), n);
    n := Go(n, Loop(true));
    n := Go(n, Reader(false));
    n := Go(n, Reader(true));
    n := Go(n, Reader(true));
  }

  /** The hook finds its channel closed, fails, and doReconnect clears `stale`. */
  lemma FailsAndClears(s: State) returns (n: State)
    requires Runs(s) && s.loop == Installing(HookRunning(LookingUp(Initialize, Closed))) && s.stale.On?
    ensures Runs(n) && n.stale.Off? && n.session.HookFailed? && n.loop.Selecting?
    ensures n.epoch == s.epoch && n.windowError == s.windowError && n.reader == s.reader
  {
    n := Go(s, Loop(true));
    n := Go(n, Loop(true));
    n := Go(n, Loop(true));
  }

  /** A forced reconnect fails its hook although nothing fails on the new connection: readLoop's drain for the old
      one closes the channel of the hook's first request. */
  lemma LateDrainWitness() returns (n: State)
    ensures Runs(n) && n.stale.Off? && n.session.HookFailed? && !Owned(n)
    ensures n.epoch == 1 && n.windowError.Off? && n.reader == Holding(0, Broadcasting)
  {
    n := SwappedUnderReader();
    n := Go(n, Loop(true));
    n := Go(n, Loop(true));
    n := Go(n, Reader(true));
    n := FailsAndClears(n);
    ReachableInv(AS_WRITTEN, n);
  }
}
