/** Safety and recovery of the reconnect protocol, for every schedule of any number of senders. */
module ReconnectTheorems {
  import opened ReconnectProtocol

  /** Won the compare-and-swap and not yet sent the wakeup. */
  predicate Signaller(s: State) { s.marking != {} || IsSignalling(s.reader) }

  /** A wakeup was asked for and has not reached doReconnect. */
  predicate Waiting(s: State) { Signaller(s) || s.reconnCh > 0 || s.loop.Woken? }

  /** Somebody is responsible for a reconnect that was asked for and is not finished. */
  predicate Owned(s: State) { Waiting(s) || Reconnecting(s.loop) || s.abandoned.On? }

  /** At most one party holds the responsibility. */
  predicate OneOwner(s: State) {
    && (forall t, u :: t in s.marking && u in s.marking ==> t == u)
    && (s.marking != {} ==> !IsSignalling(s.reader))
    && (Signaller(s) ==> s.reconnCh == 0)
    && (Signaller(s) || s.reconnCh > 0 ==> !s.loop.Woken? && !Reconnecting(s.loop) && !s.abandoned.On?)
    && (s.abandoned.On? ==> !s.loop.Woken? && !Reconnecting(s.loop))
    && s.reconnCh <= 1
    && s.loop != Installing(HookSignalling)
  }

  predicate Ownership(c: Config, s: State) {
    && (s.stale.On? <==> Owned(s))
    && OneOwner(s)
    && s.log.bufferFull == 0
    && s.log.stalePeriods == s.log.reconnects + (if Waiting(s) || (s.abandoned.On? && !c.hasBackend) then 1 else 0)
    && s.log.reconnects == s.log.clears + (if Reconnecting(s.loop) || (s.abandoned.On? && c.hasBackend) then 1 else 0)
    && (s.abandoned.On? && c.hasBackend ==> s.cancelled.On?)
    && (s.loop.LoopDone? ==> s.cancelled.On? || s.abandoned.On?)
    && (!c.hasBackend ==> !Reconnecting(s.loop))
  }

  predicate Pump(s: State) {
    && (s.reader.Holding? ==> s.reader.e <= s.epoch)
    && (s.reader.Holding? && s.reader.e < s.epoch ==> s.pumpResume == 1 || TokenOnItsWay(s.loop))
    && s.pumpResume <= 1
    && s.log.resumes + s.pumpResume + (if TokenOnItsWay(s.loop) then 1 else 0) <= s.epoch
    && (s.reader.ReaderDone? ==> s.cancelled.On?)
    && s.log.lostEvents <= s.log.resumes + 1
    && (!s.reader.ReaderDone? ==> s.log.lostEvents == s.log.resumes + (if IsParked(s.reader) then 1 else 0))
  }

  /** replaceConn has swapped the connection and not yet sent on pumpResume. */
  predicate TokenOnItsWay(pc: LoopPc) { pc.Installing? && (pc.w.Draining? || pc.w.Resuming?) }

  predicate Window(s: State) {
    && (s.loop.Installing? && PastCas(s.reader, s.epoch) ==> s.windowError.On?)
    && (PastCas(s.reader, s.epoch) && !s.stale.On? ==> s.windowError.On?)
  }

  /** The connection is swapped and its hook has not returned. */
  predicate HookPending(pc: LoopPc) { TokenOnItsWay(pc) || (pc.Installing? && (pc.w.Notifying? || pc.w.HookRunning?)) }

  predicate Hook(c: Config, s: State) {
    && (c.hookWired ==> s.log.hookRuns + (if HookPending(s.loop) && !s.loop.w.HookRunning? then 1 else 0) == s.epoch)
    && (!c.hookWired ==> s.log.hookRuns == s.log.hookErrors == 0 && !InHook(s.loop))
    && (HookPending(s.loop) <==> s.session.Fresh?)
    && (s.loop.Installing? && s.loop.w.HookMarking? ==> s.session.HookFailed? && !c.retryFailedHook)
    && (c.retryFailedHook && (s.loop == Installing(Clearing) || !s.stale.On?) ==> s.session.Synced?)
    && (s.log.hookErrors == 0 ==> !s.session.HookFailed?)
  }

  predicate Inv(c: Config, s: State) {
    Ownership(c, s) && Pump(s) && Window(s) && Hook(c, s)
  }

  lemma SenderKeepsOwnership(c: Config, s: State, a: SenderStep)
    requires Ownership(c, s) && SenderEnabled(c, s, a)
    ensures Ownership(c, ApplySender(c, s, a))
  {}

  lemma SenderKeepsRest(c: Config, s: State, a: SenderStep)
    requires Inv(c, s) && SenderEnabled(c, s, a)
    ensures var n := ApplySender(c, s, a); Pump(n) && Window(n) && Hook(c, n)
  {}

  lemma HoldingKeepsOwnership(c: Config, s: State, ok: bool)
    requires Ownership(c, s) && s.reader.Holding? && ReaderEnabled(s, ok)
    ensures Ownership(c, ApplyHolding(s, s.reader.e, s.reader.stage, ok))
  {}

  lemma HoldingKeepsWindow(s: State, ok: bool)
    requires Window(s) && s.reader.Holding? && ReaderEnabled(s, ok)
    requires s.loop.Installing? ==> s.stale.On?
    ensures Window(ApplyHolding(s, s.reader.e, s.reader.stage, ok))
  {}

  lemma HoldingKeepsPump(s: State, ok: bool)
    requires Pump(s) && s.reader.Holding? && ReaderEnabled(s, ok)
    ensures Pump(ApplyHolding(s, s.reader.e, s.reader.stage, ok))
  {}

  lemma HoldingKeepsHook(c: Config, s: State, ok: bool)
    requires Hook(c, s) && s.reader.Holding? && ReaderEnabled(s, ok)
    ensures Hook(c, ApplyHolding(s, s.reader.e, s.reader.stage, ok))
  {}

  lemma ReaderKeepsInv(c: Config, s: State, ok: bool)
    requires Inv(c, s) && ReaderEnabled(s, ok)
    ensures Inv(c, ApplyReader(s, ok))
  {
    if s.reader.Holding? {
      HoldingKeepsOwnership(c, s, ok);
      HoldingKeepsWindow(s, ok);
      HoldingKeepsPump(s, ok);
      HoldingKeepsHook(c, s, ok);
    }
  }

  lemma RetryKeepsOwnership(c: Config, s: State, ok: bool)
    requires Ownership(c, s) && s.loop.Retrying? && LoopEnabled(s, ok)
    ensures Ownership(c, ApplyRetry(s, s.loop.r, ok))
  {}

  lemma RetryKeepsRest(c: Config, s: State, ok: bool)
    requires Inv(c, s) && s.loop.Retrying? && LoopEnabled(s, ok)
    ensures var n := ApplyRetry(s, s.loop.r, ok); Pump(n) && Window(n) && Hook(c, n)
  {}

  lemma WindowKeepsOwnership(c: Config, s: State, ok: bool)
    requires Ownership(c, s) && s.loop.Installing? && !InHook(s.loop)
    ensures Ownership(c, ApplyWindow(c, s, s.loop.w, ok))
  {}

  lemma WindowKeepsPump(c: Config, s: State, ok: bool)
    requires Pump(s) && s.loop.Installing? && !InHook(s.loop)
    ensures Pump(ApplyWindow(c, s, s.loop.w, ok))
  {}

  lemma WindowKeepsRest(c: Config, s: State, ok: bool)
    requires Inv(c, s) && s.loop.Installing? && !InHook(s.loop)
    ensures var n := ApplyWindow(c, s, s.loop.w, ok); Window(n) && Hook(c, n)
  {}

  /** What the steps of the hook and of its messages leave alone. */
  predicate SameBut(s: State, n: State) {
    && n == s.(loop := n.loop, reader := n.reader, session := n.session, initEvent := n.initEvent, log := n.log)
    && n.log == s.log.(hookErrors := n.log.hookErrors)
    && (n.reader == s.reader || n.reader.AtTop?)
  }

  /** Where the hook can go: on, out with an error, or out with nil. */
  predicate HookMoves(c: Config, s: State, n: State) {
    && SameBut(s, n)
    && (|| (InHook(n.loop) && n.session == s.session && n.log == s.log)
        || (n.session.HookFailed? && n.log.hookErrors == s.log.hookErrors + 1
            && n.loop == if c.retryFailedHook then Retrying(TopOfRetry) else Installing(HookMarking))
        || (n.session.Synced? && n.log == s.log && n.loop == Installing(Clearing)))
  }

  lemma HookStepMoves(c: Config, s: State, a: Action)
    requires Enabled(c, s, a) && InHook(s.loop) && (a.Loop? || a.HookCtx?)
    ensures HookMoves(c, s, Apply(c, s, a)) && Apply(c, s, a).reader == s.reader
  {}

  lemma MessageMoves(c: Config, s: State, a: Action)
    requires Enabled(c, s, a) && (a.Answer? || a.Announce?)
    ensures InHook(s.loop) && HookMoves(c, s, Apply(c, s, a)) && s.reader == Holding(s.epoch, Reading)
    ensures Apply(c, s, a).reader.AtTop?
  {}

  lemma MoveKeepsOwnership(c: Config, s: State, n: State)
    requires Ownership(c, s) && InHook(s.loop) && HookMoves(c, s, n)
    requires n.reader == s.reader || (s.reader == Holding(s.epoch, Reading) && n.reader.AtTop?)
    ensures Ownership(c, n)
  {}

  lemma MoveKeepsRest(c: Config, s: State, n: State)
    requires Inv(c, s) && InHook(s.loop) && HookMoves(c, s, n)
    requires n.reader == s.reader || (s.reader == Holding(s.epoch, Reading) && n.reader.AtTop?)
    ensures Pump(n) && Window(n) && Hook(c, n)
  {}

  lemma HookKeepsInv(c: Config, s: State, a: Action)
    requires Inv(c, s) && Enabled(c, s, a) && InHook(s.loop)
    requires a.Loop? || a.HookCtx? || a.Answer? || a.Announce?
    ensures Inv(c, Apply(c, s, a))
  {
    if a.Loop? || a.HookCtx? { HookStepMoves(c, s, a); } else { MessageMoves(c, s, a); }
    MoveKeepsOwnership(c, s, Apply(c, s, a));
    MoveKeepsRest(c, s, Apply(c, s, a));
  }

  lemma LoopKeepsOwnership(c: Config, s: State, ok: bool)
    requires Ownership(c, s) && LoopEnabled(s, ok) && !Reconnecting(s.loop)
    ensures Ownership(c, ApplyLoop(c, s, ok))
  {}

  lemma LoopKeepsRest(c: Config, s: State, ok: bool)
    requires Inv(c, s) && LoopEnabled(s, ok) && !Reconnecting(s.loop)
    ensures var n := ApplyLoop(c, s, ok); Pump(n) && Window(n) && Hook(c, n)
  {}

  lemma LoopKeepsInv(c: Config, s: State, ok: bool)
    requires Inv(c, s) && LoopEnabled(s, ok)
    ensures Inv(c, ApplyLoop(c, s, ok))
  {
    match s.loop
    case Retrying(_) => RetryKeepsOwnership(c, s, ok); RetryKeepsRest(c, s, ok);
    case Installing(_) =>
      if InHook(s.loop) {
        HookKeepsInv(c, s, Loop(ok));
      } else {
        WindowKeepsOwnership(c, s, ok);
        WindowKeepsPump(c, s, ok);
        WindowKeepsRest(c, s, ok);
      }
    case _ => LoopKeepsOwnership(c, s, ok); LoopKeepsRest(c, s, ok);
  }

  lemma StepKeepsInv(c: Config, s: State, a: Action)
    requires Inv(c, s) && Enabled(c, s, a)
    ensures Inv(c, Apply(c, s, a))
  {
    match a
    case Sender(x) => SenderKeepsOwnership(c, s, x); SenderKeepsRest(c, s, x);
    case Reader(ok) => ReaderKeepsInv(c, s, ok);
    case Loop(ok) => LoopKeepsInv(c, s, ok);
    case Cancel =>
    case _ => HookKeepsInv(c, s, a);
  }

  lemma {:induction false} RunKeepsInv(c: Config, s: State, acts: seq<Action>)
    requires Inv(c, s) && Legal(c, s, acts)
    ensures Inv(c, Run(c, s, acts))
    decreases |acts|
  {
    if acts != [] {
      StepKeepsInv(c, s, acts[0]);
      RunKeepsInv(c, Apply(c, s, acts[0]), acts[1..]);
    }
  }

  lemma InitInv(c: Config)
    ensures Inv(c, Init())
  {
    assert Ownership(c, Init()) && Pump(Init());
  }

  lemma ReachableInv(c: Config, s: State)
    requires Reachable(c, s)
    ensures Inv(c, s)
  {
    var acts :| Legal(c, Init(), acts) && Run(c, Init(), acts) == s;
    InitInv(c);
    RunKeepsInv(c, Init(), acts);
  }

  // ---------------------------------------------------------------- ownership

  /** `stale` is raised exactly while one party, and only one, is responsible for the reconnect. */
  lemma StaleHasExactlyOneOwner(c: Config, s: State)
    requires Reachable(c, s)
    ensures s.stale.On? <==>
            s.marking != {} || IsSignalling(s.reader) || s.reconnCh == 1
            || s.loop.Woken? || Reconnecting(s.loop) || s.abandoned.On?
    ensures OneOwner(s)
    ensures s.abandoned.On? ==> !c.hasBackend || s.cancelled.On?
    ensures s.log.bufferFull == 0
  {
    ReachableInv(c, s);
  }

  /** No wakeup is lost and none is doubled while the client is open and can redial. */
  lemma OneReconnectPerStalePeriod(c: Config, s: State)
    requires Reachable(c, s) && c.hasBackend && !s.cancelled.On?
    ensures s.log.stalePeriods == s.log.clears + (if s.stale.On? then 1 else 0)
    ensures s.log.reconnects == s.log.clears + (if Reconnecting(s.loop) then 1 else 0)
    ensures s.stale.On? && !Reconnecting(s.loop) ==>
              s.marking != {} || IsSignalling(s.reader) || s.reconnCh == 1 || s.loop.Woken?
  {
    ReachableInv(c, s);
  }

  /** Somebody of an open client that can redial is on the way to the reconnect. */
  predicate ReconnectComing(s: State) {
    s.marking != {} || IsSignalling(s.reader) || s.reconnCh == 1 || s.loop.Woken? || Reconnecting(s.loop)
  }

  /** A failed write asks for a reconnect: its sender goes on to markStale, after which the client is stale and, if
      it is open and can redial, a reconnect is coming. */
  lemma FailedSendAsksForReconnect(c: Config, s: State, t: nat)
    requires Reachable(c, s) && Enabled(c, s, Sender(WriteFail(t)))
    ensures var n := Apply(c, s, Sender(WriteFail(t)));
            && t !in n.inFlight && t in n.toMark && n.stale == s.stale
            && (t in n.marking ==> n.stale.On?)
            && (t !in n.marking ==> MarkingWorks(c, n, t))
  {
    ReachableInv(c, s);
    var n := ReachableStep(c, s, Sender(WriteFail(t)));
    if t !in n.marking { MarkWorks(c, n, t); }
  }

  /** The caller `t` of markStale can do its compare-and-swap, and afterwards the client is stale with a reconnect
      coming. */
  predicate MarkingWorks(c: Config, s: State, t: nat) {
    && Enabled(c, s, Sender(MarkCas(t)))
    && var n := Apply(c, s, Sender(MarkCas(t)));
       n.stale.On? && t !in n.toMark && (c.hasBackend && s.cancelled.Off? ==> ReconnectComing(n))
  }

  lemma MarkWorks(c: Config, s: State, t: nat)
    requires Reachable(c, s) && t in s.toMark && t !in s.marking
    ensures MarkingWorks(c, s, t)
  {
    ReachableInv(c, s);
    StepKeepsInv(c, s, Sender(MarkCas(t)));
  }

  /** The reconnect tool can mark a client at any time, and gets the same. */
  lemma ForcedMarkAsksForReconnect(c: Config, s: State, t: nat)
    requires Reachable(c, s) && c.hasBackend && t !in s.toMark && t !in s.marking
    ensures Enabled(c, s, Sender(ForceMark(t))) && MarkingWorks(c, Apply(c, s, Sender(ForceMark(t))), t)
  {
    var n := ReachableStep(c, s, Sender(ForceMark(t)));
    MarkWorks(c, n, t);
  }

  /** A send is let through if and only if the client is not stale, and one that succeeds leaves the client as it
      was; one that is refused is only counted. */
  lemma SendIsTransparent(c: Config, s: State, t: nat)
    requires t !in s.inFlight
    ensures Enabled(c, s, Sender(SendTest(t)))
    ensures var n := Apply(c, s, Sender(SendTest(t)));
            && (t in n.inFlight <==> s.stale.Off?)
            && (s.stale.Off? ==> Enabled(c, n, Sender(WriteOk(t))) && Enabled(c, n, Sender(WriteFail(t))) == (t !in s.toMark))
            && (s.stale.Off? ==> Apply(c, n, Sender(WriteOk(t))) == s)
            && (s.stale.On? ==> n == s.(log := n.log) && n.log.refused == s.log.refused + 1)
  {
    var n := Apply(c, s, Sender(SendTest(t)));
    if s.stale.Off? { assert s.inFlight + {t} - {t} == s.inFlight; }
  }

  // ------------------------------------------------------------- the parked reader

  /** A reader left behind on a replaced connection always has a wakeup stored or on its way. */
  lemma ParkedReaderIsNotForgotten(c: Config, s: State)
    requires Reachable(c, s) && IsParked(s.reader) && s.reader.e != s.epoch
    ensures s.pumpResume == 1 || TokenOnItsWay(s.loop)
  {
    ReachableInv(c, s);
  }

  lemma LostEventsBoundedBySwaps(c: Config, s: State)
    requires Reachable(c, s)
    ensures s.log.resumes <= s.epoch
    ensures s.log.lostEvents <= s.epoch + 1
  {
    ReachableInv(c, s);
  }

  /** readLoop has failed on the current connection of an open client, `stale` is down, no token is stored to
      wake it, and nobody is going to reconnect. */
  predicate Stranded(s: State) {
    PastCas(s.reader, s.epoch) && s.pumpResume == 0 && s.stale.Off? && s.cancelled.Off? && !Owned(s)
  }

  /** A reader parked on the current connection of an open client has a reconnect coming, has a token stored,
      or is stranded; and without a read error between the swap and the clear a reconnect is coming. */
  lemma ParkedReaderIsRecovered(c: Config, s: State)
    requires Reachable(c, s) && IsParked(s.reader) && s.reader.e == s.epoch && s.cancelled.Off?
    ensures Stranded(s) <==> s.stale.Off? && s.pumpResume == 0
    ensures s.windowError.Off? ==> s.stale.On?
    ensures s.stale.On? && c.hasBackend ==>
              s.marking != {} || s.reconnCh == 1 || s.loop.Woken? || Reconnecting(s.loop)
  {
    ReachableInv(c, s);
  }

  /** The store of false strands the reader exactly when it had already failed on the new connection and had
      taken the token of the swap; that takes a read error between the swap and the clear. */
  lemma ClearStrandsFailedReader(c: Config, s: State)
    requires Reachable(c, s) && s.loop == Installing(Clearing) && s.cancelled.Off?
    ensures Stranded(Apply(c, s, Loop(true))) <==> PastCas(s.reader, s.epoch) && s.pumpResume == 0
    ensures PastCas(s.reader, s.epoch) ==> s.windowError.On?
  {
    ReachableInv(c, s);
  }

  /** Nothing else strands it, and once stranded only a caller that marks the client stale, or a cancel, ends
      that: until then readLoop reads nothing. */
  lemma StrandedByClearOnly(c: Config, s: State, a: Action)
    requires Reachable(c, s) && Enabled(c, s, a)
    ensures !Stranded(s) && Stranded(Apply(c, s, a)) ==> a.Loop? && s.loop == Installing(Clearing)
    ensures Stranded(s) ==> (Stranded(Apply(c, s, a)) <==> !a.Cancel? && !(a.Sender? && a.step.MarkCas?))
  {
    ReachableInv(c, s);
    StepKeepsInv(c, s, a);
    match a
    case Sender(x) => StrandedSender(c, s, x);
    case Reader(ok) => StrandedReader(c, s, ok);
    case Loop(ok) => if s.loop != Installing(Clearing) { StrandedLoop(c, s, ok); }
    case _ =>
  }

  lemma StrandedSender(c: Config, s: State, x: SenderStep)
    requires Inv(c, s) && SenderEnabled(c, s, x)
    ensures Stranded(ApplySender(c, s, x)) <==> Stranded(s) && !x.MarkCas?
  {}

  lemma StrandedReader(c: Config, s: State, ok: bool)
    requires Inv(c, s) && ReaderEnabled(s, ok)
    ensures Stranded(ApplyReader(s, ok)) <==> Stranded(s)
  {}

  lemma StrandedLoop(c: Config, s: State, ok: bool)
    requires Inv(c, s) && LoopEnabled(s, ok) && s.loop != Installing(Clearing)
    ensures Stranded(ApplyLoop(c, s, ok)) <==> Stranded(s)
  {}

  /** A schedule in which nobody marks the client stale and nobody cancels it. */
  predicate Undisturbed(acts: seq<Action>) {
    forall i :: 0 <= i < |acts| ==> !acts[i].Cancel? && !(acts[i].Sender? && acts[i].step.MarkCas?)
  }

  /** Stranded for as long as nobody interferes. */
  lemma {:induction false} StrandedForGood(c: Config, s: State, acts: seq<Action>)
    requires Reachable(c, s) && Stranded(s) && Legal(c, s, acts) && Undisturbed(acts)
    ensures Stranded(Run(c, s, acts))
    decreases |acts|
  {
    if acts != [] {
      StrandedByClearOnly(c, s, acts[0]);
      var next := ReachableStep(c, s, acts[0]);
      StrandedForGood(c, next, acts[1..]);
    }
  }

  // ------------------------------------------------------------------ stale gate

  lemma OnlyClearLowersStale(c: Config, s: State, a: Action)
    requires Enabled(c, s, a) && s.stale.On?
    ensures Apply(c, s, a).stale.On? || (a.Loop? && s.loop == Installing(Clearing))
  {
    match a
    case Sender(x) => assert ApplySender(c, s, x).stale.On?;
    case Reader(x) => assert ApplyReader(s, x).stale.On?;
    case Loop(x) => assert s.loop == Installing(Clearing) || ApplyLoop(c, s, x).stale.On?;
    case _ =>
  }

  /** Only the store at the end of doReconnect lowers `stale`; by then every swap has had its hook
      run exactly once and that run has returned. */
  lemma StaleFallsAfterHook(c: Config, s: State, a: Action)
    requires Reachable(c, s) && Enabled(c, s, a)
    requires s.stale.On? && !Apply(c, s, a).stale.On?
    ensures a.Loop? && s.loop == Installing(Clearing)
    ensures c.hookWired ==> s.log.hookRuns == s.epoch
    ensures !s.session.Fresh?
    ensures c.retryFailedHook ==> s.session.Synced?
  {
    OnlyClearLowersStale(c, s, a);
    ReachableInv(c, s);
  }

  /** A checked send whose test falls between the swap and the clear is refused and changes nothing else. */
  lemma SendRefusedInWindow(c: Config, s: State, t: nat)
    requires Reachable(c, s) && s.loop.Installing? && Enabled(c, s, Sender(SendTest(t)))
    ensures Apply(c, s, Sender(SendTest(t))) == s.(log := s.log.(refused := s.log.refused + 1))
  {
    ReachableInv(c, s);
  }

  /** markStale after a hook error changes nothing: it cannot win its compare-and-swap. */
  lemma MarkAfterHookErrorIsIdle(c: Config, s: State)
    requires Reachable(c, s)
    ensures s.loop != Installing(HookSignalling)
    ensures s.loop == Installing(HookMarking) ==> Apply(c, s, Loop(true)) == s.(loop := Installing(Clearing))
  {
    ReachableInv(c, s);
  }

  /** After doReconnect the session is initialised exactly when the hook did not fail; when it failed,
      nobody is left to retry.  A loop that clears only after a nil hook always leaves it initialised. */
  lemma FailedHookIsNotRetried(c: Config, s: State)
    requires Reachable(c, s) && s.loop == Installing(Clearing)
    ensures var next := Apply(c, s, Loop(true));
            && !next.stale.On? && !Owned(next)
            && (next.session.Synced? <==> !s.session.HookFailed?)
            && (c.retryFailedHook ==> next.session.Synced?)
  {
    ReachableInv(c, s);
  }

  /** With the corrected loop, a client that is not stale has an initialised session, in every run;
      with the code as written, in every run whose hooks all succeeded. */
  lemma HealthyMeansSynced(c: Config, s: State)
    requires Reachable(c, s) && !s.stale.On?
    requires c.retryFailedHook || s.log.hookErrors == 0
    ensures s.session.Synced?
  {
    ReachableInv(c, s);
  }
}
