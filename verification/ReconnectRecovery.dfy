/**
  Recovery: exactly when a client can become healthy again without a cancel, and the two kinds of states in
  which it cannot, because the hook waits for a message that nobody is left to read or that has passed it by.
  */
module ReconnectRecovery {
  import opened ReconnectProtocol
  import opened ReconnectTheorems

  // ------------------------------------------------------------------- continuations

  /** readLoop reads the current connection. */
  predicate Attentive(s: State) { s.reader == Holding(s.epoch, Reading) }

  /** What the environment may do.  Free: anything but a cancel.  Calm: the current connection is not lost, and one
      InitializedEvent comes per attach.  Benign: also no write on it fails and no request is rejected. */
  datatype Class = Free | Calm | Benign

  predicate Allowed(k: Class, s: State, a: Action) {
    && !a.Cancel?
    && (!k.Free? ==> !(a == Reader(false) && Attentive(s)) && (a.Announce? ==> s.initEvent.Off?))
    && (k.Benign? ==> a != Answer(false) && !(a == Loop(false) && InHook(s.loop) && s.loop.w.h.Writing?))
  }

  /** A schedule within the class. */
  predicate Within(k: Class, c: Config, s: State, acts: seq<Action>)
    requires Legal(c, s, acts)
    decreases |acts|
  {
    acts == [] || (Allowed(k, s, acts[0]) && Within(k, c, Apply(c, s, acts[0]), acts[1..]))
  }

  /** The reachable state `s` is reached from `o` by a schedule within the class. */
  ghost predicate Leads(k: Class, c: Config, o: State, s: State) {
    Reachable(c, s) && exists acts :: Legal(c, o, acts) && Within(k, c, o, acts) && Run(c, o, acts) == s
  }

  lemma Start(k: Class, c: Config, s: State)
    requires Reachable(c, s)
    ensures Leads(k, c, s, s)
  {
    assert Legal(c, s, []) && Within(k, c, s, []) && Run(c, s, []) == s;
  }

  lemma {:induction false} WithinThenStep(k: Class, c: Config, s: State, acts: seq<Action>, a: Action)
    requires Legal(c, s, acts) && Within(k, c, s, acts)
    requires Enabled(c, Run(c, s, acts), a) && Allowed(k, Run(c, s, acts), a)
    ensures Legal(c, s, acts + [a]) && Within(k, c, s, acts + [a])
    decreases |acts|
  {
    RunThenStep(c, s, acts, a);
    if acts == [] {
      assert Legal(c, Apply(c, s, a), []) && ([a])[1..] == [];
    } else {
      WithinThenStep(k, c, Apply(c, s, acts[0]), acts[1..], a);
      assert (acts + [a])[1..] == acts[1..] + [a];
    }
  }

  lemma Step(k: Class, c: Config, o: State, s: State, a: Action) returns (n: State)
    requires Leads(k, c, o, s) && Enabled(c, s, a) && Allowed(k, s, a)
    ensures n == Apply(c, s, a) && Leads(k, c, o, n)
  {
    n := ReachableStep(c, s, a);
    var acts :| Legal(c, o, acts) && Within(k, c, o, acts) && Run(c, o, acts) == s;
    RunThenStep(c, o, acts, a);
    WithinThenStep(k, c, o, acts, a);
  }

  /** The loop goroutine moves. */
  lemma LoopStep(k: Class, c: Config, o: State, s: State, ok: bool) returns (n: State)
    requires Leads(k, c, o, s) && LoopEnabled(s, ok) && Allowed(k, s, Loop(ok))
    ensures n == ApplyLoop(c, s, ok) && Leads(k, c, o, n)
  {
    n := Step(k, c, o, s, Loop(ok));
  }

  // ------------------------------------------------------------------ the way to the hook

  /** A good dial up to the swap, with the context alive. */
  lemma DialAndSwap(k: Class, c: Config, o: State, s: State) returns (n: State)
    requires Leads(k, c, o, s) && s.loop == Retrying(TopOfRetry) && s.cancelled.Off?
    ensures Leads(k, c, o, n)
    ensures n == s.(loop := Installing(Draining), epoch := s.epoch + 1, session := Fresh, windowError := Off)
  {
    n := LoopStep(k, c, o, s, true);
    n := LoopStep(k, c, o, n, true);
    n := LoopStep(k, c, o, n, true);
    n := LoopStep(k, c, o, n, true);
    n := LoopStep(k, c, o, n, true);
  }

  /** The drain and the token of replaceConn. */
  lemma DrainAndResume(k: Class, c: Config, o: State, s: State) returns (n: State)
    requires Leads(k, c, o, s) && s.loop == Installing(Draining)
    ensures Leads(k, c, o, n) && n == s.(loop := Installing(Notifying), pumpResume := 1)
  {
    n := LoopStep(k, c, o, s, true);
    n := LoopStep(k, c, o, n, true);
  }

  /** The reconnect is asked for or under way, and its hook has not begun. */
  predicate BeforeHook(s: State) {
    s.stale.On? && s.cancelled.Off? && (s.loop.Installing? ==> TokenOnItsWay(s.loop) || s.loop.w.Notifying?)
  }

  /** Steps the owner still has to take before the hook, at most. */
  function Rank(s: State): nat {
    if s.marking != {} || IsSignalling(s.reader) then 11
    else if s.reconnCh > 0 then 10
    else match s.loop
      case Woken => 9
      case Retrying(BackingOff) => 8
      case Retrying(TopOfRetry) => 7
      case Retrying(Dialing) => 6
      case Retrying(ClosingOld) => 5
      case Retrying(CheckingCtx) => 4
      case Retrying(Swapping) => 3
      case Installing(Draining) => 2
      case Installing(Resuming) => 1
      case _ => 0
  }

  lemma SignallerCanMove(c: Config, s: State) returns (a: Action)
    requires Ownership(c, s) && c.hasBackend && BeforeHook(s)
    requires s.marking != {} || IsSignalling(s.reader) || s.reconnCh > 0
    ensures Enabled(c, s, a) && Allowed(Benign, s, a) && BeforeHook(Apply(c, s, a)) && Rank(Apply(c, s, a)) < Rank(s)
  {
    if s.marking != {} {
      var t :| t in s.marking;
      assert s.marking == {t};
      return Sender(MarkSignal(t));
    }
    if IsSignalling(s.reader) { return Reader(true); }
    a := Loop(true);
  }

  lemma LoopCanMove(c: Config, s: State)
    requires Ownership(c, s) && c.hasBackend && BeforeHook(s) && s.loop != Installing(Notifying)
    requires s.marking == {} && !IsSignalling(s.reader) && s.reconnCh == 0
    ensures LoopEnabled(s, true)
    ensures BeforeHook(ApplyLoop(c, s, true)) && Rank(ApplyLoop(c, s, true)) < Rank(s)
  {}

  /** Whoever owns the reconnect can bring the client to a new connection. */
  lemma {:induction false} OwnerInstalls(k: Class, c: Config, o: State, s: State) returns (n: State)
    requires Leads(k, c, o, s) && c.hasBackend && BeforeHook(s) && (s.loop == Installing(Notifying) ==> s.pumpResume == 1)
    ensures Leads(k, c, o, n) && BeforeHook(n) && n.loop == Installing(Notifying) && n.pumpResume == 1
    decreases Rank(s)
  {
    ReachableInv(c, s);
    if s.loop == Installing(Notifying) { return s; }
    var a := Loop(true);
    if s.marking != {} || IsSignalling(s.reader) || s.reconnCh > 0 {
      a := SignallerCanMove(c, s);
    } else {
      LoopCanMove(c, s);
    }
    n := Step(k, c, o, s, a);
    n := OwnerInstalls(k, c, o, n);
  }

  // ------------------------------------------------------------------ the reader's way

  /** Steps of readLoop before it drains or parks for good, at most. */
  function ReaderRank(s: State): nat {
    10 * s.pumpResume
    + match s.reader
      case AtTop => 7
      case PickingReader => 6
      case Holding(_, Reading) => 5
      case Holding(_, Failed) => 4
      case Holding(_, Marking) => 3
      case Holding(_, ClosingRegistry) => 2
      case Holding(_, Broadcasting) => 1
      case _ => 0
  }

  /** After a swap readLoop can get to read the new connection. */
  lemma {:induction false} ReaderCatchesUp(k: Class, c: Config, o: State, s: State) returns (n: State)
    requires Leads(k, c, o, s) && s.loop == Installing(Notifying) && s.stale.On? && s.cancelled.Off?
    requires s.pumpResume == 1 || s.reader.AtTop? || s.reader.PickingReader? || Attentive(s)
    ensures Leads(k, c, o, n) && Attentive(n) && n.loop == s.loop && n.stale.On? && n.cancelled.Off?
    ensures n.epoch == s.epoch && n.abandoned == s.abandoned && n.log.hookRuns == s.log.hookRuns
    decreases ReaderRank(s)
  {
    ReachableInv(c, s);
    if Attentive(s) { return s; }
    n := Step(k, c, o, s, Reader(!(s.reader.Holding? && s.reader.stage.Reading?)));
    n := ReaderCatchesUp(k, c, o, n);
  }

  /** readLoop fails on the current connection and gets past markStale. */
  lemma ReadErrorMarks(c: Config, o: State, s: State) returns (n: State)
    requires Leads(Free, c, o, s) && Attentive(s) && s.cancelled.Off?
    ensures Leads(Free, c, o, n) && n.reader == Holding(s.epoch, ClosingRegistry) && n.epoch == s.epoch
    ensures n.stale.On? && n.cancelled.Off? && n.loop == s.loop && n.pumpResume == s.pumpResume
    ensures n.log.lostEvents == s.log.lostEvents
  {
    n := Step(Free, c, o, s, Reader(false));
    n := Step(Free, c, o, n, Reader(true));
    ReachableInv(c, n);
    n := Step(Free, c, o, n, Reader(true));
    if n.reader.stage.Signalling? { n := Step(Free, c, o, n, Reader(true)); }
  }

  /** A read error on the current connection of an open client: readLoop can go on by itself to mark it stale, drain
      the registry, broadcast the loss once, and park; a reconnect is then coming if the client can redial. */
  lemma FailedReadAsksForReconnect(c: Config, s: State) returns (n: State)
    requires Reachable(c, s) && Attentive(s) && s.cancelled.Off?
    ensures Leads(Free, c, s, n) && n.reader == Holding(s.epoch, Parked) && n.epoch == s.epoch && n.cancelled.Off?
    ensures n.stale.On? && n.log.lostEvents == s.log.lostEvents + 1 && n.pumpResume == s.pumpResume
    ensures c.hasBackend ==> ReconnectComing(n)
    ensures InHook(s.loop) ==> InHook(n.loop) && !Unanswered(n.loop.w.h) && n.loop.w.h != Listening(Empty)
  {
    Start(Free, c, s);
    n := ReadErrorMarks(c, s, s);
    n := Step(Free, c, s, n, Reader(true));
    n := Step(Free, c, s, n, Reader(true));
    ReachableInv(c, n);
  }

  // ------------------------------------------------------------------ the hook's way

  function AtHook(s: State, h: HookPc): State { s.(loop := Installing(HookRunning(h))) }

  /** readLoop goes back to reading. */
  lemma ReaderBack(k: Class, c: Config, o: State, s: State) returns (n: State)
    requires Leads(k, c, o, s) && s.reader.AtTop? && s.cancelled.Off?
    ensures Leads(k, c, o, n) && n == s.(reader := Holding(s.epoch, Reading))
  {
    n := Step(k, c, o, s, Reader(true));
    n := Step(k, c, o, n, Reader(true));
  }

  /** One request of the hook is answered by an attentive reader. */
  lemma RequestAnswered(k: Class, c: Config, o: State, s: State, p: Place) returns (n: State)
    requires Leads(k, c, o, s) && s.loop == Installing(HookRunning(Starting(p))) && Attentive(s) && s.cancelled.Off?
    ensures Leads(k, c, o, n)
    ensures n == AtHook(s, Awaiting(p, Accepted)).(initEvent := if p.Attach? then Off else s.initEvent)
  {
    n := LoopStep(k, c, o, s, true);
    n := LoopStep(k, c, o, n, true);
    n := LoopStep(k, c, o, n, true);
    n := Step(k, c, o, n, Answer(true));
    n := ReaderBack(k, c, o, n);
  }

  /** The hook takes the snapshot and subscribes, while nothing comes. */
  lemma Subscribed(k: Class, c: Config, o: State, s: State) returns (n: State)
    requires Leads(k, c, o, s) && s.loop == Installing(HookRunning(EventWanted)) && s.initEvent.Off?
    ensures Leads(k, c, o, n) && n == AtHook(s, Listening(Empty))
  {
    n := LoopStep(k, c, o, s, true);
    n := LoopStep(k, c, o, n, true);
    n := LoopStep(k, c, o, n, true);
  }

  /** The hook waits for an InitializedEvent that has not come yet, and an attentive reader dispatches it. */
  lemma EventHeard(k: Class, c: Config, o: State, s: State) returns (n: State)
    requires Leads(k, c, o, s) && s.loop == Installing(HookRunning(EventWanted)) && Attentive(s)
    requires s.cancelled.Off? && s.initEvent.Off?
    ensures Leads(k, c, o, n) && n == AtHook(s, Starting(Restore)).(initEvent := On)
  {
    n := Subscribed(k, c, o, s);
    n := Step(k, c, o, n, Announce);
    n := LoopStep(k, c, o, n, true);
    n := ReaderBack(k, c, o, n);
  }

  /** With an attentive reader the hook can return nil. */
  lemma HookCompletes(k: Class, c: Config, o: State, s: State) returns (n: State)
    requires Leads(k, c, o, s) && s.loop == Installing(Notifying) && Attentive(s) && s.cancelled.Off?
    ensures Leads(k, c, o, n) && n.loop == Installing(Clearing) && n.session.Synced?
    ensures n.stale == s.stale && n.epoch == s.epoch && n.abandoned == s.abandoned && n.cancelled.Off?
    ensures n.reader == s.reader && n.pumpResume == s.pumpResume
    ensures n.log.hookRuns == s.log.hookRuns + if c.hookWired then 1 else 0
  {
    n := LoopStep(k, c, o, s, true);
    if c.hookWired {
      n := RequestAnswered(k, c, o, n, Initialize);
      n := LoopStep(k, c, o, n, true);
      n := RequestAnswered(k, c, o, n, Attach);
      n := LoopStep(k, c, o, n, true);
      n := EventHeard(k, c, o, n);
      n := RequestAnswered(k, c, o, n, Restore);
      n := LoopStep(k, c, o, n, true);
    }
  }

  // ------------------------------------------------------------------- the deadlock

  /** readLoop has drained the registry after failing on the current connection, and no token will wake it. */
  predicate PastDrain(s: State) {
    s.reader.Holding? && (s.reader.stage.Broadcasting? || s.reader.stage.Parked?) && s.pumpResume == 0
  }

  /** It has also broadcast the loss. */
  predicate PastBroadcast(s: State) { IsParked(s.reader) && s.pumpResume == 0 }

  /** The hook waits, or can only go on to wait, for a message that nobody will read: the response to a request
      registered after readLoop's drain, or an InitializedEvent that had not come when readLoop parked, with a
      subscription too late for the broadcast. */
  predicate Stuck(s: State) {
    && InHook(s.loop)
    && match s.loop.w.h
       case LookingUp(_, Empty) => PastDrain(s)
       case Awaiting(_, Empty) => PastDrain(s)
       case Awaiting(Attach, Accepted) => s.initEvent.Off? && PastBroadcast(s)
       case EventWanted => s.initEvent.Off? && PastBroadcast(s)
       case Snapped(Empty) => PastBroadcast(s)
       case HalfListening(Empty) => PastBroadcast(s)
       case Listening(Empty) => PastBroadcast(s)
       case _ => false
  }

  /** The InitializedEvent came between the hook's snapshot of the ring and its subscription, so the hook has not
      heard it, and no loss of a connection is about to be broadcast. */
  predicate Missed(s: State) {
    && InHook(s.loop) && EventUnheard(s.loop.w.h) && s.initEvent.On?
    && (s.reader.AtTop? || s.reader.PickingReader? || Attentive(s) || (IsParked(s.reader) && s.pumpResume == 1))
  }

  /** The hook has taken its snapshot and neither that nor its subscriptions gave it anything. */
  predicate EventUnheard(h: HookPc) { (h.Snapped? || h.HalfListening? || h.Listening?) && h.mail.Empty? }

  /** An InitializedEvent is missed if and only if it is dispatched between the snapshot and the subscription; at any
      other time the hook finds it in the ring or hears it. */
  lemma EventMissedExactly(c: Config, s: State)
    requires Enabled(c, s, Announce) && s.initEvent.Off?
    ensures var n := Apply(c, s, Announce);
            && n.initEvent.On? && n.reader.AtTop?
            && (Missed(n) <==> s.loop.w.h == Snapped(Empty))
            && (s.loop.w.h == HalfListening(Empty) || s.loop.w.h == Listening(Empty) ==> n.loop.w.h.mail == Accepted)
  {}

  /** The loss of a connection is heard by the hook if and only if it listens; then the hook can return the error,
      even if the InitializedEvent has come too, and it can go on only if that has come. */
  lemma LossIsHeardExactly(c: Config, s: State)
    requires Reachable(c, s) && InHook(s.loop) && s.reader.Holding? && s.reader.stage.Broadcasting?
    ensures var n := Apply(c, s, Reader(true));
            && (!s.loop.w.h.Listening? ==> n.loop == s.loop)
            && (s.loop.w.h.Listening? && (s.loop.w.h.mail.Empty? || s.loop.w.h.mail.Accepted?) ==>
                 && Enabled(c, n, Loop(false)) && Apply(c, n, Loop(false)).session.HookFailed?
                 && (s.loop.w.h.mail.Accepted? <==> Apply(c, n, Loop(true)).loop == Installing(HookRunning(Starting(Restore)))))
  {
    ReachableInv(c, s);
  }

  /** No step but a cancel ends the deadlock. */
  lemma StuckStays(c: Config, s: State, a: Action)
    requires Inv(c, s) && Stuck(s) && s.cancelled.Off? && Enabled(c, s, a) && !a.Cancel?
    ensures Stuck(Apply(c, s, a)) && Apply(c, s, a).cancelled.Off? && Apply(c, s, a).stale.On?
  {
    match a
    case Sender(x) => assert ApplySender(c, s, x).loop == s.loop;
    case Reader(ok) => assert s.reader.stage.Broadcasting?;
    case _ =>
  }

  /** While the connection stays up, a missed event stays missed, although readLoop reads. */
  lemma MissedStays(c: Config, s: State, a: Action)
    requires Inv(c, s) && Missed(s) && s.cancelled.Off? && Enabled(c, s, a) && Allowed(Calm, s, a)
    ensures Missed(Apply(c, s, a)) && Apply(c, s, a).cancelled.Off? && Apply(c, s, a).stale.On?
  {
    match a
    case Sender(x) => assert ApplySender(c, s, x).loop == s.loop && ApplySender(c, s, x).reader == s.reader;
    case _ =>
  }

  lemma {:induction false} StuckForGood(c: Config, s: State, acts: seq<Action>)
    requires Inv(c, s) && Stuck(s) && s.cancelled.Off? && Legal(c, s, acts) && Within(Free, c, s, acts)
    ensures Stuck(Run(c, s, acts)) && Run(c, s, acts).stale.On?
    decreases |acts|
  {
    if acts != [] {
      StuckStays(c, s, acts[0]);
      StepKeepsInv(c, s, acts[0]);
      StuckForGood(c, Apply(c, s, acts[0]), acts[1..]);
    }
  }

  lemma {:induction false} MissedForGood(c: Config, s: State, acts: seq<Action>)
    requires Inv(c, s) && Missed(s) && s.cancelled.Off? && Legal(c, s, acts) && Within(Calm, c, s, acts)
    ensures Missed(Run(c, s, acts)) && Run(c, s, acts).stale.On?
    decreases |acts|
  {
    if acts != [] {
      MissedStays(c, s, acts[0]);
      StepKeepsInv(c, s, acts[0]);
      MissedForGood(c, Apply(c, s, acts[0]), acts[1..]);
    }
  }

  lemma {:induction false} CalmIsFree(k: Class, c: Config, s: State, acts: seq<Action>)
    requires Legal(c, s, acts) && Within(k, c, s, acts)
    ensures Within(Free, c, s, acts)
    decreases |acts|
  {
    if acts != [] { CalmIsFree(k, c, Apply(c, s, acts[0]), acts[1..]); }
  }

  lemma StuckLeadsNowhere(k: Class, c: Config, s: State, n: State)
    requires Reachable(c, s) && Stuck(s) && s.cancelled.Off? && Leads(k, c, s, n)
    ensures InHook(n.loop) && n.stale.On?
  {
    ReachableInv(c, s);
    var acts :| Legal(c, s, acts) && Within(k, c, s, acts) && Run(c, s, acts) == n;
    CalmIsFree(k, c, s, acts);
    StuckForGood(c, s, acts);
  }

  lemma MissedLeadsNowhere(c: Config, s: State, n: State)
    requires Reachable(c, s) && Missed(s) && s.cancelled.Off? && Leads(Calm, c, s, n)
    ensures InHook(n.loop) && n.stale.On?
  {
    ReachableInv(c, s);
    var acts :| Legal(c, s, acts) && Within(Calm, c, s, acts) && Run(c, s, acts) == n;
    MissedForGood(c, s, acts);
  }

  // ------------------------------------------------------------------ out of the hook

  /** Steps of the hook before it can return, at most. */
  function HookRank(h: HookPc): nat {
    match h
    case Awaiting(Attach, Accepted) => 11
    case EventWanted => 10
    case Snapped(_) => 9
    case HalfListening(_) => 8
    case Listening(Empty) => 7
    case Listening(_) => 6
    case Awaiting(_, Accepted) => 6
    case Starting(_) => 5
    case Writing(_, _) => 4
    case LookingUp(_, _) => 3
    case Awaiting(_, Empty) => 2
    case Awaiting(_, _) => 1
  }

  /** A way out of the hook on a connection that stays up: the message it waits for comes if readLoop reads, and
      otherwise readLoop goes on to drain and broadcast, or to take its token; else the hook goes on itself. */
  function WayOut(s: State): Action
    requires InHook(s.loop)
  {
    var h := s.loop.w.h;
    if Waits(h) && h.mail.Empty?
    then if !Attentive(s) then Reader(!(s.reader.Holding? && s.reader.stage.Reading?))
         else if h.Awaiting? then Answer(false) else Announce
    else Loop(!h.Writing?)
  }

  predicate InOpenHook(s: State) { InHook(s.loop) && s.stale.On? && s.cancelled.Off? && !Stuck(s) && !Missed(s) }

  /** Out of the hook, towards the clear or another try. */
  predicate OutOfHook(s: State) {
    && s.stale.On? && s.cancelled.Off?
    && (s.loop == Installing(HookMarking) || s.loop == Installing(Clearing) || s.loop == Retrying(TopOfRetry))
  }

  lemma WaitingHookGoesOn(c: Config, s: State)
    requires Inv(c, s) && InOpenHook(s) && WayOut(s).Reader?
    ensures var a := WayOut(s); Enabled(c, s, a) && Allowed(Calm, s, a) && var n := Apply(c, s, a);
            InOpenHook(n) && HookRank(n.loop.w.h) <= HookRank(s.loop.w.h) && ReaderRank(n) < ReaderRank(s)
  {}

  lemma MessageComes(c: Config, s: State)
    requires Inv(c, s) && InOpenHook(s) && (WayOut(s).Answer? || WayOut(s).Announce?)
    ensures var a := WayOut(s); Enabled(c, s, a) && Allowed(Calm, s, a) && var n := Apply(c, s, a);
            InOpenHook(n) && HookRank(n.loop.w.h) < HookRank(s.loop.w.h)
  {}

  lemma FreeHookGoesOn(c: Config, s: State)
    requires Inv(c, s) && InOpenHook(s) && WayOut(s).Loop?
    ensures var a := WayOut(s); Enabled(c, s, a) && Allowed(Calm, s, a) && var n := Apply(c, s, a);
            OutOfHook(n) || (InOpenHook(n) && HookRank(n.loop.w.h) < HookRank(s.loop.w.h))
  {}

  /** Unless it is stuck or has missed its event, the hook can return on a connection that stays up. */
  lemma {:induction false} HookReturns(k: Class, c: Config, o: State, s: State) returns (n: State)
    requires Leads(k, c, o, s) && InOpenHook(s) && !k.Benign?
    ensures Leads(k, c, o, n) && OutOfHook(n)
    decreases HookRank(s.loop.w.h), ReaderRank(s)
  {
    ReachableInv(c, s);
    match WayOut(s) {
      case Reader(_) => WaitingHookGoesOn(c, s);
      case Loop(_) => FreeHookGoesOn(c, s);
      case _ => MessageComes(c, s);
    }
    n := Step(k, c, o, s, WayOut(s));
    if InHook(n.loop) { n := HookReturns(k, c, o, n); }
  }

  /** A running hook can return on a connection that stays up if and only if it is not stuck and has not missed
      its event. */
  lemma HookReturnsExactly(c: Config, s: State)
    requires Reachable(c, s) && InHook(s.loop) && s.cancelled.Off?
    ensures (exists n :: Leads(Calm, c, s, n) && OutOfHook(n)) <==> !Stuck(s) && !Missed(s)
  {
    ReachableInv(c, s);
    if Stuck(s) {
      forall n | Leads(Calm, c, s, n) ensures !OutOfHook(n) { StuckLeadsNowhere(Calm, c, s, n); }
    } else if Missed(s) {
      forall n | Leads(Calm, c, s, n) ensures !OutOfHook(n) { MissedLeadsNowhere(c, s, n); }
    } else {
      Start(Calm, c, s);
      var n := HookReturns(Calm, c, s, s);
    }
  }

  // ---------------------------------------------------------------------- recovery

  /** Not stale, with an initialised session and a reader on the current connection. */
  predicate Healthy(s: State) { s.stale.Off? && s.session.Synced? && Attentive(s) }

  /** The store of false. */
  lemma ClearEnds(k: Class, c: Config, o: State, s: State) returns (n: State)
    requires Leads(k, c, o, s) && OutOfHook(s) && !s.loop.Retrying?
    ensures Leads(k, c, o, n) && n.stale.Off? && n.cancelled.Off?
  {
    ReachableInv(c, s);
    n := s;
    if s.loop.w.HookMarking? { n := LoopStep(k, c, o, s, true); }
    n := LoopStep(k, c, o, n, true);
  }

  /** From before the hook the client can become healthy. */
  lemma FreshTry(k: Class, c: Config, o: State, s: State) returns (n: State)
    requires Leads(k, c, o, s) && c.hasBackend && BeforeHook(s) && (s.loop == Installing(Notifying) ==> s.pumpResume == 1)
    ensures Leads(k, c, o, n) && Healthy(n)
  {
    n := OwnerInstalls(k, c, o, s);
    n := ReaderCatchesUp(k, c, o, n);
    n := HookCompletes(k, c, o, n);
    n := LoopStep(k, c, o, n, true);
  }

  /** A client that is not stale can be marked, whatever state its session and its reader are in. */
  lemma MarkedAgain(k: Class, c: Config, o: State, s: State) returns (n: State)
    requires Leads(k, c, o, s) && c.hasBackend && s.stale.Off? && s.cancelled.Off?
    ensures Leads(k, c, o, n) && BeforeHook(n) && !n.loop.Installing?
  {
    ReachableInv(c, s);
    n := s;
    if n.toMark == {} { n := Step(k, c, o, n, Sender(ForceMark(0))); }
    var t :| t in n.toMark;
    n := Step(k, c, o, n, Sender(MarkCas(t)));
  }

  /** The hook is about to begin, perhaps with a reader that has already failed again. */
  lemma HookBegins(k: Class, c: Config, o: State, s: State) returns (n: State)
    requires Leads(k, c, o, s) && s.loop == Installing(Notifying) && s.stale.On? && s.cancelled.Off?
    ensures Leads(k, c, o, n) && (InOpenHook(n) || OutOfHook(n))
  {
    n := LoopStep(k, c, o, s, true);
  }

  /** Unless the hook is stuck or has missed its event, every open client that can redial can become healthy. */
  lemma RecoveryPossible(k: Class, c: Config, o: State, s: State) returns (n: State)
    requires Leads(k, c, o, s) && c.hasBackend && s.cancelled.Off? && !Stuck(s) && !Missed(s) && !k.Benign?
    ensures Leads(k, c, o, n) && Healthy(n)
  {
    ReachableInv(c, s);
    n := s;
    if n.loop == Installing(Notifying) { n := HookBegins(k, c, o, n); }
    if InHook(n.loop) { n := HookReturns(k, c, o, n); }
    if OutOfHook(n) && !n.loop.Retrying? { n := ClearEnds(k, c, o, n); }
    if n.stale.Off? { n := MarkedAgain(k, c, o, n); }
    n := FreshTry(k, c, o, n);
  }

  /** With a network that behaves from now on, an open client that can redial can become healthy if and only if its
      hook is neither stuck nor has missed its event: whatever the schedule so far, the protocol has these two
      dead ends and no other. */
  lemma RecoveryExactly(c: Config, s: State)
    requires Reachable(c, s) && c.hasBackend && s.cancelled.Off?
    ensures (exists n :: Leads(Calm, c, s, n) && Healthy(n)) <==> !Stuck(s) && !Missed(s)
  {
    if Stuck(s) {
      forall n | Leads(Calm, c, s, n) ensures !Healthy(n) { StuckLeadsNowhere(Calm, c, s, n); }
    } else if Missed(s) {
      forall n | Leads(Calm, c, s, n) ensures !Healthy(n) { MissedLeadsNowhere(c, s, n); }
    } else {
      Start(Calm, c, s);
      var n := RecoveryPossible(Calm, c, s, s);
    }
  }

  /** A missed event is made up for by the loss of the connection. */
  lemma LossHelpsMissed(c: Config, o: State, s: State) returns (n: State)
    requires Leads(Free, c, o, s) && Missed(s) && s.cancelled.Off?
    ensures Leads(Free, c, o, n) && n.cancelled.Off? && !Stuck(n) && !Missed(n)
  {
    n := s;
    if IsParked(n.reader) { n := Step(Free, c, o, n, Reader(true)); }
    if n.reader.AtTop? { n := Step(Free, c, o, n, Reader(true)); }
    if n.reader.PickingReader? { n := Step(Free, c, o, n, Reader(true)); }
    n := Step(Free, c, o, n, Reader(false));
  }

  /** If connections may also be lost, only the stuck hook is beyond recovery. */
  lemma RecoveryByLoss(c: Config, s: State)
    requires Reachable(c, s) && c.hasBackend && s.cancelled.Off?
    ensures (exists n :: Leads(Free, c, s, n) && Healthy(n)) <==> !Stuck(s)
  {
    if Stuck(s) {
      forall n | Leads(Free, c, s, n) ensures !Healthy(n) { StuckLeadsNowhere(Free, c, s, n); }
    } else {
      Start(Free, c, s);
      var n := s;
      if Missed(n) { n := LossHelpsMissed(c, s, n); }
      n := RecoveryPossible(Free, c, s, n);
    }
  }
}
