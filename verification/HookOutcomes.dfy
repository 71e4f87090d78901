/**
  The outcome of the re-initialisation hook on a connection that stays up: exactly when it can still return nil,
  and exactly which schedules make it fail although nothing fails on its connection.
  */
module HookOutcomes {
  import opened ReconnectProtocol
  import opened ReconnectTheorems
  import opened ReconnectRecovery

  // ------------------------------------------------------------------ possible mail

  /** What can be in the hook's channels. */
  predicate MailOk(pc: LoopPc) {
    InHook(pc) ==>
      match pc.w.h
      case Starting(_) => true
      case Writing(_, m) => m.Empty? || m.Closed?
      case LookingUp(_, m) => !m.Either?
      case Awaiting(_, m) => !m.Either?
      case EventWanted => true
      case Snapped(m) => m.Empty? || m.Accepted?
      case HalfListening(m) => m.Empty? || m.Accepted?
      case Listening(m) => !m.Rejected?
  }

  lemma StepKeepsMail(c: Config, s: State, a: Action)
    requires MailOk(s.loop) && Enabled(c, s, a)
    ensures MailOk(Apply(c, s, a).loop)
  {
    match a
    case Sender(x) => assert ApplySender(c, s, x).loop == s.loop;
    case _ =>
  }

  lemma {:induction false} RunKeepsMail(c: Config, s: State, acts: seq<Action>)
    requires MailOk(s.loop) && Legal(c, s, acts)
    ensures MailOk(Run(c, s, acts).loop)
    decreases |acts|
  {
    if acts != [] {
      StepKeepsMail(c, s, acts[0]);
      RunKeepsMail(c, Apply(c, s, acts[0]), acts[1..]);
    }
  }

  lemma ReachableMail(c: Config, s: State)
    requires Reachable(c, s)
    ensures MailOk(s.loop)
  {
    var acts :| Legal(c, Init(), acts) && Run(c, Init(), acts) == s;
    RunKeepsMail(c, Init(), acts);
  }

  // --------------------------------------------------------------- can it still succeed?

  /** readLoop reads, or is on its way to; the connection may still be the old one. */
  predicate IsReading(pc: ReaderPc) { pc.AtTop? || pc.PickingReader? || (pc.Holding? && pc.stage.Reading?) }

  /** readLoop can come to read the current connection. */
  predicate Coming(s: State) { IsReading(s.reader) || s.pumpResume == 1 }

  /** And without draining the registry first. */
  predicate ComingUndrained(s: State) {
    IsReading(s.reader)
    || (s.pumpResume == 1 && s.reader.Holding? && (s.reader.stage.Broadcasting? || s.reader.stage.Parked?))
  }

  /** Steps of readLoop before it reads the current connection, at most. */
  function ComingRank(s: State): nat {
    if Attentive(s) then 0
    else if s.reader.Holding? && s.reader.stage.Reading? then 10 * s.pumpResume + 8
    else ReaderRank(s)
  }

  /** The hook can still return nil. */
  predicate CanSucceed(s: State) {
    InHook(s.loop) &&
    match s.loop.w.h
    case Awaiting(Restore, Accepted) => true
    case Awaiting(_, Accepted) => Coming(s)
    case Starting(_) => Coming(s)
    case Writing(_, Empty) => ComingUndrained(s)
    case LookingUp(_, Empty) => ComingUndrained(s)
    case Awaiting(_, Empty) => ComingUndrained(s)
    case EventWanted => Coming(s)
    case Snapped(m) => Coming(s) && (m.Accepted? || s.initEvent.Off?)
    case HalfListening(m) => Coming(s) && (m.Accepted? || s.initEvent.Off?)
    case Listening(m) => Coming(s) && (m.Accepted? || m.Either? || s.initEvent.Off?)
    case _ => false
  }

  /** Steps of the hook before it returns nil, at most. */
  function ToGo(h: HookPc): nat {
    match h
    case Starting(Initialize) => 21
    case Writing(Initialize, _) => 20
    case LookingUp(Initialize, _) => 19
    case Awaiting(Initialize, m) => if m.Accepted? then 17 else 18
    case Starting(Attach) => 16
    case Writing(Attach, _) => 15
    case LookingUp(Attach, _) => 14
    case Awaiting(Attach, m) => if m.Accepted? then 12 else 13
    case EventWanted => 11
    case Snapped(_) => 10
    case HalfListening(_) => 9
    case Listening(m) => if m.Accepted? || m.Either? then 7 else 8
    case Starting(Restore) => 6
    case Writing(Restore, _) => 5
    case LookingUp(Restore, _) => 4
    case Awaiting(Restore, m) => if m.Accepted? then 2 else 3
  }

  /** The way to success: let readLoop come, and then let the messages come and the hook go on. */
  function WayOn(s: State): Action
    requires InHook(s.loop)
  {
    var h := s.loop.w.h;
    if h == Awaiting(Restore, Accepted) then Loop(true)
    else if !Attentive(s) then Reader(true)
    else if h.Awaiting? && h.mail.Empty? then Answer(true)
    else if h.Listening? && (h.mail.Empty? || h.mail.Closed?) then Announce
    else Loop(true)
  }

  /** The hook has returned nil on this connection. */
  predicate Succeeded(s: State, epoch: nat) { s.epoch == epoch && s.session.Synced? }

  predicate Hopeful(s: State) { CanSucceed(s) && MailOk(s.loop) && s.stale.On? && s.cancelled.Off? }

  lemma ReaderComesOn(c: Config, s: State)
    requires Inv(c, s) && Hopeful(s) && WayOn(s).Reader?
    ensures var a := WayOn(s); Enabled(c, s, a) && Allowed(Benign, s, a) && var n := Apply(c, s, a);
            Hopeful(n) && n.epoch == s.epoch && ToGo(n.loop.w.h) == ToGo(s.loop.w.h) && ComingRank(n) < ComingRank(s)
  {}

  lemma HookGoesOn(c: Config, s: State)
    requires Inv(c, s) && Hopeful(s) && !WayOn(s).Reader?
    ensures var a := WayOn(s); Enabled(c, s, a) && Allowed(Benign, s, a) && var n := Apply(c, s, a);
            n.epoch == s.epoch && (n.session.Synced? || (Hopeful(n) && ToGo(n.loop.w.h) < ToGo(s.loop.w.h)))
  {}

  lemma {:induction false} HookSucceedsFrom(k: Class, c: Config, o: State, s: State) returns (n: State)
    requires Leads(k, c, o, s) && Hopeful(s)
    ensures Leads(k, c, o, n) && Succeeded(n, s.epoch)
    decreases ToGo(s.loop.w.h), ComingRank(s)
  {
    ReachableInv(c, s);
    if WayOn(s).Reader? { ReaderComesOn(c, s); } else { HookGoesOn(c, s); }
    n := Step(k, c, o, s, WayOn(s));
    if !n.session.Synced? { n := HookSucceedsFrom(k, c, o, n); }
  }

  /** The hook of the connection `epoch` has failed, or can only fail, or that connection is replaced. */
  predicate Hopeless(s: State, epoch: nat) {
    && s.cancelled.Off? && MailOk(s.loop) && epoch <= s.epoch
    && (s.epoch == epoch ==> (InHook(s.loop) && !CanSucceed(s)) || (!InHook(s.loop) && s.session.HookFailed?))
  }

  lemma HopelessHook(c: Config, s: State, a: Action)
    requires Inv(c, s) && Hopeless(s, s.epoch) && InHook(s.loop) && Enabled(c, s, a) && Allowed(Benign, s, a)
    ensures Hopeless(Apply(c, s, a), s.epoch)
  {
    StepKeepsMail(c, s, a);
    match a
    case Sender(x) => assert ApplySender(c, s, x).loop == s.loop && ApplySender(c, s, x).reader == s.reader;
    case _ =>
  }

  lemma HopelessAfter(c: Config, s: State, a: Action)
    requires Inv(c, s) && Hopeless(s, s.epoch) && !InHook(s.loop) && Enabled(c, s, a) && !a.Cancel?
    ensures Hopeless(Apply(c, s, a), s.epoch)
  {
    StepKeepsMail(c, s, a);
    match a
    case Sender(x) => assert ApplySender(c, s, x).session == s.session && ApplySender(c, s, x).loop == s.loop;
    case Reader(ok) => assert ApplyReader(s, ok).session == s.session;
    case _ =>
  }

  lemma EpochNeverFalls(c: Config, s: State, a: Action)
    requires Enabled(c, s, a) && !a.Cancel?
    ensures s.epoch <= Apply(c, s, a).epoch && Apply(c, s, a).cancelled == s.cancelled
  {
    match a
    case Sender(x) => assert ApplySender(c, s, x).epoch == s.epoch;
    case _ =>
  }

  lemma {:induction false} HopelessForGood(c: Config, s: State, epoch: nat, acts: seq<Action>)
    requires Inv(c, s) && Hopeless(s, epoch) && Legal(c, s, acts) && Within(Benign, c, s, acts)
    ensures !Succeeded(Run(c, s, acts), epoch)
    decreases |acts|
  {
    if acts != [] {
      var n := Apply(c, s, acts[0]);
      StepKeepsInv(c, s, acts[0]);
      StepKeepsMail(c, s, acts[0]);
      EpochNeverFalls(c, s, acts[0]);
      if s.epoch == epoch {
        if InHook(s.loop) { HopelessHook(c, s, acts[0]); } else { HopelessAfter(c, s, acts[0]); }
      }
      HopelessForGood(c, n, epoch, acts[1..]);
    }
  }

  /** When nothing fails on its connection from now on, a running hook can return nil if and only if CanSucceed,
      which looks at the state alone: the pending message is not lost, and readLoop will come to read. */
  lemma SuccessExactly(c: Config, s: State)
    requires Reachable(c, s) && InHook(s.loop) && s.cancelled.Off?
    ensures (exists n :: Leads(Benign, c, s, n) && Succeeded(n, s.epoch)) <==> CanSucceed(s)
  {
    ReachableInv(c, s);
    ReachableMail(c, s);
    if CanSucceed(s) {
      Start(Benign, c, s);
      var n := HookSucceedsFrom(Benign, c, s, s);
    } else {
      forall n | Leads(Benign, c, s, n) ensures !Succeeded(n, s.epoch) {
        var acts :| Legal(c, s, acts) && Within(Benign, c, s, acts) && Run(c, s, acts) == n;
        HopelessForGood(c, s, s.epoch, acts);
      }
    }
  }

  // ---------------------------------------------------------- what makes it fail anyway?

  /** A benign run of the hook, up to the step with which it returns. */
  predicate HookRun(c: Config, s: State, acts: seq<Action>)
    decreases |acts|
  {
    if !InHook(s.loop) then acts == []
    else acts != [] && Enabled(c, s, acts[0]) && Allowed(Benign, s, acts[0]) && HookRun(c, Apply(c, s, acts[0]), acts[1..])
  }

  function Returned(c: Config, s: State, acts: seq<Action>): State
    requires HookRun(c, s, acts)
    decreases |acts|
  {
    if acts == [] then s else Returned(c, Apply(c, s, acts[0]), acts[1..])
  }

  /** readLoop has not failed on the current connection. */
  predicate Up(s: State) { s.reader.Holding? && s.reader.e == s.epoch ==> s.reader.stage.Reading? }

  /** A request is registered and nothing has come for it. */
  predicate Registered(h: HookPc) { (h.Writing? || h.LookingUp? || h.Awaiting?) && h.mail.Empty? }

  /** The response comes before the hook has looked its channel up. */
  predicate AnswersTooSoon(s: State, a: Action) { a.Answer? && InHook(s.loop) && s.loop.w.h.LookingUp? }

  /** readLoop drains the registry, for another connection, with the hook's request in it. */
  predicate DrainsTooLate(s: State, a: Action) {
    && a.Reader? && s.reader.Holding? && s.reader.stage.ClosingRegistry? && s.reader.e < s.epoch
    && InHook(s.loop) && Registered(s.loop.w.h)
  }

  /** The hook takes the loss of another connection for an answer to its wait for the InitializedEvent. */
  predicate HearsOldLoss(s: State, a: Action) {
    && a.Loop? && InHook(s.loop) && s.loop.w.h.Listening?
    && (s.loop.w.h.mail.Closed? || (s.loop.w.h.mail.Either? && !a.ok))
  }

  predicate Mishap(s: State, a: Action) { AnswersTooSoon(s, a) || DrainsTooLate(s, a) || HearsOldLoss(s, a) }

  predicate SomeMishap(c: Config, s: State, acts: seq<Action>)
    requires HookRun(c, s, acts)
    decreases |acts|
  {
    acts != [] && (Mishap(s, acts[0]) || SomeMishap(c, Apply(c, s, acts[0]), acts[1..]))
  }

  /** The request the hook is at cannot succeed any more. */
  predicate Spoiled(pc: LoopPc) {
    && InHook(pc)
    && (|| (pc.w.h.LookingUp? && !pc.w.h.mail.Empty?)
        || ((pc.w.h.Writing? || pc.w.h.Awaiting?) && !pc.w.h.mail.Empty? && !pc.w.h.mail.Accepted?))
  }

  predicate Running(s: State) { InHook(s.loop) && MailOk(s.loop) && Up(s) && s.cancelled.Off? }

  /** Only a mishap spoils the request, and only a spoiled request or the last mishap makes the hook fail. */
  lemma MishapsSpoil(c: Config, s: State, a: Action)
    requires Inv(c, s) && Running(s) && Enabled(c, s, a) && Allowed(Benign, s, a)
    ensures var n := Apply(c, s, a);
            && (InHook(n.loop) ==> Running(n) && (Spoiled(n.loop) <==> Spoiled(s.loop) || Mishap(s, a)))
            && (!InHook(n.loop) ==> n.session.HookFailed? || n.session.Synced?)
            && (!InHook(n.loop) ==> (n.session.HookFailed? <==> Spoiled(s.loop) || Mishap(s, a)))
  {
    StepKeepsMail(c, s, a);
    match a
    case Sender(x) => assert ApplySender(c, s, x).loop == s.loop && ApplySender(c, s, x).reader == s.reader;
    case _ =>
  }

  /** When nothing fails on its connection, the hook fails if and only if a response comes before its lookup, the
      registry is drained late for another connection, or the loss of another connection is heard. */
  lemma {:induction false} FailureExactly(c: Config, s: State, acts: seq<Action>)
    requires Inv(c, s) && Running(s) && HookRun(c, s, acts)
    ensures var n := Returned(c, s, acts);
            && (n.session.HookFailed? || n.session.Synced?)
            && (n.session.HookFailed? <==> Spoiled(s.loop) || SomeMishap(c, s, acts))
    decreases |acts|
  {
    var n := Apply(c, s, acts[0]);
    StepKeepsInv(c, s, acts[0]);
    MishapsSpoil(c, s, acts[0]);
    if InHook(n.loop) {
      FailureExactly(c, n, acts[1..]);
    } else {
      assert acts[1..] == [];
    }
  }
}
