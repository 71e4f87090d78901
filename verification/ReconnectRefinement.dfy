/**
  The sequential doReconnect of module Backoff and the small steps of ReconnectProtocol tell one story: every
  stretch of a protocol run through doReconnect, whatever the other roles do meanwhile, ends as the method's
  contract says for the rounds it went through; and every sequence of rounds has such a stretch.
  */
module ReconnectRefinement {
  import opened ReconnectProtocol
  import opened ReconnectTheorems
  import opened ReconnectRecovery
  import Backoff

  // ------------------------------------------------------- every stretch follows some rounds

  /** A run that is inside doReconnect until its last step leaves it. */
  predicate Stretch(c: Config, s: State, acts: seq<Action>)
    decreases |acts|
  {
    if !Reconnecting(s.loop) then acts == []
    else acts != [] && Enabled(c, s, acts[0]) && Stretch(c, Apply(c, s, acts[0]), acts[1..])
  }

  /** The round that one step of doReconnect ends, if it ends one. */
  function RoundEnded(s: State, a: Action): seq<Backoff.Round> {
    if !a.Loop? then []
    else match s.loop
      case Retrying(BackingOff) => [if a.ok then Backoff.Fails else Backoff.FailsCancelled]
      case Retrying(CheckingCtx) => if s.cancelled.On? then [Backoff.SucceedsCancelled] else []
      case Retrying(Swapping) => [Backoff.Succeeds]
      case _ => []
  }

  function Rounds(c: Config, s: State, acts: seq<Action>): seq<Backoff.Round>
    requires Stretch(c, s, acts)
    decreases |acts|
  {
    if acts == [] then [] else RoundEnded(s, acts[0]) + Rounds(c, Apply(c, s, acts[0]), acts[1..])
  }

  function End(c: Config, s: State, acts: seq<Action>): State
    requires Stretch(c, s, acts)
    decreases |acts|
  {
    if acts == [] then s else End(c, Apply(c, s, acts[0]), acts[1..])
  }

  /** The rounds end with an installed connection. */
  predicate Installs(rounds: seq<Backoff.Round>) {
    var k := Backoff.Failures(rounds);
    k < |rounds| && rounds[k].Succeeds?
  }

  /** Hook runs still to come before the clear. */
  function ToRun(c: Config, pc: LoopPc): nat {
    if c.hookWired && (TokenOnItsWay(pc) || pc == Installing(Notifying)) then 1 else 0
  }

  /** What one step leaves of a stretch after the swap. */
  predicate WindowGoesOn(c: Config, s: State, n: State) {
    && n.abandoned == s.abandoned && n.epoch == s.epoch
    && n.log.hookRuns + ToRun(c, n.loop) == s.log.hookRuns + ToRun(c, s.loop)
    && (n.loop.Installing? || (n.loop.Selecting? && n.stale.Off?))
  }

  lemma OthersInWindow(c: Config, s: State, a: Action)
    requires Inv(c, s) && s.loop.Installing? && Enabled(c, s, a) && !a.Loop? && !c.retryFailedHook
    ensures WindowGoesOn(c, s, Apply(c, s, a))
  {
    match a
    case Sender(x) => assert ApplySender(c, s, x).loop == s.loop;
    case Reader(ok) => assert ApplyReader(s, ok).loop.Installing?;
    case _ =>
  }

  lemma LoopInWindow(c: Config, s: State, ok: bool)
    requires Inv(c, s) && s.loop.Installing? && LoopEnabled(s, ok) && !c.retryFailedHook
    ensures WindowGoesOn(c, s, ApplyLoop(c, s, ok))
  {
    if InHook(s.loop) { assert InHook(ApplyLoop(c, s, ok).loop) || ApplyLoop(c, s, ok).loop.Installing?; }
  }

  lemma StepInWindow(c: Config, s: State, a: Action)
    requires Inv(c, s) && s.loop.Installing? && Enabled(c, s, a) && !c.retryFailedHook
    ensures Inv(c, Apply(c, s, a)) && WindowGoesOn(c, s, Apply(c, s, a)) && RoundEnded(s, a) == []
  {
    StepKeepsInv(c, s, a);
    if a.Loop? { LoopInWindow(c, s, a.ok); } else { OthersInWindow(c, s, a); }
  }

  /** After the swap a stretch ends with the clear: no more rounds, and at most the one run of the hook. */
  lemma {:induction false} WindowFollows(c: Config, s: State, acts: seq<Action>)
    requires Inv(c, s) && s.loop.Installing? && Stretch(c, s, acts) && !c.retryFailedHook
    ensures Rounds(c, s, acts) == []
    ensures var n := End(c, s, acts);
            && Inv(c, n) && n.loop.Selecting? && n.stale.Off? && n.abandoned == s.abandoned && n.epoch == s.epoch
            && n.log.hookRuns == s.log.hookRuns + ToRun(c, s.loop)
    decreases |acts|
  {
    var next := Apply(c, s, acts[0]);
    StepInWindow(c, s, acts[0]);
    if next.loop.Installing? {
      WindowFollows(c, next, acts[1..]);
    } else {
      assert acts[1..] == [];
    }
  }

  /** Where one step leaves a stretch before the swap, with the round it ends. */
  predicate RetryGoesOn(s: State, n: State, ended: seq<Backoff.Round>) {
    && n.log.hookRuns == s.log.hookRuns
    && (|| (n.loop.Retrying? && n.abandoned == s.abandoned && n.epoch == s.epoch && n.session == s.session
            && (ended == [] || ended == [Backoff.Fails]))
        || (n.loop == Installing(Draining) && n.abandoned == s.abandoned && n.epoch == s.epoch + 1
            && ended == [Backoff.Succeeds])
        || (n.loop.Selecting? && n.abandoned.On? && n.epoch == s.epoch && n.session == s.session
            && (ended == [] || ended == [Backoff.FailsCancelled] || ended == [Backoff.SucceedsCancelled])))
  }

  lemma OthersInRetry(c: Config, s: State, a: Action)
    requires Inv(c, s) && s.loop.Retrying? && Enabled(c, s, a) && !a.Loop?
    ensures RetryGoesOn(s, Apply(c, s, a), [])
  {
    match a
    case Sender(x) => assert ApplySender(c, s, x).loop == s.loop;
    case Reader(ok) => assert ApplyReader(s, ok).loop == s.loop;
    case _ =>
  }

  lemma LoopInRetry(c: Config, s: State, ok: bool)
    requires s.loop.Retrying? && LoopEnabled(s, ok)
    ensures RetryGoesOn(s, ApplyLoop(c, s, ok), RoundEnded(s, Loop(ok)))
  {}

  /** From `s` to `n` the client went as the contract of Backoff.Client.DoReconnect says for these rounds. */
  predicate AsContract(c: Config, s: State, n: State, rounds: seq<Backoff.Round>) {
    && n.loop.Selecting?
    && (n.stale.Off? <==> Installs(rounds))
    && (n.abandoned.On? <==> !Installs(rounds))
    && n.epoch == s.epoch + (if Installs(rounds) then 1 else 0)
    && n.log.hookRuns == s.log.hookRuns + (if Installs(rounds) && c.hookWired then 1 else 0)
    && (!Installs(rounds) ==> n.session == s.session)
    && (Installs(rounds) ==> !n.session.Fresh? && (!c.hookWired ==> n.session.Synced?))
    && |rounds| <= Backoff.Failures(rounds) + 1
  }

  /** A failed round in front changes neither the outcome nor what it means. */
  lemma OneMoreFailure(rest: seq<Backoff.Round>)
    ensures Installs([Backoff.Fails] + rest) == Installs(rest)
    ensures Backoff.Failures([Backoff.Fails] + rest) == 1 + Backoff.Failures(rest)
  {
    var rounds := [Backoff.Fails] + rest;
    assert rounds[1..] == rest;
  }

  /** One more step before the swap in front of a stretch. */
  lemma ContractExtends(c: Config, s: State, next: State, n: State, ended: seq<Backoff.Round>, rest: seq<Backoff.Round>)
    requires next.loop.Retrying? && RetryGoesOn(s, next, ended) && AsContract(c, next, n, rest)
    ensures AsContract(c, s, n, ended + rest)
  {
    if ended == [] { assert ended + rest == rest; } else { OneMoreFailure(rest); }
  }

  /** The stretch after the swap. */
  lemma ContractAfterSwap(c: Config, s: State, next: State, acts: seq<Action>)
    requires Inv(c, s) && Inv(c, next) && s.loop.Retrying? && next.loop == Installing(Draining) && !c.retryFailedHook
    requires RetryGoesOn(s, next, [Backoff.Succeeds]) && Stretch(c, next, acts)
    ensures Inv(c, End(c, next, acts)) && AsContract(c, s, End(c, next, acts), [Backoff.Succeeds] + Rounds(c, next, acts))
  {
    WindowFollows(c, next, acts);
    assert [Backoff.Succeeds] + Rounds(c, next, acts) == [Backoff.Succeeds];
  }

  /** Every stretch through doReconnect, with any steps of the other roles in between, ends exactly as
      Backoff.Client.DoReconnect ends for the rounds the stretch went through. */
  lemma {:induction false} StretchFollowsRounds(c: Config, s: State, acts: seq<Action>)
    requires Inv(c, s) && s.loop.Retrying? && Stretch(c, s, acts) && !c.retryFailedHook
    ensures Inv(c, End(c, s, acts)) && AsContract(c, s, End(c, s, acts), Rounds(c, s, acts))
    decreases |acts|
  {
    var next, ended := Apply(c, s, acts[0]), RoundEnded(s, acts[0]);
    StepKeepsInv(c, s, acts[0]);
    if acts[0].Loop? { LoopInRetry(c, s, acts[0].ok); } else { OthersInRetry(c, s, acts[0]); }
    if next.loop.Retrying? {
      StretchFollowsRounds(c, next, acts[1..]);
      ContractExtends(c, s, next, End(c, next, acts[1..]), ended, Rounds(c, next, acts[1..]));
    } else if next.loop.Installing? {
      ContractAfterSwap(c, s, next, acts[1..]);
    } else {
      GaveUp(c, s, next, ended);
      assert acts[1..] == [] && Rounds(c, s, acts) == ended;
    }
  }

  lemma GaveUp(c: Config, s: State, n: State, ended: seq<Backoff.Round>)
    requires Inv(c, n) && n.loop.Selecting? && RetryGoesOn(s, n, ended)
    ensures AsContract(c, s, n, ended)
  {}

  // ------------------------------------------------------- all rounds have a stretch

  /** A failed dial and the end of its wait. */
  lemma FailedRound(c: Config, s: State) returns (n: State)
    requires Reachable(c, s) && s.loop == Retrying(TopOfRetry) && s.cancelled.Off?
    ensures Reachable(c, n) && n == s
  {
    Start(Free, c, s);
    n := LoopStep(Free, c, s, s, true);
    n := LoopStep(Free, c, s, n, false);
    n := LoopStep(Free, c, s, n, true);
  }

  /** The hook fails to write its first request, and doReconnect clears `stale`. */
  lemma HookFailsAtOnce(c: Config, o: State, s: State) returns (n: State)
    requires Leads(Free, c, o, s) && s.loop == Installing(Notifying) && c.hookWired && !c.retryFailedHook && s.cancelled.Off?
    ensures Leads(Free, c, o, n)
    ensures n.loop.Selecting? && n.stale.Off? && n.abandoned == s.abandoned && n.epoch == s.epoch
    ensures n.log.hookRuns == s.log.hookRuns + 1 && n.session.HookFailed?
    ensures n.reader == s.reader && n.pumpResume == s.pumpResume
  {
    n := LoopStep(Free, c, o, s, true);
    n := LoopStep(Free, c, o, n, true);
    n := LoopStep(Free, c, o, n, false);
    ReachableInv(c, n);
    n := LoopStep(Free, c, o, n, true);
    n := LoopStep(Free, c, o, n, true);
  }

  /** A round that installs a connection. */
  lemma InstallRound(c: Config, s: State, hookOk: bool) returns (n: State)
    requires Reachable(c, s) && s.loop == Retrying(TopOfRetry) && s.cancelled.Off? && !c.retryFailedHook
    ensures Reachable(c, n)
    ensures n.loop.Selecting? && n.stale.Off? && n.abandoned == s.abandoned && n.epoch == s.epoch + 1
    ensures n.log.hookRuns == s.log.hookRuns + if c.hookWired then 1 else 0
    ensures n.session == if hookOk || !c.hookWired then Synced else HookFailed
  {
    Start(Free, c, s);
    n := DialAndSwap(Free, c, s, s);
    n := DrainAndResume(Free, c, s, n);
    ReachableInv(c, n);
    if hookOk || !c.hookWired {
      n := ReaderCatchesUp(Free, c, s, n);
      n := HookCompletes(Free, c, s, n);
      n := LoopStep(Free, c, s, n, true);
    } else {
      n := HookFailsAtOnce(c, s, n);
    }
  }

  /** A round in which the context is cancelled after the dial, whatever its outcome. */
  lemma CancelledRound(c: Config, s: State, round: Backoff.Round) returns (n: State)
    requires Reachable(c, s) && s.loop == Retrying(TopOfRetry) && s.cancelled.Off?
    requires round.FailsCancelled? || round.SucceedsCancelled?
    ensures Reachable(c, n) && n == GiveUp(s).(cancelled := On)
  {
    n := ReachableStep(c, s, Loop(true));
    n := ReachableStep(c, n, Loop(round.SucceedsCancelled?));
    n := ReachableStep(c, n, Cancel);
    if round.SucceedsCancelled? { n := ReachableStep(c, n, Loop(true)); }
    n := ReachableStep(c, n, Loop(false));
  }

  /** For every sequence of rounds the protocol has a run, with the context cancelled when the rounds say so,
      that ends as Backoff.Client.DoReconnect ends. */
  lemma {:induction false} LoopFollowsRounds(c: Config, s: State, rounds: seq<Backoff.Round>, hookOk: bool) returns (n: State)
    requires Reachable(c, s) && s.loop == Retrying(TopOfRetry) && s.cancelled.Off? && !c.retryFailedHook
    ensures Reachable(c, n) && n.loop.Selecting?
    ensures (n.stale.Off? <==> Installs(rounds)) && (n.abandoned.On? <==> !Installs(rounds))
    ensures n.epoch == s.epoch + (if Installs(rounds) then 1 else 0)
    ensures n.log.hookRuns == s.log.hookRuns + (if Installs(rounds) && c.hookWired then 1 else 0)
    ensures n.session == if !Installs(rounds) then s.session else if hookOk || !c.hookWired then Synced else HookFailed
    decreases |rounds|
  {
    ReachableInv(c, s);
    if rounds == [] {
      n := ReachableStep(c, s, Cancel);
      n := ReachableStep(c, n, Loop(true));
    } else if rounds[0].Fails? {
      n := FailedRound(c, s);
      n := LoopFollowsRounds(c, n, rounds[1..], hookOk);
    } else if rounds[0].Succeeds? {
      n := InstallRound(c, s, hookOk);
    } else {
      n := CancelledRound(c, s, rounds[0]);
    }
  }
}
