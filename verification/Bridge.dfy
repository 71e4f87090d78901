/**
  One subscription: its channel, the bridge goroutine and the typed output channel, under every schedule
  (dap.go:1115-1127, 1201-1252).

  The puts attempted on the channel, by a dispatcher or by the replay, are numbered in order; a message is
  named by the number of its put.
  */
module Bridge {

  /** eventBufSize: the capacity of the channel and of the output. */
  const CAP: nat := 64

  datatype Goroutine =
    | Pumping
    | Holding(m: nat)   // took a message and is putting it on the output
    | DrainingLeft      // saw stop and empties the channel
    | Exited

  datatype Stop = Running | Cancelled

  datatype State = State(
    offered: nat,         // puts attempted
    dropped: nat,         // puts that found the channel full
    ch: seq<nat>,
    bridge: Goroutine,
    out: seq<nat>,
    consumed: seq<nat>,   // what the subscriber has received
    discarded: nat,       // messages given up while draining
    stop: Stop)

  function Init(): State { State(0, 0, [], Pumping, [], [], 0, Running) }

  datatype Action =
    | Offer            // the non-blocking send of dispatchEvent, broadcastEvent or the replay
    | Take | Put | SeeStop | DrainOne | DrainEnd
    | Consume
    | Cancel

  predicate Enabled(s: State, a: Action) {
    match a
    case Offer => true
    case Take => s.bridge.Pumping? && s.ch != []
    case Put => s.bridge.Holding? && |s.out| < CAP
    case SeeStop => s.bridge.Pumping? && s.stop.Cancelled?
    case DrainOne => s.bridge.DrainingLeft? && s.ch != []
    case DrainEnd => s.bridge.DrainingLeft? && s.ch == []
    case Consume => s.out != []
    case Cancel => true
  }

  function Apply(s: State, a: Action): State
    requires Enabled(s, a)
  {
    match a
    case Offer =>
      if |s.ch| < CAP then s.(ch := s.ch + [s.offered], offered := s.offered + 1)
      else s.(offered := s.offered + 1, dropped := s.dropped + 1)
    case Take => s.(bridge := Holding(s.ch[0]), ch := s.ch[1..])
    case Put => s.(bridge := Pumping, out := s.out + [s.bridge.m])
    case SeeStop => s.(bridge := DrainingLeft)
    case DrainOne =>
      if |s.out| < CAP then s.(out := s.out + [s.ch[0]], ch := s.ch[1..])
      else s.(ch := s.ch[1..], discarded := s.discarded + 1)
    case DrainEnd => s.(bridge := Exited)
    case Consume => s.(consumed := s.consumed + [s.out[0]], out := s.out[1..])
    case Cancel => s.(stop := Cancelled)
  }

  predicate Legal(s: State, acts: seq<Action>)
    decreases |acts|
  {
    acts == [] || (Enabled(s, acts[0]) && Legal(Apply(s, acts[0]), acts[1..]))
  }

  function Run(s: State, acts: seq<Action>): State
    requires Legal(s, acts)
    decreases |acts|
  {
    if acts == [] then s else Run(Apply(s, acts[0]), acts[1..])
  }

  ghost predicate Reachable(s: State) {
    exists acts :: Legal(Init(), acts) && Run(Init(), acts) == s
  }

  function Hand(b: Goroutine): seq<nat> { if b.Holding? then [b.m] else [] }

  /** Every message the subscriber has or can still get, in the order it gets them. */
  function Flow(s: State): seq<nat> { s.consumed + s.out + Hand(s.bridge) + s.ch }

  /** An in-order selection, without repetition, of the first `n` puts. */
  predicate Selects(q: seq<nat>, n: nat) {
    (forall i, j :: 0 <= i < j < |q| ==> q[i] < q[j]) && forall i :: 0 <= i < |q| ==> q[i] < n
  }

  predicate Inv(s: State) {
    && Selects(Flow(s), s.offered)
    && |Flow(s)| + s.discarded + s.dropped == s.offered
    && |s.ch| <= CAP && |s.out| <= CAP
    && (s.dropped > 0 ==> s.offered >= s.dropped + CAP)
    && (s.bridge.DrainingLeft? || s.bridge.Exited? ==> s.stop.Cancelled?)
    && (s.stop.Running? ==> s.discarded == 0)
  }

  /** The next put may join a selection at its end; leaving a message out keeps a selection. */
  lemma SelectionGrowsAndShrinks(q: seq<nat>, n: nat, k: nat)
    requires Selects(q, n)
    ensures Selects(q, n + 1) && Selects(q + [n], n + 1)
    ensures k < |q| ==> Selects(q[..k] + q[k + 1..], n)
  {}

  /** Most steps only move messages along. */
  predicate Moves(s: State, a: Action) {
    a.Take? || a.Put? || a.SeeStop? || a.DrainEnd? || a.Consume? || a.Cancel? || (a.DrainOne? && |s.out| < CAP)
  }

  lemma MovingKeepsFlow(s: State, a: Action)
    requires Enabled(s, a) && Moves(s, a)
    ensures Flow(Apply(s, a)) == Flow(s)
  {}

  lemma OfferKeepsInv(s: State)
    requires Inv(s)
    ensures Inv(Apply(s, Offer))
  {
    SelectionGrowsAndShrinks(Flow(s), s.offered, 0);
    if |s.ch| < CAP {
      assert Flow(Apply(s, Offer)) == Flow(s) + [s.offered];
    } else {
      assert Flow(Apply(s, Offer)) == Flow(s) && |Flow(s)| >= |s.ch|;
    }
  }

  lemma DiscardKeepsInv(s: State)
    requires Inv(s) && Enabled(s, DrainOne) && |s.out| == CAP
    ensures Inv(Apply(s, DrainOne))
  {
    var k := |s.consumed + s.out|;
    SelectionGrowsAndShrinks(Flow(s), s.offered, k);
    assert Flow(Apply(s, DrainOne)) == Flow(s)[..k] + Flow(s)[k + 1..];
  }

  lemma StepKeepsInv(s: State, a: Action)
    requires Inv(s) && Enabled(s, a)
    ensures Inv(Apply(s, a))
  {
    if a.Offer? {
      OfferKeepsInv(s);
    } else if Moves(s, a) {
      MovingKeepsFlow(s, a);
    } else {
      DiscardKeepsInv(s);
    }
  }

  lemma {:induction false} RunKeepsInv(s: State, acts: seq<Action>)
    requires Inv(s) && Legal(s, acts)
    ensures Inv(Run(s, acts))
    decreases |acts|
  {
    if acts != [] {
      StepKeepsInv(s, acts[0]);
      RunKeepsInv(Apply(s, acts[0]), acts[1..]);
    }
  }

  lemma ReachableInv(s: State)
    requires Reachable(s)
    ensures Inv(s)
  {
    var acts :| Legal(Init(), acts) && Run(Init(), acts) == s;
    RunKeepsInv(Init(), acts);
  }

  /** What a subscriber has received, followed by what it can still receive, is an in-order selection of the
      puts without repetition; nothing is lost but the puts that found the channel full and, after a cancel,
      what the drain could not place. */
  lemma OutputIsOrderedSelection(s: State)
    requires Reachable(s)
    ensures Selects(s.consumed + s.out, s.offered)
    ensures |Flow(s)| == s.offered - s.dropped - s.discarded
    ensures s.stop.Running? ==> s.discarded == 0
  {
    ReachableInv(s);
    var q := s.consumed + s.out;
    assert q == Flow(s)[..|q|];
  }

  /** Of n puts at most max(0, n - 64) are dropped; so a replay of at most 64 entries drops nothing. */
  lemma DropsBounded(s: State)
    requires Reachable(s)
    ensures s.dropped <= if s.offered <= CAP then 0 else s.offered - CAP
  {
    ReachableInv(s);
  }

  /** A put is dropped exactly when the channel holds 64 messages; so a subscriber loses one only while it is at
      least 64 messages behind what has been accepted for it. */
  lemma DropMeansBehind(s: State)
    requires Reachable(s)
    ensures |s.ch| <= CAP && |s.out| <= CAP
    ensures Apply(s, Offer).dropped == s.dropped + (if |s.ch| == CAP then 1 else 0)
    ensures Apply(s, Offer).dropped > s.dropped ==> s.offered - s.dropped - s.discarded - |s.consumed| >= CAP
  {
    ReachableInv(s);
    assert |Flow(s)| >= |s.consumed| + |s.ch|;
  }

  // ------------------------------------------------------------- does the bridge exit?

  predicate OfBridge(a: Action) { a in {Take, Put, SeeStop, DrainOne, DrainEnd} }

  /** A schedule of bridge steps only: no further puts, and nobody consumes. */
  predicate BridgeOnly(acts: seq<Action>) { forall i :: 0 <= i < |acts| ==> OfBridge(acts[i]) }

  ghost predicate Halted(s: State) { forall a :: OfBridge(a) ==> !Enabled(s, a) }

  /** The goroutine is inside its blocking send, and the output is full. */
  predicate Blocked(s: State) { s.bridge.Holding? && |s.out| == CAP }

  /** The bridge has left its main select, or the output has room for all that is still on its way. */
  predicate SureToExit(s: State) {
    s.bridge.Exited? || s.bridge.DrainingLeft? || |s.out| + |Hand(s.bridge)| + |s.ch| <= CAP
  }

  predicate Stopped(s: State) { Inv(s) && s.stop.Cancelled? }

  lemma HaltedMeans(s: State)
    requires Stopped(s)
    ensures Halted(s) <==> s.bridge.Exited? || Blocked(s)
  {
    assert !Enabled(s, Put) || !Blocked(s);
    if s.bridge.Pumping? { assert Enabled(s, SeeStop); }
    if s.bridge.DrainingLeft? { assert Enabled(s, DrainOne) || Enabled(s, DrainEnd); }
    if s.bridge.Holding? && |s.out| < CAP { assert Enabled(s, Put); }
  }

  /** Steps the bridge has left, at most. */
  function BridgeRank(s: State): nat {
    2 * |s.ch| + match s.bridge
      case Exited => 0
      case DrainingLeft => 1
      case Pumping => 2
      case Holding(_) => 3
  }

  lemma BridgeStep(s: State, a: Action)
    requires Stopped(s) && OfBridge(a) && Enabled(s, a)
    ensures Stopped(Apply(s, a)) && BridgeRank(Apply(s, a)) < BridgeRank(s)
    ensures SureToExit(s) ==> SureToExit(Apply(s, a))
  {
    StepKeepsInv(s, a);
  }

  /** Left alone, the bridge comes to a halt, and where exit is sure it has exited. */
  lemma {:induction false} BridgeHalts(s: State, acts: seq<Action>)
    requires Stopped(s) && Legal(s, acts) && BridgeOnly(acts)
    ensures |acts| <= BridgeRank(s) && Stopped(Run(s, acts))
    ensures SureToExit(s) && Halted(Run(s, acts)) ==> Run(s, acts).bridge.Exited?
    decreases |acts|
  {
    if acts == [] {
      HaltedMeans(s);
    } else {
      BridgeStep(s, acts[0]);
      BridgeHalts(Apply(s, acts[0]), acts[1..]);
    }
  }

  lemma StepThenRun(s: State, a: Action, acts: seq<Action>) returns (all: seq<Action>)
    requires OfBridge(a) && Enabled(s, a) && BridgeOnly(acts) && Legal(Apply(s, a), acts)
    ensures BridgeOnly(all) && Legal(s, all) && Run(s, all) == Run(Apply(s, a), acts)
  {
    all := [a] + acts;
    assert all[1..] == acts;
  }

  /** With more on its way than the output has room for, the bridge may go on pumping until it blocks. */
  lemma {:induction false} PumpingBlocks(s: State) returns (acts: seq<Action>)
    requires Stopped(s) && !SureToExit(s)
    ensures Legal(s, acts) && BridgeOnly(acts) && Blocked(Run(s, acts))
    decreases BridgeRank(s)
  {
    if Blocked(s) { return []; }
    var a := if s.bridge.Holding? then Put else Take;
    BridgeStep(s, a);
    acts := PumpingBlocks(Apply(s, a));
    acts := StepThenRun(s, a, acts);
  }

  /** A bridge that is not blocked may see the stop as soon as it is back at its select. */
  lemma {:induction false} StopIsSeen(s: State) returns (acts: seq<Action>)
    requires Stopped(s) && !Blocked(s)
    ensures Legal(s, acts) && BridgeOnly(acts) && Run(s, acts).bridge.Exited?
    decreases BridgeRank(s)
  {
    if s.bridge.Exited? { return []; }
    var a := if s.bridge.Holding? then Put else if s.bridge.Pumping? then SeeStop else if s.ch != [] then DrainOne else DrainEnd;
    BridgeStep(s, a);
    acts := StopIsSeen(Apply(s, a));
    acts := StepThenRun(s, a, acts);
  }

  /** After a cancel, with no further puts and no consumer, every schedule of the bridge ends with its exit if
      and only if the output has room for everything still on its way, or the bridge is already draining. */
  lemma ExitIsCertain(s: State)
    requires Reachable(s) && s.stop.Cancelled?
    ensures (forall acts :: Legal(s, acts) && BridgeOnly(acts) && Halted(Run(s, acts)) ==> Run(s, acts).bridge.Exited?)
            <==> SureToExit(s)
  {
    ReachableInv(s);
    if SureToExit(s) {
      forall acts | Legal(s, acts) && BridgeOnly(acts) && Halted(Run(s, acts)) ensures Run(s, acts).bridge.Exited? {
        BridgeHalts(s, acts);
      }
    } else {
      var acts := PumpingBlocks(s);
      BridgeHalts(s, acts);
      HaltedMeans(Run(s, acts));
    }
  }

  lemma BlockedIsIdle(s: State, acts: seq<Action>)
    requires Blocked(s) && Legal(s, acts) && BridgeOnly(acts)
    ensures acts == []
  {}

  /** After a cancel some schedule of the bridge ends with its exit if and only if it is not already blocked on
      a full output. */
  lemma ExitIsPossible(s: State)
    requires Reachable(s) && s.stop.Cancelled?
    ensures (exists acts :: Legal(s, acts) && BridgeOnly(acts) && Run(s, acts).bridge.Exited?) <==> !Blocked(s)
  {
    ReachableInv(s);
    if Blocked(s) {
      forall acts | Legal(s, acts) && BridgeOnly(acts) ensures !Run(s, acts).bridge.Exited? { BlockedIsIdle(s, acts); }
    } else {
      var acts := StopIsSeen(s);
    }
  }

  /** What is on its way to the subscriber and not yet received, in order. */
  function OnTheWay(s: State): seq<nat> { s.out + Hand(s.bridge) + s.ch }

  function FirstCap(q: seq<nat>): seq<nat> { if |q| <= CAP then q else q[..CAP] }

  lemma BridgeStepDelivers(s: State, a: Action)
    requires Stopped(s) && OfBridge(a) && Enabled(s, a)
    ensures FirstCap(OnTheWay(Apply(s, a))) == FirstCap(OnTheWay(s))
  {
    var n := Apply(s, a);
    if a.DrainOne? && |s.out| == CAP {
      assert OnTheWay(s) == s.out + s.ch && OnTheWay(n) == s.out + s.ch[1..];
    } else {
      assert OnTheWay(n) == OnTheWay(s);
    }
  }

  /** A bridge that exits after a cancel leaves in the output, in order, everything that was on its way, up to the
      output's capacity: the drain gives up only what does not fit. */
  lemma {:induction false} ExitDelivers(s: State, acts: seq<Action>)
    requires Stopped(s) && !s.bridge.Exited? && Legal(s, acts) && BridgeOnly(acts) && Run(s, acts).bridge.Exited?
    ensures Run(s, acts).out == FirstCap(OnTheWay(s)) && Run(s, acts).consumed == s.consumed
    decreases |acts|
  {
    var n := Apply(s, acts[0]);
    BridgeStep(s, acts[0]);
    BridgeStepDelivers(s, acts[0]);
    if n.bridge.Exited? {
      assert acts[0].DrainEnd? && OnTheWay(s) == s.out;
      ExitedIsIdle(n, acts[1..]);
    } else {
      ExitDelivers(n, acts[1..]);
    }
  }

  lemma ExitedIsIdle(s: State, acts: seq<Action>)
    requires s.bridge.Exited? && Legal(s, acts) && BridgeOnly(acts)
    ensures acts == []
  {}

  lemma BlockedStays(s: State, a: Action)
    requires Blocked(s) && Enabled(s, a)
    ensures Blocked(Apply(s, a)) <==> !a.Consume?
  {}

  /** Only the subscriber can free a blocked bridge: over any schedule, with any puts and cancels, it stays blocked
      for as long as nothing is consumed. */
  lemma {:induction false} BlockedForGood(s: State, acts: seq<Action>)
    requires Blocked(s) && Legal(s, acts)
    ensures (forall i :: 0 <= i < |acts| ==> !acts[i].Consume?) ==> Blocked(Run(s, acts)) && Run(s, acts).out == s.out
    decreases |acts|
  {
    if acts != [] && !acts[0].Consume? {
      BlockedStays(s, acts[0]);
      BlockedForGood(Apply(s, acts[0]), acts[1..]);
    }
  }

  // ---------------------------------------------------------------------- a witness

  lemma {:induction false} RunThenStep(s: State, acts: seq<Action>, a: Action)
    requires Legal(s, acts) && Enabled(Run(s, acts), a)
    ensures Legal(s, acts + [a]) && Run(s, acts + [a]) == Apply(Run(s, acts), a)
    decreases |acts|
  {
    if acts == [] {
      assert Legal(Apply(s, a), []) && ([a])[1..] == [];
    } else {
      RunThenStep(Apply(s, acts[0]), acts[1..], a);
      assert (acts + [a])[1..] == acts[1..] + [a];
    }
  }

  lemma ReachableStep(s: State, a: Action) returns (n: State)
    requires Reachable(s) && Enabled(s, a)
    ensures n == Apply(s, a) && Reachable(n)
  {
    n := Apply(s, a);
    var acts :| Legal(Init(), acts) && Run(Init(), acts) == s;
    RunThenStep(Init(), acts, a);
  }

  /** Events arrive and are bridged while nobody consumes. */
  lemma {:induction false} Filled(k: nat) returns (n: State)
    requires k <= CAP
    ensures Reachable(n) && n.bridge.Pumping? && n.ch == [] && |n.out| == k == n.offered && n.stop.Running?
  {
    if k == 0 {
      n := Init();
      assert Legal(n, []) && Run(n, []) == n;
    } else {
      n := Filled(k - 1);
      n := ReachableStep(n, Offer);
      n := ReachableStep(n, Take);
      n := ReachableStep(n, Put);
    }
  }

  /** Sixty-five events nobody consumed, and a cancel: the goroutine stays. */
  lemma BlockedWitness() returns (n: State)
    ensures Reachable(n) && n.stop.Cancelled? && Blocked(n) && n.offered == 65
  {
    n := Filled(CAP);
    ReachableInv(n);
    n := ReachableStep(n, Offer);
    n := ReachableStep(n, Take);
    n := ReachableStep(n, Cancel);
  }
}
