/**
  One call of Subscribe against dispatchers that push an event into the ring and, in a later step, copy
  the subscriber table for the fan-out (dap.go:1104-1113, 1194-1214).  The replay puts one entry at a time,
  so live events can come in between.

  Every action takes one tick of a logical clock, so "before" below is the order of a run.
  */
module SubscribeProtocol {

  datatype Event = Event(kind: nat, time: nat)

  datatype At = Never | At(t: nat)

  /** The code takes the snapshot first; RegisterFirst is the other order. */
  datatype Order = SnapshotFirst | RegisterFirst

  /** readLoop is the only dispatcher of a running client; Many lets any number interleave. */
  datatype Dispatchers = Single | Many

  datatype Config = Config(order: Order, dispatchers: Dispatchers, cap: nat, kind: nat, since: nat)

  /** One put on the new subscription's channel: of which event, and from where. */
  datatype Put = Live(i: nat) | Replay(i: nat)

  datatype State = State(
    clock: nat,
    log: seq<Event>,           // every event pushed; an event is named by its position
    pushAt: seq<nat>,          // when each was pushed
    copyAt: map<nat, nat>,     // when each was copied out for the fan-out
    snapAt: At,
    snapLen: nat,              // length of the log at the snapshot
    regAt: At,
    next: nat,                 // the next entry of the snapshot to replay
    replayAt: map<nat, nat>,   // when each entry was replayed
    puts: seq<Put>,            // the puts on the new subscription's channel, in order
    received: seq<nat>)        // how often each event was put there

  function Init(): State { State(0, [], [], map[], Never, 0, Never, 0, map[], [], []) }

  datatype Action = Push(e: Event) | Copy(i: nat) | Snapshot | Register | ReplayNext

  predicate AllCopied(s: State) { forall i :: 0 <= i < |s.log| ==> i in s.copyAt }

  predicate Enabled(c: Config, s: State, a: Action) {
    match a
    case Push(_) => c.dispatchers.Many? || AllCopied(s)
    case Copy(i) => i < |s.log| && i !in s.copyAt
    case Snapshot => s.snapAt.Never? && (c.order.RegisterFirst? ==> s.regAt.At?)
    case Register => s.regAt.Never? && (c.order.SnapshotFirst? ==> s.snapAt.At?)
    case ReplayNext => s.snapAt.At? && s.regAt.At? && s.next < s.snapLen && s.next < |s.log|
  }

  /** Entry `i` passes the type and time filters of the replay. */
  predicate Matches(c: Config, s: State, i: nat)
    requires i < |s.log|
  {
    s.log[i].kind == c.kind && s.log[i].time >= c.since
  }

  /** Entry `i` was among the last `cap` of the snapshot and has been replayed. */
  predicate Replayed(c: Config, s: State, i: nat)
    requires i < |s.log|
  {
    s.snapAt.At? && i < s.next && s.snapLen <= i + c.cap && Matches(c, s, i)
  }

  function Apply(c: Config, s: State, a: Action): State
    requires |s.received| == |s.log| && Enabled(c, s, a)
  {
    var s := s.(clock := s.clock + 1);
    match a
    case Push(e) => s.(log := s.log + [e], pushAt := s.pushAt + [s.clock], received := s.received + [0])
    case Copy(i) =>
      var s1 := s.(copyAt := s.copyAt[i := s.clock]);
      if s.regAt.At? && s.log[i].kind == c.kind
      then s1.(received := s.received[i := s.received[i] + 1], puts := s.puts + [Live(i)])
      else s1
    case Snapshot =>
      s.(snapAt := At(s.clock), snapLen := |s.log|, next := if |s.log| <= c.cap then 0 else |s.log| - c.cap)
    case Register => s.(regAt := At(s.clock))
    case ReplayNext =>
      var s1 := s.(next := s.next + 1);
      if Matches(c, s, s.next)
      then s1.(received := s.received[s.next := s.received[s.next] + 1], puts := s.puts + [Replay(s.next)],
               replayAt := s.replayAt[s.next := s.clock])
      else s1
  }

  predicate Legal(c: Config, s: State, acts: seq<Action>)
    requires |s.received| == |s.log|
    decreases |acts|
  {
    acts == [] || (Enabled(c, s, acts[0]) && Legal(c, Apply(c, s, acts[0]), acts[1..]))
  }

  function Run(c: Config, s: State, acts: seq<Action>): (end: State)
    requires |s.received| == |s.log| && Legal(c, s, acts)
    ensures |end.received| == |end.log|
    decreases |acts|
  {
    if acts == [] then s else Run(c, Apply(c, s, acts[0]), acts[1..])
  }

  ghost predicate Reachable(c: Config, s: State) {
    exists acts :: Legal(c, Init(), acts) && Run(c, Init(), acts) == s
  }

  // ------------------------------------------------------------------- invariant

  predicate PushedBefore(s: State, i: nat, x: At)
    requires i < |s.pushAt|
  {
    x.At? && s.pushAt[i] < x.t
  }

  predicate CopiedAfter(s: State, i: nat, x: At) {
    x.At? && i in s.copyAt && x.t < s.copyAt[i]
  }

  /** Everything the invariant says about one event. */
  predicate EventOk(c: Config, s: State, i: nat)
    requires i < |s.log| == |s.pushAt| == |s.received|
  {
    && s.pushAt[i] <= s.clock
    && (i in s.copyAt ==> s.pushAt[i] < s.copyAt[i] <= s.clock)
    && (s.snapAt.At? ==> s.pushAt[i] != s.snapAt.t && (i < s.snapLen <==> PushedBefore(s, i, s.snapAt)))
    && (s.regAt.At? && i in s.copyAt ==> s.copyAt[i] != s.regAt.t)
    && s.received[i] == (if Replayed(c, s, i) then 1 else 0)
                        + (if CopiedAfter(s, i, s.regAt) && s.log[i].kind == c.kind then 1 else 0)
  }

  /** The clock, the snapshot, the registration and the replay are in the order the code gives them. */
  predicate TimesOk(c: Config, s: State) {
    && |s.log| == |s.pushAt| == |s.received|
    && (forall i :: i in s.copyAt ==> i < |s.log|)
    && (s.snapAt.At? ==> s.snapAt.t <= s.clock && s.snapLen <= |s.log|)
    && (s.regAt.At? ==> s.regAt.t <= s.clock)
    && (s.snapAt.At? && s.regAt.At? ==> if c.order.SnapshotFirst? then s.snapAt.t < s.regAt.t else s.regAt.t < s.snapAt.t)
    && (s.snapAt.At? ==> s.next <= s.snapLen <= s.next + c.cap)
    && (s.snapAt.At? && s.regAt.Never? ==> s.next == 0 || s.snapLen == s.next + c.cap)
    && (s.snapAt.Never? && s.regAt.At? ==> c.order.RegisterFirst?)
    && (s.regAt.Never? && s.snapAt.At? ==> c.order.SnapshotFirst?)
  }

  /** Event `i` is copied out before event `j` is pushed. */
  predicate InTurn(s: State, i: nat, j: nat)
    requires j < |s.pushAt|
  {
    i in s.copyAt && s.copyAt[i] < s.pushAt[j]
  }

  predicate Inv(c: Config, s: State) {
    && TimesOk(c, s)
    && (forall i :: 0 <= i < |s.log| ==> EventOk(c, s, i))
    && (c.dispatchers.Single? ==> forall i, j :: 0 <= i < j < |s.log| ==> InTurn(s, i, j))
  }

  lemma NewEventOk(c: Config, s: State, a: Action)
    requires Inv(c, s) && Enabled(c, s, a) && a.Push?
    ensures EventOk(c, Apply(c, s, a), |s.log|)
  {}

  lemma CopyKeepsEvent(c: Config, s: State, j: nat, i: nat)
    requires Inv(c, s) && Enabled(c, s, Copy(j)) && i < |s.log|
    ensures EventOk(c, Apply(c, s, Copy(j)), i)
  {
    assert EventOk(c, s, i);
    var n := Apply(c, s, Copy(j));
    assert Replayed(c, n, i) == Replayed(c, s, i);
    if i != j { assert n.received[i] == s.received[i] && CopiedAfter(n, i, n.regAt) == CopiedAfter(s, i, s.regAt); }
  }

  lemma ReplayKeepsEvent(c: Config, s: State, i: nat)
    requires Inv(c, s) && Enabled(c, s, ReplayNext) && i < |s.log|
    ensures EventOk(c, Apply(c, s, ReplayNext), i)
  {
    assert EventOk(c, s, i);
    var n := Apply(c, s, ReplayNext);
    assert CopiedAfter(n, i, n.regAt) == CopiedAfter(s, i, s.regAt);
    if i != s.next { assert n.received[i] == s.received[i] && Replayed(c, n, i) == Replayed(c, s, i); }
  }

  lemma StepKeepsEvent(c: Config, s: State, a: Action, i: nat)
    requires Inv(c, s) && Enabled(c, s, a) && i < |s.log|
    ensures EventOk(c, Apply(c, s, a), i)
  {
    assert EventOk(c, s, i);
    match a
    case Push(_) => assert Apply(c, s, a).received[i] == s.received[i];
    case Copy(j) => CopyKeepsEvent(c, s, j, i);
    case Snapshot => assert Apply(c, s, a).received == s.received && i < Apply(c, s, a).snapLen;
    case Register => assert Apply(c, s, a).received == s.received;
    case ReplayNext => ReplayKeepsEvent(c, s, i);
  }

  /** With one dispatcher an event is fanned out before the next one is pushed. */
  lemma StepKeepsTurns(c: Config, s: State, a: Action, i: nat, j: nat)
    requires Inv(c, s) && Enabled(c, s, a) && c.dispatchers.Single?
    requires i < j < |Apply(c, s, a).log| == |Apply(c, s, a).pushAt|
    ensures InTurn(Apply(c, s, a), i, j)
  {
    assert EventOk(c, s, i);
    if j < |s.log| {
      assert InTurn(s, i, j);
    } else {
      assert a.Push? && i in s.copyAt && s.copyAt[i] <= s.clock;
    }
  }

  lemma StepKeepsTimes(c: Config, s: State, a: Action)
    requires Inv(c, s) && Enabled(c, s, a)
    ensures TimesOk(c, Apply(c, s, a))
  {}

  lemma StepKeepsInv(c: Config, s: State, a: Action)
    requires Inv(c, s) && Enabled(c, s, a)
    ensures Inv(c, Apply(c, s, a))
  {
    var n := Apply(c, s, a);
    StepKeepsTimes(c, s, a);
    forall i | 0 <= i < |n.log| ensures EventOk(c, n, i) {
      if i < |s.log| { StepKeepsEvent(c, s, a, i); } else { NewEventOk(c, s, a); }
    }
    forall i, j | 0 <= i < j < |n.log| && c.dispatchers.Single? ensures InTurn(n, i, j) {
      StepKeepsTurns(c, s, a, i, j);
    }
  }

  lemma {:induction false} RunKeepsInv(c: Config, s: State, acts: seq<Action>)
    requires Inv(c, s) && Legal(c, s, acts)
    ensures Inv(c, Run(c, s, acts))
    decreases |acts|
  {
    if acts != [] {
      StepKeepsInv(c, s, acts[0]);
      RunKeepsInv(c, Apply(c, s, acts[0]), acts[1..]);
    }
  }

  lemma ReachableInv(c: Config, s: State)
    requires Reachable(c, s)
    ensures Inv(c, s)
  {
    var acts :| Legal(c, Init(), acts) && Run(c, Init(), acts) == s;
    RunKeepsInv(c, Init(), acts);
  }

  // ------------------------------------------------------------------ what the times are

  /** The events of the pushes of a schedule, in order. */
  function Pushed(acts: seq<Action>): seq<Event> {
    if acts == [] then []
    else
      var before, a := Pushed(acts[..|acts| - 1]), acts[|acts| - 1];
      if a.Push? then before + [a.e] else before
  }

  lemma {:induction false} LastStep(c: Config, s: State, acts: seq<Action>, a: Action)
    requires |s.received| == |s.log| && Legal(c, s, acts + [a])
    ensures Legal(c, s, acts) && Enabled(c, Run(c, s, acts), a)
    ensures Run(c, s, acts + [a]) == Apply(c, Run(c, s, acts), a)
    decreases |acts|
  {
    if acts == [] {
      assert ([a])[1..] == [];
    } else {
      assert (acts + [a])[1..] == acts[1..] + [a];
      LastStep(c, Apply(c, s, acts[0]), acts[1..], a);
    }
  }

  /** Step `t` of the schedule is `a`; the first step is number one. */
  predicate StepIs(acts: seq<Action>, t: nat, a: Action) { 1 <= t <= |acts| && acts[t - 1] == a }

  /** Every recorded time is the number of the step it records. */
  predicate TimesOf(s: State, acts: seq<Action>) {
    && s.clock == |acts| && s.log == Pushed(acts) && |s.pushAt| == |s.log|
    && (forall i :: 0 <= i < |s.log| ==> StepIs(acts, s.pushAt[i], Push(s.log[i])))
    && (forall i :: i in s.copyAt ==> StepIs(acts, s.copyAt[i], Copy(i)))
    && (s.snapAt.At? ==> StepIs(acts, s.snapAt.t, Snapshot) && s.snapLen == |Pushed(acts[..s.snapAt.t])|)
    && (s.regAt.At? ==> StepIs(acts, s.regAt.t, Register))
    && (forall i :: i in s.replayAt ==> StepIs(acts, s.replayAt[i], ReplayNext))
  }

  lemma StepStays(acts: seq<Action>, a: Action, t: nat, b: Action)
    requires StepIs(acts, t, b)
    ensures StepIs(acts + [a], t, b) && (acts + [a])[..t] == acts[..t]
  {}

  lemma TimesGrow(c: Config, s: State, acts: seq<Action>, a: Action)
    requires Inv(c, s) && TimesOf(s, acts) && Enabled(c, s, a)
    ensures TimesOf(Apply(c, s, a), acts + [a])
  {
    var n, all := Apply(c, s, a), acts + [a];
    assert all[..|acts|] == acts && all[..|all|] == all && StepIs(all, |all|, a);
    forall i | 0 <= i < |n.log| ensures StepIs(all, n.pushAt[i], Push(n.log[i])) {
      if i < |s.log| { StepStays(acts, a, s.pushAt[i], Push(s.log[i])); }
    }
    forall i | i in n.copyAt ensures StepIs(all, n.copyAt[i], Copy(i)) {
      if i in s.copyAt && a != Copy(i) { StepStays(acts, a, s.copyAt[i], Copy(i)); }
    }
    forall i | i in n.replayAt ensures StepIs(all, n.replayAt[i], ReplayNext) {
      if i in s.replayAt && n.replayAt[i] == s.replayAt[i] { StepStays(acts, a, s.replayAt[i], ReplayNext); }
    }
    if s.snapAt.At? { StepStays(acts, a, s.snapAt.t, Snapshot); }
    if s.regAt.At? { StepStays(acts, a, s.regAt.t, Register); }
  }

  /** The log of a run is what its schedule pushes, and the times the theorems speak of are the numbers of its
      steps. */
  lemma {:induction false} TimesAreSteps(c: Config, acts: seq<Action>)
    requires Legal(c, Init(), acts)
    ensures TimesOf(Run(c, Init(), acts), acts)
    decreases |acts|
  {
    if acts != [] {
      var n := |acts| - 1;
      assert acts == acts[..n] + [acts[n]];
      LastStep(c, Init(), acts[..n], acts[n]);
      TimesAreSteps(c, acts[..n]);
      RunKeepsInv(c, Init(), acts[..n]);
      TimesGrow(c, Run(c, Init(), acts[..n]), acts[..n], acts[n]);
    }
  }

  // -------------------------------------------------------------------- theorems

  /** The subscription is complete and event `i` has been fanned out. */
  predicate Finished(s: State, i: nat) {
    s.snapAt.At? && s.regAt.At? && s.next == s.snapLen && i < |s.log| && i in s.copyAt
  }

  /** The event is of the subscribed type, recent enough, and not pushed out of the ring before the snapshot. */
  predicate PassesFilters(c: Config, s: State, i: nat)
    requires i < |s.log|
  {
    s.log[i].kind == c.kind && s.log[i].time >= c.since && s.snapLen <= i + c.cap
  }

  /** The delivery count of every event in every run of Subscribe as written: none exactly when push and copy
      both fall between snapshot and registration, two exactly when they enclose both, one otherwise. */
  lemma DeliveryCount(c: Config, s: State, i: nat)
    requires Reachable(c, s) && c.order.SnapshotFirst? && Finished(s, i) && PassesFilters(c, s, i)
    ensures |s.received| == |s.log| == |s.pushAt|
    ensures s.received[i] <= 2
    ensures s.received[i] == 0 <==> s.snapAt.t < s.pushAt[i] && s.copyAt[i] < s.regAt.t
    ensures s.received[i] == 2 <==> s.pushAt[i] < s.snapAt.t && s.regAt.t < s.copyAt[i]
  {
    ReachableInv(c, s);
    assert EventOk(c, s, i);
  }

  /** What the filters leave out of the count. */
  lemma FilteredDelivery(c: Config, s: State, i: nat)
    requires Reachable(c, s) && i < |s.log|
    ensures |s.received| == |s.log|
    ensures s.log[i].kind != c.kind ==> s.received[i] == 0
    ensures s.log[i].time < c.since || s.snapLen > i + c.cap ==>
              (s.received[i] == 1 <==> CopiedAfter(s, i, s.regAt) && s.log[i].kind == c.kind) && s.received[i] <= 1
  {
    ReachableInv(c, s);
    assert EventOk(c, s, i);
  }

  /** With one dispatcher only the last event of the snapshot can be duplicated. */
  lemma SingleDispatcherDuplicate(c: Config, s: State, i: nat)
    requires Reachable(c, s) && c.order.SnapshotFirst? && c.dispatchers.Single?
    requires Finished(s, i) && PassesFilters(c, s, i)
    ensures |s.received| == |s.log|
    ensures s.received[i] == 2 ==> i == s.snapLen - 1
  {
    ReachableInv(c, s);
    DeliveryCount(c, s, i);
    assert EventOk(c, s, i);
    if i + 1 < s.snapLen { assert EventOk(c, s, i + 1) && InTurn(s, i, i + 1); }
  }

  /** With one dispatcher the missed events are contiguous. */
  lemma SingleDispatcherGap(c: Config, s: State, i: nat, j: nat, k: nat)
    requires Reachable(c, s) && c.order.SnapshotFirst? && c.dispatchers.Single?
    requires i < j < k && Finished(s, i) && Finished(s, j) && Finished(s, k)
    requires PassesFilters(c, s, i) && PassesFilters(c, s, j) && PassesFilters(c, s, k)
    ensures |s.received| == |s.log|
    ensures s.received[i] == 0 && s.received[k] == 0 ==> s.received[j] == 0
  {
    ReachableInv(c, s);
    assert EventOk(c, s, i) && EventOk(c, s, j) && EventOk(c, s, k);
    DeliveryCount(c, s, i);
    DeliveryCount(c, s, j);
    DeliveryCount(c, s, k);
    assert InTurn(s, i, j) && InTurn(s, j, k);
  }

  /** Registering before the snapshot would miss nothing, at the price of more duplicates. */
  lemma RegisterFirstMissesNothing(c: Config, s: State, i: nat)
    requires Reachable(c, s) && c.order.RegisterFirst? && Finished(s, i) && PassesFilters(c, s, i)
    ensures |s.received| == |s.log| == |s.pushAt|
    ensures 1 <= s.received[i] <= 2
    ensures s.received[i] == 2 <==> s.pushAt[i] < s.snapAt.t && s.regAt.t < s.copyAt[i]
  {
    ReachableInv(c, s);
    assert EventOk(c, s, i);
  }

  // ----------------------------------------------------------- the order on the channel

  /** The event is of the subscribed type and fanned out after the registration. */
  predicate FannedOut(c: Config, s: State, i: nat) {
    i < |s.log| && CopiedAfter(s, i, s.regAt) && s.log[i].kind == c.kind
  }

  predicate PutOk(c: Config, s: State, x: Put) {
    match x
    case Live(i) => FannedOut(c, s, i) && s.copyAt[i] <= s.clock
    case Replay(i) => i < s.next && i < |s.log| && s.snapAt.At? && i in s.replayAt && s.replayAt[i] <= s.clock
  }

  function PutTime(c: Config, s: State, x: Put): nat
    requires PutOk(c, s, x)
  {
    match x
    case Live(i) => s.copyAt[i]
    case Replay(i) => s.replayAt[i]
  }

  /** Puts are in the order of their times, and those from the same side in push order. */
  predicate InOrder(c: Config, s: State, x: Put, y: Put)
    requires PutOk(c, s, x) && PutOk(c, s, y)
  {
    PutTime(c, s, x) < PutTime(c, s, y) && (x.Live? == y.Live? ==> x.i < y.i)
  }

  ghost predicate PutsOk(c: Config, s: State) {
    && (forall p :: 0 <= p < |s.puts| ==> PutOk(c, s, s.puts[p]))
    && (forall p, q :: 0 <= p < q < |s.puts| ==> InOrder(c, s, s.puts[p], s.puts[q]))
    && (forall i: nat :: FannedOut(c, s, i) ==> Live(i) in s.puts)
    && (forall i :: i in s.replayAt ==> Replay(i) in s.puts)
  }

  /** With one dispatcher only the newest event can still have to be fanned out. */
  lemma CopyIsNewest(c: Config, s: State, i: nat)
    requires Inv(c, s) && c.dispatchers.Single? && Enabled(c, s, Copy(i))
    ensures i == |s.log| - 1
  {
    assert i + 1 < |s.log| ==> InTurn(s, i, i + 1);
  }

  /** A put stays what it was. */
  lemma PutStays(c: Config, s: State, a: Action, x: Put)
    requires Inv(c, s) && Enabled(c, s, a) && PutOk(c, s, x)
    ensures PutOk(c, Apply(c, s, a), x) && PutTime(c, Apply(c, s, a), x) == PutTime(c, s, x)
  {}

  /** A new put is the newest of its side. */
  lemma NewPut(c: Config, s: State, a: Action, x: Put)
    requires Inv(c, s) && c.dispatchers.Single? && Enabled(c, s, a) && Apply(c, s, a).puts == s.puts + [x]
    ensures PutOk(c, Apply(c, s, a), x) && PutTime(c, Apply(c, s, a), x) == s.clock + 1
    ensures x == if a.Copy? then Live(|s.log| - 1) else Replay(s.next)
  {
    assert |Apply(c, s, a).puts| == |s.puts| + 1 && Apply(c, s, a).puts[|s.puts|] == x;
    if a.Copy? { CopyIsNewest(c, s, a.i); }
  }

  lemma NewPutInOrder(c: Config, s: State, a: Action, x: Put, y: Put)
    requires Inv(c, s) && c.dispatchers.Single? && Enabled(c, s, a) && Apply(c, s, a).puts == s.puts + [y]
    requires PutOk(c, s, x)
    ensures var n := Apply(c, s, a); PutOk(c, n, x) && PutOk(c, n, y) && InOrder(c, n, x, y)
  {
    PutStays(c, s, a, x);
    NewPut(c, s, a, y);
  }

  /** A step makes at most one put. */
  lemma OnePut(c: Config, s: State, a: Action)
    requires Inv(c, s) && Enabled(c, s, a)
    ensures var n := Apply(c, s, a); n.puts == s.puts || (|n.puts| == |s.puts| + 1 && n.puts == s.puts + [n.puts[|s.puts|]])
  {}

  lemma StepKeepsOrder(c: Config, s: State, a: Action)
    requires Inv(c, s) && PutsOk(c, s) && c.dispatchers.Single? && Enabled(c, s, a)
    ensures var n := Apply(c, s, a);
            && (forall p :: 0 <= p < |n.puts| ==> PutOk(c, n, n.puts[p]))
            && (forall p, q :: 0 <= p < q < |n.puts| ==> InOrder(c, n, n.puts[p], n.puts[q]))
  {
    var n := Apply(c, s, a);
    OnePut(c, s, a);
    forall p | 0 <= p < |n.puts| ensures PutOk(c, n, n.puts[p]) {
      if p < |s.puts| { PutStays(c, s, a, s.puts[p]); } else { NewPut(c, s, a, n.puts[p]); }
    }
    forall p, q | 0 <= p < q < |n.puts| ensures InOrder(c, n, n.puts[p], n.puts[q]) {
      if q < |s.puts| {
        assert InOrder(c, s, s.puts[p], s.puts[q]);
        PutStays(c, s, a, s.puts[p]);
        PutStays(c, s, a, s.puts[q]);
      } else {
        NewPutInOrder(c, s, a, s.puts[p], n.puts[q]);
      }
    }
  }

  lemma StepKeepsAllPuts(c: Config, s: State, a: Action)
    requires Inv(c, s) && PutsOk(c, s) && Enabled(c, s, a)
    ensures forall i: nat :: FannedOut(c, Apply(c, s, a), i) ==> Live(i) in Apply(c, s, a).puts
    ensures forall i :: i in Apply(c, s, a).replayAt ==> Replay(i) in Apply(c, s, a).puts
  {
    var n := Apply(c, s, a);
    forall i: nat | FannedOut(c, n, i) ensures Live(i) in n.puts {
      if a == Copy(i) {
        assert n.puts[|s.puts|] == Live(i);
      } else {
        assert i < |s.log| ==> EventOk(c, s, i);
        assert FannedOut(c, s, i);
      }
    }
    if a.ReplayNext? && n.puts != s.puts { assert n.puts[|s.puts|] == Replay(s.next); }
  }

  lemma StepKeepsPuts(c: Config, s: State, a: Action)
    requires Inv(c, s) && PutsOk(c, s) && c.dispatchers.Single? && Enabled(c, s, a)
    ensures PutsOk(c, Apply(c, s, a))
  {
    StepKeepsOrder(c, s, a);
    StepKeepsAllPuts(c, s, a);
  }

  lemma {:induction false} RunKeepsPuts(c: Config, s: State, acts: seq<Action>)
    requires Inv(c, s) && PutsOk(c, s) && c.dispatchers.Single? && Legal(c, s, acts)
    ensures PutsOk(c, Run(c, s, acts))
    decreases |acts|
  {
    if acts != [] {
      StepKeepsPuts(c, s, acts[0]);
      StepKeepsInv(c, s, acts[0]);
      RunKeepsPuts(c, Apply(c, s, acts[0]), acts[1..]);
    }
  }

  predicate InPushOrder(puts: seq<Put>) { forall p, q :: 0 <= p < q < |puts| ==> puts[p].i <= puts[q].i }

  /** No event that is fanned out after the registration precedes the replay of another one. */
  ghost predicate NoOvertaking(c: Config, s: State) {
    forall i: nat, j: nat :: i in s.replayAt && FannedOut(c, s, j) && s.copyAt[j] < s.replayAt[i] ==> i == j
  }

  /** With one dispatcher the channel is in push order if and only if no fan-out overtakes the replay. */
  lemma ChannelOrder(c: Config, s: State)
    requires Reachable(c, s) && c.order.SnapshotFirst? && c.dispatchers.Single?
    ensures InPushOrder(s.puts) <==> NoOvertaking(c, s)
  {
    ReachableInv(c, s);
    var acts :| Legal(c, Init(), acts) && Run(c, Init(), acts) == s;
    RunKeepsPuts(c, Init(), acts);
    if InPushOrder(s.puts) { OrderMeansNoOvertaking(c, s); }
    if NoOvertaking(c, s) { NoOvertakingMeansOrder(c, s); }
  }

  lemma NoOvertakingMeansOrder(c: Config, s: State)
    requires Inv(c, s) && PutsOk(c, s) && c.order.SnapshotFirst? && c.dispatchers.Single? && NoOvertaking(c, s)
    ensures InPushOrder(s.puts)
  {
    forall p, q | 0 <= p < q < |s.puts| ensures s.puts[p].i <= s.puts[q].i {
      assert InOrder(c, s, s.puts[p], s.puts[q]);
      CrossOrder(c, s, p, q);
    }
  }

  lemma TimesTell(c: Config, s: State, p: nat, q: nat)
    requires PutsOk(c, s) && p < |s.puts| && q < |s.puts| && p != q
    ensures PutTime(c, s, s.puts[p]) < PutTime(c, s, s.puts[q]) <==> p < q
  {
    if p < q { assert InOrder(c, s, s.puts[p], s.puts[q]); } else { assert InOrder(c, s, s.puts[q], s.puts[p]); }
  }

  lemma OrderMeansNoOvertaking(c: Config, s: State)
    requires Inv(c, s) && PutsOk(c, s) && c.order.SnapshotFirst? && c.dispatchers.Single? && InPushOrder(s.puts)
    ensures NoOvertaking(c, s)
  {
    forall i: nat, j: nat | i in s.replayAt && FannedOut(c, s, j) && s.copyAt[j] < s.replayAt[i] ensures i == j {
      var p :| 0 <= p < |s.puts| && s.puts[p] == Live(j);
      var q :| 0 <= q < |s.puts| && s.puts[q] == Replay(i);
      TimesTell(c, s, p, q);
      CrossOrder(c, s, p, q);
    }
  }

  lemma CrossOrder(c: Config, s: State, p: nat, q: nat)
    requires Inv(c, s) && PutsOk(c, s) && c.order.SnapshotFirst? && c.dispatchers.Single? && p < q < |s.puts|
    ensures !(s.puts[p].Live? && s.puts[q].Replay?) ==> s.puts[p].i <= s.puts[q].i
    ensures s.puts[p].Live? && s.puts[q].Replay? ==> s.puts[q].i <= s.puts[p].i
  {
    assert PutOk(c, s, s.puts[p]) && PutOk(c, s, s.puts[q]) && InOrder(c, s, s.puts[p], s.puts[q]);
    if s.puts[p].Live? { LiveIsNew(c, s, s.puts[p].i); }
    if s.puts[q].Live? { LiveIsNew(c, s, s.puts[q].i); }
  }

  /** What is fanned out after the registration is not older than the last event of the snapshot. */
  lemma LiveIsNew(c: Config, s: State, i: nat)
    requires Inv(c, s) && c.order.SnapshotFirst? && c.dispatchers.Single?
    requires i < |s.log| && CopiedAfter(s, i, s.regAt)
    ensures s.snapAt.At? && s.snapLen <= i + 1
  {
    if i + 1 < |s.log| { assert EventOk(c, s, i + 1) && InTurn(s, i, i + 1); }
  }

  /** With one entry to replay, a newer event is pushed and fanned out first. */
  lemma Overtake(c: Config, s: State) returns (acts: seq<Action>)
    requires c == Config(SnapshotFirst, Single, 64, 0, 0) && |s.received| == |s.log| == 1 && s.log[0] == Event(0, 1)
    requires 0 in s.copyAt && 1 !in s.copyAt && s.snapAt.At? && s.regAt.At? && s.snapLen == 1 && s.next == 0 && s.puts == []
    ensures Legal(c, s, acts) && Run(c, s, acts).puts == [Live(1), Replay(0)]
  {
    var s1 := Apply(c, s, Push(Event(0, 2)));
    var s2 := Apply(c, s1, Copy(1));
    assert s2.puts == [Live(1)] && s2.next == 0 && s2.snapLen == 1;
    acts := StepThenRun(c, s2, ReplayNext, []);
    acts := StepThenRun(c, s1, Copy(1), acts);
    acts := StepThenRun(c, s, Push(Event(0, 2)), acts);
  }

  /** A newer event is fanned out between the registration and the replay of an older one. */
  lemma OvertakingWitness(c: Config) returns (acts: seq<Action>)
    requires c == Config(SnapshotFirst, Single, 64, 0, 0)
    ensures Legal(c, Init(), acts) && Run(c, Init(), acts).puts == [Live(1), Replay(0)]
  {
    var s1 := Apply(c, Init(), Push(Event(0, 1)));
    var s2 := Apply(c, s1, Copy(0));
    var s3 := Apply(c, s2, Snapshot);
    var s4 := Apply(c, s3, Register);
    acts := Overtake(c, s4);
    acts := StepThenRun(c, s3, Register, acts);
    acts := StepThenRun(c, s2, Snapshot, acts);
    acts := StepThenRun(c, s1, Copy(0), acts);
    acts := StepThenRun(c, Init(), Push(Event(0, 1)), acts);
  }

  // ---------------------------------------------------------------------- a witness

  /** An event can be lost between snapshot and registration: it is pushed and copied out in the window. */
  lemma MissedEventWitness(c: Config) returns (acts: seq<Action>)
    requires c == Config(SnapshotFirst, Single, 64, 0, 0)
    ensures Legal(c, Init(), acts)
    ensures var s := Run(c, Init(), acts); Finished(s, 0) && PassesFilters(c, s, 0) && s.received == [0]
  {
    var s1 := Apply(c, Init(), Snapshot);
    var s2 := Apply(c, s1, Push(Event(0, 1)));
    var s3 := Apply(c, s2, Copy(0));
    var s4 := Apply(c, s3, Register);
    acts := [];
    acts := StepThenRun(c, s3, Register, acts);
    acts := StepThenRun(c, s2, Copy(0), acts);
    acts := StepThenRun(c, s1, Push(Event(0, 1)), acts);
    acts := StepThenRun(c, Init(), Snapshot, acts);
    assert s4.received == [0];
  }

  lemma StepThenRun(c: Config, s: State, a: Action, acts: seq<Action>) returns (all: seq<Action>)
    requires |s.received| == |s.log| && Enabled(c, s, a) && Legal(c, Apply(c, s, a), acts)
    ensures Legal(c, s, all) && Run(c, s, all) == Run(c, Apply(c, s, a), acts)
  {
    all := [a] + acts;
    assert all[1..] == acts;
  }
}
