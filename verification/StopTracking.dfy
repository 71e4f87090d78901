/**
  How the stop-waiting tools use lastStopAt so that no stop is reported twice
  (tools.go:425-461, 603-646, 720-727, 1456-1501, 1799; dap.go:1104-1113, 1200-1214).
  */
module StopTracking {
  import opened EventRing

  const RING_CAP: nat := 64

  datatype Kind = Stopped | Terminated | Other

  /** A dispatched event with its time in the ring; the clock is strictly increasing, so the time names it. */
  datatype Event = Event(kind: Kind, time: nat)

  /** What Subscribe replays of the ring's entries: the stops that are not before `since` (dap.go:1201-1214). */
  function ReplayOf(entries: seq<Event>, since: nat): seq<Event> {
    if entries == [] then []
    else
      var before, e := ReplayOf(entries[..|entries| - 1], since), entries[|entries| - 1];
      if e.kind.Stopped? && e.time >= since then before + [e] else before
  }

  /** The replay as the loop over a snapshot that it is; the new channel has room for the whole ring. */
  method ReplayStops(ring: Ring<Event>, since: nat) returns (ch: seq<Event>)
    requires ring.Valid() && ring.items.Length == RING_CAP
    ensures ch == ReplayOf(Last(ring.history, RING_CAP), since)
    ensures |ch| <= RING_CAP
  {
    var entries := ring.Snapshot();
    ch := [];
    for i := 0 to |entries|
      invariant ch == ReplayOf(entries[..i], since) && |ch| <= i
    {
      assert entries[..i + 1][..i] == entries[..i];
      if entries[i].time < since { continue; }
      if !entries[i].kind.Stopped? { continue; }
      if |ch| < RING_CAP { ch := ch + [entries[i]]; }
    }
    assert entries[..|entries|] == entries;
  }

  lemma {:induction false} ReplayOfIsFilter(entries: seq<Event>, since: nat, e: Event)
    ensures e in ReplayOf(entries, since) <==> e in entries && e.kind.Stopped? && e.time >= since
  {
    if entries != [] {
      ReplayOfIsFilter(entries[..|entries| - 1], since, e);
      assert entries == entries[..|entries| - 1] + [entries[|entries| - 1]];
    }
  }

  // ------------------------------------------------------------------ the protocol

  /** What readLoop, the only dispatcher, is in the middle of. */
  datatype Dispatcher = Quiet | FanningOut(e: Event)

  /** One stop-waiting tool at a time.  It fixes `since`, takes the snapshot, subscribes and receives a stop;
      then it advances lastStopAt and asks for the stack trace, and it reports the stop when that comes. */
  datatype Waiter =
    | Idle
    | Began(since: nat)
    | Snapped(since: nat, avail: seq<Event>)
    | Listening(since: nat, avail: seq<Event>)
    | Picked(e: Event)
    | Reporting(e: Event)

  datatype State = State(
    clock: nat,
    log: seq<Event>,
    dispatcher: Dispatcher,
    lastStopAt: nat,
    waiter: Waiter,
    returned: seq<Event>,      // stops reported since the last reinitialize
    everReturned: seq<Event>)

  function Init(): State { State(0, [], Quiet, 0, Idle, [], []) }

  datatype Action =
    | Push(kind: Kind)
    | Fanout
    | BeginWait                // wait-for-stop: since the last consumed stop
    | BeginStep                // step and pause: since now
    | Snapshot
    | Register
    | Pick(k: nat)             // whichever stop comes first: a live one may overtake the replay
    | Advance
    | Respond                  // readLoop dispatches the stack trace, and the tool returns the stop
    | ReturnAdvanced           // a terminated event, or a pause whose stop never came
    | Quit                     // a timeout or an error
    | Reinitialize             // holds ds.mu, so never between Advance and the report

  predicate Enabled(s: State, a: Action) {
    match a
    case Push(_) => s.dispatcher.Quiet?
    case Fanout => s.dispatcher.FanningOut?
    case BeginWait => s.waiter.Idle?
    case BeginStep => s.waiter.Idle?
    case Snapshot => s.waiter.Began?
    case Register => s.waiter.Snapped?
    case Pick(k) => s.waiter.Listening? && k < |s.waiter.avail|
    case Advance => s.waiter.Picked?
    case Respond => s.waiter.Reporting? && s.dispatcher.Quiet?
    case ReturnAdvanced => s.waiter.Listening?
    case Quit => !s.waiter.Idle?
    case Reinitialize => !s.waiter.Reporting?
  }

  /** The fan-out of one event: a listening tool gets it if it is a stop, whatever its time. */
  function Deliver(w: Waiter, e: Event): Waiter {
    if w.Listening? && e.kind.Stopped? then Listening(w.since, w.avail + [e]) else w
  }

  function Apply(s: State, a: Action): State
    requires Enabled(s, a)
  {
    var s := s.(clock := s.clock + 1);
    match a
    case Push(kind) => var e := Event(kind, s.clock); s.(log := s.log + [e], dispatcher := FanningOut(e))
    case Fanout => s.(waiter := Deliver(s.waiter, s.dispatcher.e), dispatcher := Quiet)
    case BeginWait => s.(waiter := Began(s.lastStopAt))
    case BeginStep => s.(waiter := Began(s.clock))
    case Snapshot => s.(waiter := Snapped(s.waiter.since, ReplayOf(Last(s.log, RING_CAP), s.waiter.since)))
    case Register => s.(waiter := Listening(s.waiter.since, s.waiter.avail))
    case Pick(k) => s.(waiter := Picked(s.waiter.avail[k]))
    case Advance => s.(waiter := Reporting(s.waiter.e), lastStopAt := s.clock)
    case Respond =>
      s.(waiter := Idle, returned := s.returned + [s.waiter.e], everReturned := s.everReturned + [s.waiter.e])
    case ReturnAdvanced => s.(waiter := Idle, lastStopAt := s.clock)
    case Quit => s.(waiter := Idle)
    case Reinitialize => s.(lastStopAt := 0, returned := [])
  }

  predicate Legal(s: State, acts: seq<Action>)
    decreases |acts|
  {
    acts == [] || (Enabled(s, acts[0]) && Legal(Apply(s, acts[0]), acts[1..]))
  }

  function Run(s: State, acts: seq<Action>): State
    requires Legal(s, acts)
    decreases |acts|
  {
    if acts == [] then s else Run(Apply(s, acts[0]), acts[1..])
  }

  ghost predicate Reachable(s: State) {
    exists acts :: Legal(Init(), acts) && Run(Init(), acts) == s
  }

  // ------------------------------------------------------------------- the invariant

  /** Times rise strictly along the sequence and stay below the bound. */
  predicate RisingBelow(q: seq<Event>, bound: nat) {
    (forall i, j :: 0 <= i < j < |q| ==> q[i].time < q[j].time) && forall i :: 0 <= i < |q| ==> q[i].time < bound
  }

  /** The replay keeps the order of the ring. */
  lemma {:induction false} ReplayKeepsOrder(entries: seq<Event>, since: nat, bound: nat)
    requires RisingBelow(entries, bound)
    ensures RisingBelow(ReplayOf(entries, since), bound)
  {
    if entries != [] {
      ReplayKeepsOrder(entries[..|entries| - 1], since, entries[|entries| - 1].time);
    }
  }

  function Avail(w: Waiter): seq<Event> { if w.Snapped? || w.Listening? then w.avail else [] }

  predicate HasSince(w: Waiter) { w.Began? || w.Snapped? || w.Listening? }

  predicate HasStop(w: Waiter) { w.Picked? || w.Reporting? }

  /** No event of `q` has been reported since the last reinitialize, and all are in the past. */
  predicate Unreported(s: State, q: seq<Event>) { forall e :: e in q ==> e !in s.returned && e.time <= s.clock }

  /** The events of `q` are stops that were dispatched. */
  predicate RealStops(s: State, q: seq<Event>) { forall e :: e in q ==> e.kind.Stopped? && e in s.log }

  predicate Real(s: State) {
    && (s.dispatcher.FanningOut? ==> s.dispatcher.e in s.log)
    && RealStops(s, Avail(s.waiter))
    && (HasStop(s.waiter) ==> RealStops(s, [s.waiter.e]))
    && RealStops(s, s.everReturned)
  }

  predicate Inv(s: State) {
    && RisingBelow(s.log, s.clock + 1)
    && s.lastStopAt <= s.clock
    && (HasSince(s.waiter) ==> s.lastStopAt <= s.waiter.since <= s.clock)
    && (forall e :: e in s.returned ==> e.time < s.lastStopAt)
    && (s.dispatcher.FanningOut? ==> Unreported(s, [s.dispatcher.e]))
    && Unreported(s, Avail(s.waiter))
    && (HasStop(s.waiter) ==> Unreported(s, [s.waiter.e]))
    && (s.waiter.Reporting? ==> s.waiter.e.time < s.lastStopAt)
    && (forall i, j :: 0 <= i < j < |s.returned| ==> s.returned[i] != s.returned[j])
  }

  lemma PushKeepsInv(s: State, kind: Kind)
    requires Inv(s) && Enabled(s, Push(kind))
    ensures Inv(Apply(s, Push(kind)))
  {
    assert Event(kind, s.clock + 1) !in s.returned;
  }

  lemma SnapshotKeepsInv(s: State)
    requires Inv(s) && Enabled(s, Snapshot)
    ensures Inv(Apply(s, Snapshot))
  {
    var n := Apply(s, Snapshot);
    forall e | e in Avail(n.waiter) ensures e !in n.returned && e.time <= n.clock {
      ReplayOfIsFilter(Last(s.log, RING_CAP), s.waiter.since, e);
      assert e in s.log;
    }
  }

  /** readLoop has left the reported event's fan-out behind, and the tool has no other copy of it. */
  lemma RespondKeepsInv(s: State)
    requires Inv(s) && Enabled(s, Respond)
    ensures Inv(Apply(s, Respond))
  {
    assert s.waiter.e in [s.waiter.e];
  }

  lemma FanoutKeepsInv(s: State)
    requires Inv(s) && Enabled(s, Fanout)
    ensures Inv(Apply(s, Fanout))
  {
    var n := Apply(s, Fanout);
    assert s.dispatcher.e in [s.dispatcher.e];
    assert Unreported(n, Avail(n.waiter)) by {
      assert Avail(n.waiter) == Avail(s.waiter) || Avail(n.waiter) == Avail(s.waiter) + [s.dispatcher.e];
    }
  }

  lemma PickKeepsInv(s: State, k: nat)
    requires Inv(s) && Enabled(s, Pick(k))
    ensures Inv(Apply(s, Pick(k)))
  {
    assert s.waiter.avail[k] in Avail(s.waiter);
  }

  lemma AdvanceKeepsInv(s: State)
    requires Inv(s) && Enabled(s, Advance)
    ensures Inv(Apply(s, Advance))
  {
    assert s.waiter.e in [s.waiter.e];
  }

  lemma StepKeepsInv(s: State, a: Action)
    requires Inv(s) && Enabled(s, a)
    ensures Inv(Apply(s, a))
  {
    match a
    case Push(kind) => PushKeepsInv(s, kind);
    case Fanout => FanoutKeepsInv(s);
    case Snapshot => SnapshotKeepsInv(s);
    case Pick(k) => PickKeepsInv(s, k);
    case Advance => AdvanceKeepsInv(s);
    case Respond => RespondKeepsInv(s);
    case _ =>
  }

  lemma {:induction false} RunKeepsInv(s: State, acts: seq<Action>)
    requires Inv(s) && Legal(s, acts)
    ensures Inv(Run(s, acts))
    decreases |acts|
  {
    if acts != [] {
      StepKeepsInv(s, acts[0]);
      RunKeepsInv(Apply(s, acts[0]), acts[1..]);
    }
  }

  lemma ReachableInv(s: State)
    requires Reachable(s)
    ensures Inv(s)
  {
    var acts :| Legal(Init(), acts) && Run(Init(), acts) == s;
    RunKeepsInv(Init(), acts);
  }

  lemma StepKeepsReal(s: State, a: Action)
    requires Real(s) && Enabled(s, a)
    ensures Real(Apply(s, a))
  {
    match a
    case Push(kind) => assert forall e :: e in s.log ==> e in Apply(s, a).log;
    case Snapshot => SnapshotIsReal(s);
    case Pick(k) => assert s.waiter.avail[k] in Avail(s.waiter);
    case Respond => assert s.waiter.e in [s.waiter.e];
    case Advance => assert s.waiter.e in [s.waiter.e];
    case _ =>
  }

  lemma SnapshotIsReal(s: State)
    requires Real(s) && Enabled(s, Snapshot)
    ensures Real(Apply(s, Snapshot))
  {
    forall e | e in Avail(Apply(s, Snapshot).waiter) ensures e.kind.Stopped? && e in s.log {
      ReplayOfIsFilter(Last(s.log, RING_CAP), s.waiter.since, e);
    }
  }

  lemma {:induction false} RunKeepsReal(s: State, acts: seq<Action>)
    requires Real(s) && Legal(s, acts)
    ensures Real(Run(s, acts))
    decreases |acts|
  {
    if acts != [] {
      StepKeepsReal(s, acts[0]);
      RunKeepsReal(Apply(s, acts[0]), acts[1..]);
    }
  }

  // -------------------------------------------------------------------- theorems

  /** Between two reinitializations no stop is reported twice, although push and fan-out of an event are two
      steps and a tool may receive a stop from the ring before its fan-out; and only stops that were dispatched
      are ever reported. */
  lemma StopsReportedAtMostOnce(s: State)
    requires Reachable(s)
    ensures forall i, j :: 0 <= i < j < |s.returned| ==> s.returned[i] != s.returned[j]
    ensures forall e :: e in s.everReturned ==> e.kind.Stopped? && e in s.log
  {
    ReachableInv(s);
    var acts :| Legal(Init(), acts) && Run(Init(), acts) == s;
    RunKeepsReal(Init(), acts);
  }

  /** Whichever delivered stop a tool receives, that is the one it can report once readLoop is free. */
  lemma DeliveredStopIsReported(s: State, k: nat)
    requires s.waiter.Listening? && k < |s.waiter.avail| && s.dispatcher.Quiet?
    ensures Enabled(s, Pick(k)) && var s1 := Apply(s, Pick(k));
            Enabled(s1, Advance) && var s2 := Apply(s1, Advance);
            Enabled(s2, Respond) && var n := Apply(s2, Respond);
            n.returned == s.returned + [s.waiter.avail[k]] && n.everReturned == s.everReturned + [s.waiter.avail[k]]
            && n.waiter.Idle? && n.lastStopAt > s.clock
  {}

  /** A stop that comes while a tool listens can be received and reported by it, whatever the tool's `since`. */
  lemma LiveStopIsReported(s: State, kind: Kind) returns (k: nat, n: State)
    requires Reachable(s) && s.waiter.Listening? && s.dispatcher.Quiet? && kind.Stopped?
    ensures var s2 := Apply(Apply(s, Push(kind)), Fanout);
            && Enabled(s2, Pick(k)) && var s3 := Apply(s2, Pick(k));
            && Enabled(s3, Advance) && var s4 := Apply(s3, Advance);
            && Enabled(s4, Respond) && n == Apply(s4, Respond)
    ensures n.returned == s.returned + [Event(Stopped, s.clock + 1)] && n.waiter.Idle?
    ensures n.log == s.log + [Event(Stopped, s.clock + 1)] && n.lastStopAt > s.clock + 1
  {
    k := |s.waiter.avail|;
    var s2 := Apply(Apply(s, Push(kind)), Fanout);
    n := Apply(Apply(Apply(s2, Pick(k)), Advance), Respond);
  }

  /** Events of another kind are never handed to a tool. */
  lemma OtherEventsAreIgnored(s: State)
    requires Enabled(s, Fanout) && !s.dispatcher.e.kind.Stopped?
    ensures Apply(s, Fanout).waiter == s.waiter
  {}

  /** A stop is replayed to a tool if and only if it is not before the tool's `since` and fewer than 64 events of
      any kind followed it up to the snapshot, whatever was dispatched since the tool began. */
  lemma MissedStopIsReplayed(s: State, i: nat)
    requires Reachable(s) && s.waiter.Began? && i < |s.log| && s.log[i].kind.Stopped?
    ensures s.log[i] in Apply(s, Snapshot).waiter.avail <==> s.log[i].time >= s.waiter.since && |s.log| - 1 - i < 64
  {
    ReachableInv(s);
    var entries := Last(s.log, RING_CAP);
    ReplayOfIsFilter(entries, s.waiter.since, s.log[i]);
    if |s.log| - 1 - i < RING_CAP { assert s.log[i] == entries[i - (|s.log| - |entries|)]; }
  }

  /** No tool looks further back than `t`. */
  predicate NotBefore(s: State, t: nat) { s.lastStopAt >= t && (HasSince(s.waiter) ==> s.waiter.since >= t) }

  predicate NoReinitialize(acts: seq<Action>) { forall i :: 0 <= i < |acts| ==> !acts[i].Reinitialize? }

  lemma {:induction false} RunKeepsNotBefore(s: State, acts: seq<Action>, t: nat)
    requires Inv(s) && NotBefore(s, t) && Legal(s, acts) && NoReinitialize(acts)
    ensures Inv(Run(s, acts)) && NotBefore(Run(s, acts), t)
    decreases |acts|
  {
    if acts != [] {
      StepKeepsInv(s, acts[0]);
      RunKeepsNotBefore(Apply(s, acts[0]), acts[1..], t);
    }
  }

  /** What was dispatched before a tool advanced lastStopAt is never replayed before the next reinitialize,
      whatever happens in between: not the stop it consumed, even if it failed before it could report it, nor
      anything before a terminated event. */
  lemma ConsumedStopIsNotReplayed(s: State, a: Action, acts: seq<Action>, e: Event)
    requires Reachable(s) && ((a.Advance? && s.waiter.Picked?) || (a.ReturnAdvanced? && s.waiter.Listening?)) && e in s.log
    requires Legal(Apply(s, a), acts) && NoReinitialize(acts)
    ensures var n := Run(Apply(s, a), acts); n.waiter.Began? ==> e !in Apply(n, Snapshot).waiter.avail
  {
    ReachableInv(s);
    StepKeepsInv(s, a);
    assert e.time < Apply(s, a).lastStopAt;
    OlderIsNotReplayed(Apply(s, a), acts, e);
  }

  lemma OlderIsNotReplayed(s: State, acts: seq<Action>, e: Event)
    requires Inv(s) && !HasSince(s.waiter) && e.time < s.lastStopAt && Legal(s, acts) && NoReinitialize(acts)
    ensures var n := Run(s, acts); n.waiter.Began? ==> e !in Apply(n, Snapshot).waiter.avail
  {
    RunKeepsNotBefore(s, acts, s.lastStopAt);
    var n := Run(s, acts);
    if n.waiter.Began? { ReplayOfIsFilter(Last(n.log, RING_CAP), n.waiter.since, e); }
  }

  /** A wait that ends in a timeout loses nothing: the next one is replayed exactly what this one might have had. */
  lemma TimeoutLosesNothing(s: State, i: nat)
    requires Reachable(s) && HasSince(s.waiter) && i < |s.log| && s.log[i].kind.Stopped?
    ensures var n := Apply(Apply(s, Quit), BeginWait);
            n.waiter.Began? && (s.log[i] in Apply(n, Snapshot).waiter.avail
                                <==> s.log[i].time >= s.lastStopAt && |s.log| - 1 - i < 64)
  {
    var n := ReachableStep(s, Quit);
    n := ReachableStep(n, BeginWait);
    MissedStopIsReplayed(n, i);
  }

  /** Dispatches only. */
  predicate Dispatches(acts: seq<Action>) { forall i :: 0 <= i < |acts| ==> acts[i].Push? || acts[i].Fanout? }

  lemma {:induction false} DispatchesKeepBegan(s: State, acts: seq<Action>)
    requires s.waiter.Began? && Legal(s, acts) && Dispatches(acts)
    ensures Run(s, acts).waiter == s.waiter
    decreases |acts|
  {
    if acts != [] { DispatchesKeepBegan(Apply(s, acts[0]), acts[1..]); }
  }

  /** step and pause see only stops dispatched after they began, whatever is dispatched before their snapshot. */
  lemma StepSeesOnlyNewStops(s: State, acts: seq<Action>, e: Event)
    requires Reachable(s) && s.waiter.Idle? && Legal(Apply(s, BeginStep), acts) && Dispatches(acts)
    ensures var n := Run(Apply(s, BeginStep), acts);
            n.waiter.Began? && (e in s.log ==> e !in Apply(n, Snapshot).waiter.avail)
  {
    ReachableInv(s);
    var s1 := Apply(s, BeginStep);
    DispatchesKeepBegan(s1, acts);
    var n := Run(s1, acts);
    ReplayOfIsFilter(Last(n.log, RING_CAP), n.waiter.since, e);
  }

  // ---------------------------------------------------------------------- witnesses

  lemma {:induction false} RunThenStep(s: State, acts: seq<Action>, a: Action)
    requires Legal(s, acts) && Enabled(Run(s, acts), a)
    ensures Legal(s, acts + [a]) && Run(s, acts + [a]) == Apply(Run(s, acts), a)
    decreases |acts|
  {
    if acts == [] {
      assert Legal(Apply(s, a), []) && ([a])[1..] == [];
    } else {
      RunThenStep(Apply(s, acts[0]), acts[1..], a);
      assert (acts + [a])[1..] == acts[1..] + [a];
    }
  }

  lemma ReachableStep(s: State, a: Action) returns (n: State)
    requires Reachable(s) && Enabled(s, a)
    ensures n == Apply(s, a) && Reachable(n)
  {
    n := Apply(s, a);
    var acts :| Legal(Init(), acts) && Run(Init(), acts) == s;
    RunThenStep(Init(), acts, a);
  }

  /** wait-for-stop on a ring that holds one stop has it replayed, and reports it. */
  lemma WaitReports(s: State, e: Event) returns (n: State)
    requires Reachable(s) && s.waiter.Idle? && s.dispatcher.Quiet?
    requires s.log == [e] && e.kind.Stopped? && e.time >= s.lastStopAt
    ensures Reachable(n)
    ensures n == s.(clock := s.clock + 6, lastStopAt := s.clock + 5,
                    returned := s.returned + [e], everReturned := s.everReturned + [e])
  {
    n := ReachableStep(s, BeginWait);
    n := ReachableStep(n, Snapshot);
    assert [e][..|[e]| - 1] == [];
    assert ReplayOf([e], s.lastStopAt) == [e];
    n := ReachableStep(n, Register);
    n := ReachableStep(n, Pick(0));
    n := ReachableStep(n, Advance);
    n := ReachableStep(n, Respond);
  }

  /** reinitialize sets lastStopAt back to zero and keeps the ring, so a stop reported before a reconnect is
      reported again after it. */
  lemma ReplayAfterReinitializeWitness() returns (n: State)
    ensures Reachable(n) && n.everReturned == [Event(Stopped, 1), Event(Stopped, 1)]
  {
    assert Legal(Init(), []);
    n := ReachableStep(Init(), Push(Stopped));
    n := ReachableStep(n, Fanout);
    n := WaitReports(n, Event(Stopped, 1));
    n := ReachableStep(n, Reinitialize);
    n := WaitReports(n, Event(Stopped, 1));
  }

  // ----------------------------------------------------------------- two tools at once

  /** A second stop-waiting tool: wait-for-stop does not hold ds.mu while it waits. */
  datatype Duo = Duo(s: State, other: Waiter)

  /** Either tool moves; Switch hands the turn over. */
  datatype DuoAction = Do(a: Action) | Switch

  /** From Advance to the report a tool holds ds.mu. */
  predicate DuoEnabled(d: Duo, x: DuoAction) {
    x.Do? ==> Enabled(d.s, x.a) && (x.a.Advance? || x.a.Reinitialize? ==> !d.other.Reporting?)
  }

  function DuoApply(d: Duo, x: DuoAction): Duo
    requires DuoEnabled(d, x)
  {
    match x
    case Switch => Duo(d.s.(waiter := d.other), d.s.waiter)
    case Do(a) => Duo(Apply(d.s, a), if a.Fanout? then Deliver(d.other, d.s.dispatcher.e) else d.other)
  }

  predicate DuoLegal(d: Duo, acts: seq<DuoAction>)
    decreases |acts|
  {
    acts == [] || (DuoEnabled(d, acts[0]) && DuoLegal(DuoApply(d, acts[0]), acts[1..]))
  }

  function DuoRun(d: Duo, acts: seq<DuoAction>): Duo
    requires DuoLegal(d, acts)
    decreases |acts|
  {
    if acts == [] then d else DuoRun(DuoApply(d, acts[0]), acts[1..])
  }

  lemma DuoStepThenRun(d: Duo, x: DuoAction, acts: seq<DuoAction>) returns (all: seq<DuoAction>)
    requires DuoEnabled(d, x) && DuoLegal(DuoApply(d, x), acts)
    ensures DuoLegal(d, all) && DuoRun(d, all) == DuoRun(DuoApply(d, x), acts)
  {
    all := [x] + acts;
    assert all[1..] == acts;
  }

  /** A tool that has a stop in its channel can report it. */
  lemma DuoReports(d: Duo, rest: seq<DuoAction>, n: Duo) returns (acts: seq<DuoAction>)
    requires d.s.waiter.Listening? && |d.s.waiter.avail| == 1 && d.s.dispatcher.Quiet? && !d.other.Reporting?
    requires n == Duo(d.s.(clock := d.s.clock + 3, lastStopAt := d.s.clock + 2, waiter := Idle,
                           returned := d.s.returned + d.s.waiter.avail, everReturned := d.s.everReturned + d.s.waiter.avail),
                      d.other)
    requires DuoLegal(n, rest)
    ensures DuoLegal(d, acts) && DuoRun(d, acts) == DuoRun(n, rest)
  {
    assert d.s.waiter.avail == [d.s.waiter.avail[0]];
    var d1 := DuoApply(d, Do(Pick(0)));
    var d2 := DuoApply(d1, Do(Advance));
    assert DuoApply(d2, Do(Respond)) == n;
    acts := DuoStepThenRun(d2, Do(Respond), rest);
    acts := DuoStepThenRun(d1, Do(Advance), acts);
    acts := DuoStepThenRun(d, Do(Pick(0)), acts);
  }

  /** Two waits are subscribed when a stop comes, and each reports it. */
  lemma BothReport(d: Duo) returns (acts: seq<DuoAction>)
    requires d == Duo(Init().(clock := 6, waiter := Listening(0, [])), Listening(0, []))
    ensures DuoLegal(d, acts) && DuoRun(d, acts).s.returned == [Event(Stopped, 7), Event(Stopped, 7)]
  {
    var d1 := DuoApply(d, Do(Push(Stopped)));
    var d2 := DuoApply(d1, Do(Fanout));
    var e := Event(Stopped, 7);
    assert d2.s.waiter.avail == d2.other.avail == [e];
    var d3 := Duo(d2.s.(clock := 11, lastStopAt := 10, waiter := Idle, returned := [e], everReturned := [e]), d2.other);
    var d4 := DuoApply(d3, Switch);
    var d5 := Duo(d4.s.(clock := 14, lastStopAt := 13, waiter := Idle, returned := [e, e], everReturned := [e, e]), Idle);
    acts := DuoReports(d4, [], d5);
    acts := DuoStepThenRun(d3, Switch, acts);
    acts := DuoReports(d2, acts, d3);
    acts := DuoStepThenRun(d1, Do(Fanout), acts);
    acts := DuoStepThenRun(d, Do(Push(Stopped)), acts);
  }

  /** A run from the start in which two concurrent waits report the same stop. */
  lemma TwoWaitsWitness() returns (acts: seq<DuoAction>)
    ensures DuoLegal(Duo(Init(), Idle), acts)
    ensures DuoRun(Duo(Init(), Idle), acts).s.returned == [Event(Stopped, 7), Event(Stopped, 7)]
  {
    var d := Duo(Init(), Idle);
    var d1 := DuoApply(d, Do(BeginWait));
    var d2 := DuoApply(d1, Do(Snapshot));
    var d3 := DuoApply(d2, Do(Register));
    var d4 := DuoApply(d3, Switch);
    var d5 := DuoApply(d4, Do(BeginWait));
    var d6 := DuoApply(d5, Do(Snapshot));
    var d7 := DuoApply(d6, Do(Register));
    acts := BothReport(d7);
    acts := DuoStepThenRun(d6, Do(Register), acts);
    acts := DuoStepThenRun(d5, Do(Snapshot), acts);
    acts := DuoStepThenRun(d4, Do(BeginWait), acts);
    acts := DuoStepThenRun(d3, Switch, acts);
    acts := DuoStepThenRun(d2, Do(Register), acts);
    acts := DuoStepThenRun(d1, Do(Snapshot), acts);
    acts := DuoStepThenRun(d, Do(BeginWait), acts);
  }
}
