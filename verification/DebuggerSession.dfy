/** The handlers of tools.go that keep the breakpoint tables, as they update the session step by step. */
module DebuggerSession {
  import opened SessionModel

  /** The debug adapter at the other end of one connection. */
  class AdapterServer {
    var lines: map<string, seq<int>>
    var funcs: seq<string>
    var received: seq<Request>   // the commands sent to it, including those whose write failed

    ghost function State(): Adapter
      reads this
    {
      Adapter(lines, funcs)
    }

    constructor (a: Adapter)
      ensures State() == a && received == []
    {
      lines, funcs, received := a.lines, a.funcs, [];
    }

    /** The first `n` requests of the plan have been sent, the earlier ones being `log`, to an adapter that was `a0`. */
    ghost predicate Did(a0: Adapter, log: seq<Request>, plan: seq<Request>, net: Net, n: nat)
      reads this
    {
      n <= |plan| && State() == After(a0, plan, net, n) && received == Sent(log, plan, n)
    }

    /** The next request of the plan. */
    method ServeNext(q: Request, net: Net, n: nat, ghost a0: Adapter, ghost log: seq<Request>, ghost plan: seq<Request>)
      requires Did(a0, log, plan, net, n) && n < |plan| && plan[n] == q
      modifies this
      ensures Did(a0, log, plan, net, n + 1)
    {
      Serve(q, net(n));
    }

    method Serve(q: Request, r: Reply)
      modifies this
      ensures State() == Handle(old(State()), q, r)
      ensures received == old(received) + [q]
    {
      received := received + [q];
      if TookEffect(r) {
        match q
        case SetBreakpoints(f, ls) => lines := lines[f := ls];
        case SetFunctionBreakpoints(fs) => funcs := fs;
        case _ =>
      }
    }
  }

  /** The command log after `n` requests of the plan. */
  function Sent(log: seq<Request>, plan: seq<Request>, n: nat): seq<Request>
    requires n <= |plan|
  {
    if n == 0 then log else Sent(log, plan, n - 1) + [plan[n - 1]]
  }

  lemma {:induction false} SentIsPrefix(log: seq<Request>, plan: seq<Request>, n: nat)
    requires n <= |plan|
    ensures Sent(log, plan, n) == log + plan[..n]
  {
    if n > 0 {
      SentIsPrefix(log, plan, n - 1);
      assert plan[..n] == plan[..n - 1] + [plan[n - 1]];
    }
  }

  /** What a tool call returns. */
  datatype ToolResult = NotStarted | BadInput | Result(outcome: Outcome)

  /** Requests stop at the first one that is not accepted. */
  lemma AttemptedIs(plan: seq<Request>, net: Net, n: nat)
    requires n <= |plan| && (n == 0 ==> plan == [])
    requires forall k :: 0 <= k < n - 1 ==> net(k).Accepted?
    requires n == |plan| || !net(n - 1).Accepted?
    ensures Attempted(plan, net, 0) == n
  {
    var k := Attempted(plan, net, 0);
    assert k <= n;
  }

  /** reinitialize returned after `n` requests, all but the last of them accepted. */
  lemma ReinitStops(w: World, order: seq<string>, net: Net, event: InitEvent, n: nat)
    requires 1 <= n <= |Plan(w, order)| && AllAccepted(n - 1, net)
    requires n > 2 ==> event.Arrived?
    requires n == |Plan(w, order)| || !net(n - 1).Accepted? || (n == 2 && event.Missing?)
    ensures ReinitAttempted(Plan(w, order), net, event) == n
    ensures SessionModel.Reinitialize(w, order, net, event)
            == (w.(adapter := After(w.adapter, Plan(w, order), net, n)),
                if n == |Plan(w, order)| && net(n - 1).Accepted? then Done else Failed)
  {
    var plan := Plan(w, order);
    if n == 2 && event.Missing? && net(1).Accepted? {
      assert Attempted(plan, net, 0) > 2;
    } else {
      AttemptedIs(plan, net, n);
    }
  }

  /** How many requests the first `i` specs give. */
  function Offset(specs: seq<Spec>, i: nat): nat
    requires i <= |specs|
  {
    if i == 0 then 0 else Offset(specs, i - 1) + |SpecRequest(specs[i - 1])|
  }

  lemma {:induction false} OffsetShift(specs: seq<Spec>, i: nat)
    requires 0 < i <= |specs|
    ensures Offset(specs, i) == |SpecRequest(specs[0])| + Offset(specs[1..], i - 1)
  {
    if i > 1 { OffsetShift(specs, i - 1); }
  }

  /** The request of a spec stands in the plan after those of the specs before it. */
  lemma {:induction false} PlanStep(specs: seq<Spec>, i: nat)
    requires i < |specs|
    ensures Offset(specs, i + 1) <= |InitialPlan(specs)|
    ensures SpecRequest(specs[i]) != [] ==>
              Offset(specs, i) < |InitialPlan(specs)| && [InitialPlan(specs)[Offset(specs, i)]] == SpecRequest(specs[i])
  {
    OffsetShift(specs, i + 1);
    if i > 0 {
      OffsetShift(specs, i);
      PlanStep(specs[1..], i - 1);
    } else if SpecRequest(specs[0]) != [] {
      assert InitialPlan(specs)[0] == SpecRequest(specs[0])[0];
    }
  }

  /** All specs give the whole plan. */
  lemma {:induction false} PlanEnd(specs: seq<Spec>)
    ensures Offset(specs, |specs|) == |InitialPlan(specs)|
  {
    if specs != [] {
      var rest := specs[1..];
      OffsetShift(specs, |specs|);
      PlanEnd(rest);
      assert InitialPlan(specs) == SpecRequest(specs[0]) + InitialPlan(rest);
    }
  }

  /** The request of spec `i` stands in the plan after those of the specs before it. */
  predicate SpecStands(plan: seq<Request>, specs: seq<Spec>, i: nat) {
    && i < |specs| && Offset(specs, i + 1) <= |plan|
    && (SpecRequest(specs[i]) != [] ==> Offset(specs, i) < |plan| && [plan[Offset(specs, i)]] == SpecRequest(specs[i]))
  }

  /** What stands where in the plan of the initial breakpoints. */
  predicate SpecsAre(plan: seq<Request>, specs: seq<Spec>) {
    |plan| == Offset(specs, |specs|) && forall i: nat :: i < |specs| ==> SpecStands(plan, specs, i)
  }

  lemma SpecsStand(specs: seq<Spec>)
    ensures SpecsAre(InitialPlan(specs), specs)
  {
    PlanEnd(specs);
    forall i: nat | i < |specs| ensures SpecStands(InitialPlan(specs), specs, i) { PlanStep(specs, i); }
  }

  /** What stands where in the plan of reinitialize. */
  predicate PlanIs(plan: seq<Request>, w: World, order: seq<string>) {
    && |plan| == |order| + 3 + (if w.funcs != [] then 1 else 0)
    && plan[0] == Initialize && plan[1] == Attach && plan[|plan| - 1] == ConfigurationDone
    && (forall i :: 0 <= i < |order| ==> plan[i + 2] == SetBreakpoints(order[i], LinesOf(w.bps, order[i])))
    && (w.funcs != [] ==> plan[|order| + 2] == SetFunctionBreakpoints(w.funcs))
  }

  /** What stands where in the plan of clear-breakpoints with all. */
  predicate ClearIs(plan: seq<Request>, order: seq<string>) {
    && |plan| == |order| + 1 && plan[|order|] == SetFunctionBreakpoints([])
    && forall i :: 0 <= i < |order| ==> plan[i] == SetBreakpoints(order[i], [])
  }

  lemma PlanStands(w: World, order: seq<string>)
    ensures PlanIs(Plan(w, order), w, order)
  {}

  class Session {
    var connected: bool                       // ds.client is not nil
    var hasBackend: bool                      // ds.backend is not nil
    var breakpoints: map<string, seq<int>>
    var functionBreakpoints: seq<string>
    var capabilities: nat                     // what the adapter said it can do, zero for nothing yet
    var stoppedThreadID: int
    var lastFrameID: int
    var lastStopAt: nat                       // zero for "since session start"
    var adapter: AdapterServer                // the adapter of the current connection

    ghost function View(): World
      reads this, adapter
    {
      World(breakpoints, functionBreakpoints, adapter.State())
    }

    constructor (a: AdapterServer)
      ensures !connected && !hasBackend && adapter == a
      ensures breakpoints == map[] && functionBreakpoints == []
    {
      connected, hasBackend, breakpoints, functionBreakpoints := false, false, map[], [];
      capabilities, stoppedThreadID, lastFrameID, lastStopAt := 0, 0, -1, 0;
      adapter := a;
    }

    /** breakpoint (tools.go:1611-1690). */
    method Breakpoint(file: string, line: int, fn: string, r: Reply) returns (res: ToolResult)
      modifies this`breakpoints, this`functionBreakpoints, adapter
      ensures !connected ==> res.NotStarted? && View() == old(View())
      ensures connected && fn != "" ==> (View(), res) == (SetFunction(old(View()), fn, r).0, Result(SetFunction(old(View()), fn, r).1))
      ensures connected && fn == "" && (file == "" || line == 0) ==> res.BadInput? && View() == old(View())
      ensures connected && fn == "" && file != "" && line != 0 ==>
                (View(), res) == (SetLine(old(View()), file, line, r).0, Result(SetLine(old(View()), file, line, r).1))
      ensures connected && fn == "" && file != "" && line != 0 && line !in LinesOf(old(breakpoints), file) ==>
                res == Result(if r.Accepted? && r.count > 0 && r.last == Verified then Done else Failed)
      ensures adapter.received == old(adapter.received) +
                if !connected then []
                else if fn != "" then
                  [SetFunctionBreakpoints(if fn in old(functionBreakpoints) then old(functionBreakpoints) else old(functionBreakpoints) + [fn])]
                else if file == "" || line == 0 || line in LinesOf(old(breakpoints), file) then []
                else [SetBreakpoints(file, LinesOf(old(breakpoints), file) + [line])]
    {
      if !connected { return NotStarted; }
      if fn != "" {
        var newFuncs := functionBreakpoints;
        var found := false;
        for i := 0 to |newFuncs|
          invariant found <==> fn in newFuncs[..i]
        {
          if newFuncs[i] == fn { found := true; break; }
        }
        assert found <==> fn in newFuncs;
        if !found { newFuncs := newFuncs + [fn]; }
        adapter.Serve(SetFunctionBreakpoints(newFuncs), r);
        if !r.Accepted? { return Result(Failed); }
        functionBreakpoints := newFuncs;
        return Result(Done);
      }
      if file == "" || line == 0 { return BadInput; }
      var existing := if file in breakpoints then breakpoints[file] else [];
      for i := 0 to |existing|
        invariant line !in existing[..i]
      {
        if existing[i] == line { return Result(AlreadySet); }
      }
      var newSpecs := existing + [line];
      adapter.Serve(SetBreakpoints(file, newSpecs), r);
      if !r.Accepted? || r.count == 0 || r.last.Unverified? { return Result(Failed); }
      breakpoints := breakpoints[file := newSpecs];
      res := Result(Done);
    }

    /** clear-breakpoints (tools.go:471-522); `order` is the order in which Go walks the table. */
    method ClearBreakpoints(file: string, all: bool, order: seq<string>, net: Net) returns (res: ToolResult)
      requires IsOrder(order, breakpoints.Keys)
      modifies this`breakpoints, this`functionBreakpoints, adapter
      ensures !connected ==> res.NotStarted? && View() == old(View())
      ensures connected && all ==>
                (View(), res) == (ClearAll(old(View()), order, net).0, Result(ClearAll(old(View()), order, net).1))
      ensures connected && !all && file != "" ==>
                (View(), res) == (ClearFile(old(View()), file, net(0)).0, Result(ClearFile(old(View()), file, net(0)).1))
      ensures connected && !all && file == "" ==> res.BadInput? && View() == old(View())
      ensures adapter.received == old(adapter.received) +
                if !connected then []
                else if all then ClearPlan(order)[..Attempted(ClearPlan(order), net, 0)]
                else if file != "" then [SetBreakpoints(file, [])] else []
    {
      if !connected { return NotStarted; }
      if all {
        res := ClearEverything(order, net);
        return;
      }
      if file != "" {
        adapter.Serve(SetBreakpoints(file, []), net(0));
        if !net(0).Accepted? { return Result(Failed); }
        breakpoints := breakpoints - {file};
        return Result(Done);
      }
      res := BadInput;
    }

    /** clear-breakpoints with all (tools.go:480-505). */
    method ClearEverything(order: seq<string>, net: Net) returns (res: ToolResult)
      requires IsOrder(order, breakpoints.Keys)
      modifies this`breakpoints, this`functionBreakpoints, adapter
      ensures (View(), res) == (ClearAll(old(View()), order, net).0, Result(ClearAll(old(View()), order, net).1))
      ensures adapter.received == old(adapter.received) + ClearPlan(order)[..Attempted(ClearPlan(order), net, 0)]
    {
      ghost var plan, log := ClearPlan(order), adapter.received;
      var n := SendClears(order, net, plan);
      AttemptedIs(plan, net, n);
      SentIsPrefix(log, plan, n);
      if n <= |order| || !net(n - 1).Accepted? { return Result(Failed); }
      breakpoints, functionBreakpoints := map[], [];
      res := Result(Done);
    }

    /** The requests of clear-breakpoints with all, up to the first that is not accepted.  Returns how many were
        sent. */
    method SendClears(order: seq<string>, net: Net, ghost plan: seq<Request>) returns (n: nat)
      requires ClearIs(plan, order)
      modifies adapter
      ensures 1 <= n <= |plan| && AllAccepted(n - 1, net) && (n == |plan| || !net(n - 1).Accepted?)
      ensures adapter.Did(old(adapter.State()), old(adapter.received), plan, net, n)
    {
      ghost var a0, log := adapter.State(), adapter.received;
      n := 0;
      for i := 0 to |order|
        invariant n == i && AllAccepted(n, net) && adapter.Did(a0, log, plan, net, n)
      {
        adapter.ServeNext(SetBreakpoints(order[i], []), net, i, a0, log, plan);
        n := i + 1;
        if !net(i).Accepted? { return; }
      }
      adapter.ServeNext(SetFunctionBreakpoints([]), net, n, a0, log, plan);
      n := n + 1;
    }

    /** continue with its run-to-cursor part (tools.go:537-589): nothing is stored, and the continue is sent
        only when the temporary breakpoint was accepted. */
    method ContinueExecution(to: Spec, net: Net) returns (res: ToolResult)
      modifies adapter
      ensures !connected ==> res.NotStarted? && View() == old(View()) && adapter.received == old(adapter.received)
      ensures connected ==>
                (View(), res) == (ContinueTo(old(View()), to, net).0, Result(ContinueTo(old(View()), to, net).1))
      ensures connected ==>
                adapter.received == old(adapter.received) + ContinuePlan(to)[..Attempted(ContinuePlan(to), net, 0)]
    {
      if !connected { return NotStarted; }
      ghost var plan, a0, log := ContinuePlan(to), adapter.State(), adapter.received;
      var n := 0;
      if to.fn != "" {
        adapter.ServeNext(SetFunctionBreakpoints([to.fn]), net, 0, a0, log, plan);
        n := 1;
      } else if to.file != "" && to.line > 0 {
        adapter.ServeNext(SetBreakpoints(to.file, [to.line]), net, 0, a0, log, plan);
        n := 1;
      }
      if n == 1 && !net(0).Accepted? {
        AttemptedIs(plan, net, 1);
        SentIsPrefix(log, plan, 1);
        return Result(Failed);
      }
      adapter.ServeNext(Continue, net, n, a0, log, plan);
      AttemptedIs(plan, net, n + 1);
      SentIsPrefix(log, plan, n + 1);
      res := Result(if net(n).Accepted? then Done else Failed);
    }

    /** reinitialize (tools.go:1710-1804): the full handshake against the adapter of the current connection, which
        answers initialize with the given capabilities. */
    method Reinitialize(order: seq<string>, net: Net, event: InitEvent, caps: nat) returns (ok: bool)
      requires IsOrder(order, breakpoints.Keys)
      modifies this`capabilities, this`stoppedThreadID, this`lastFrameID, this`lastStopAt, adapter
      ensures !connected || !hasBackend ==> !ok && View() == old(View()) && adapter.received == old(adapter.received)
      ensures connected && hasBackend ==> View() == SessionModel.Reinitialize(old(View()), order, net, event).0
      ensures connected && hasBackend ==> (ok <==> SessionModel.Reinitialize(old(View()), order, net, event).1.Done?)
      ensures connected && hasBackend ==>
                adapter.received
                == old(adapter.received) + Plan(old(View()), order)[..ReinitAttempted(Plan(old(View()), order), net, event)]
      ensures capabilities == if connected && hasBackend && net(0).Accepted? then caps else old(capabilities)
      ensures if ok then stoppedThreadID == 0 && lastFrameID == -1 && lastStopAt == 0
              else stoppedThreadID == old(stoppedThreadID) && lastFrameID == old(lastFrameID) && lastStopAt == old(lastStopAt)
    {
      if !connected || !hasBackend { return false; }
      ghost var w := View();
      PlanStands(w, order);
      var n := Handshake(order, net, event, caps, w, Plan(w, order));
      ReinitStops(w, order, net, event, n);
      SentIsPrefix(old(adapter.received), Plan(w, order), n);
      if !net(n - 1).Accepted? || n < |order| + 3 + (if |functionBreakpoints| > 0 then 1 else 0) { return false; }
      stoppedThreadID, lastFrameID, lastStopAt := 0, -1, 0;
      ok := true;
    }

    /** The requests of reinitialize, in the order of the source.  Returns how many were sent. */
    method Handshake(order: seq<string>, net: Net, event: InitEvent, caps: nat, ghost w: World, ghost plan: seq<Request>)
      returns (n: nat)
      requires IsOrder(order, breakpoints.Keys) && w == View() && PlanIs(plan, w, order)
      modifies this`capabilities, adapter
      ensures capabilities == if net(0).Accepted? then caps else old(capabilities)
      ensures 1 <= n <= |plan| && AllAccepted(n - 1, net)
      ensures n > 2 ==> event.Arrived?
      ensures n == |plan| || !net(n - 1).Accepted? || (n == 2 && event.Missing?)
      ensures adapter.Did(w.adapter, old(adapter.received), plan, net, n)
    {
      ghost var log := adapter.received;
      adapter.ServeNext(Initialize, net, 0, w.adapter, log, plan);
      if !net(0).Accepted? { return 1; }
      capabilities := caps;
      adapter.ServeNext(Attach, net, 1, w.adapter, log, plan);
      if !net(1).Accepted? || event.Missing? { return 2; }
      n := Reapply(order, net, w, log, plan);
      if !net(n - 1).Accepted? { return; }
      adapter.ServeNext(ConfigurationDone, net, n, w.adapter, log, plan);
      n := n + 1;
    }

    /** The re-application of source and function breakpoints (tools.go:1757-1783).  Returns how many requests
        of the handshake have been sent; the last one was accepted only if all were. */
    method Reapply(order: seq<string>, net: Net, ghost w: World, ghost log: seq<Request>, ghost plan: seq<Request>)
      returns (n: nat)
      requires IsOrder(order, breakpoints.Keys) && AllAccepted(2, net) && PlanIs(plan, w, order)
      requires w.bps == breakpoints && w.funcs == functionBreakpoints
      requires adapter.Did(w.adapter, log, plan, net, 2)
      modifies adapter
      ensures 2 <= n < |plan| && AllAccepted(n - 1, net)
      ensures net(n - 1).Accepted? ==> n == |plan| - 1
      ensures adapter.Did(w.adapter, log, plan, net, n)
    {
      n := 2;
      for i := 0 to |order|
        invariant n == i + 2 && AllAccepted(n, net)
        invariant adapter.Did(w.adapter, log, plan, net, n)
      {
        adapter.ServeNext(SetBreakpoints(order[i], breakpoints[order[i]]), net, n, w.adapter, log, plan);
        n := n + 1;
        if !net(n - 1).Accepted? { return; }
      }
      if |functionBreakpoints| > 0 {
        adapter.ServeNext(SetFunctionBreakpoints(functionBreakpoints), net, n, w.adapter, log, plan);
        n := n + 1;
      }
    }

    /** cleanup: the session state goes, the breakpoint tables stay (tools.go:1025-1050). */
    method Cleanup()
      modifies this`connected, this`capabilities, this`stoppedThreadID, this`lastFrameID, this`lastStopAt
      ensures View() == old(View())
      ensures !connected && capabilities == 0 && stoppedThreadID == 0 && lastFrameID == -1 && lastStopAt == 0
    {
      connected, capabilities, stoppedThreadID, lastFrameID, lastStopAt := false, 0, 0, -1, 0;
    }

    /** debug: cleanup, a new adapter, and the initial breakpoints (tools.go:1054-1271). */
    method Debug(a: AdapterServer, specs: seq<Spec>, net: Net) returns (ok: bool)
      modifies this, a
      ensures connected && hasBackend && adapter == a
      ensures View() == NewSession(old(View()), old(a.State()), specs, net)
      ensures ok <==> AllAccepted(|InitialPlan(specs)|, net)
      ensures a.received == old(a.received) + InitialPlan(specs)[..Attempted(InitialPlan(specs), net, 0)]
    {
      Cleanup();
      adapter, hasBackend, connected := a, true, true;
      ok := SetInitialBreakpoints(specs, net);
    }

    /** The request for one initial breakpoint, if it names something: the next one of the plan. */
    method SetInitialBreakpoint(bp: Spec, net: Net, n: nat, ghost a0: Adapter, ghost log: seq<Request>, ghost plan: seq<Request>)
      returns (sent: bool)
      requires adapter.Did(a0, log, plan, net, n) && (SpecRequest(bp) != [] ==> n < |plan| && [plan[n]] == SpecRequest(bp))
      modifies adapter
      ensures sent <==> SpecRequest(bp) != []
      ensures adapter.Did(a0, log, plan, net, if sent then n + 1 else n)
    {
      if bp.fn != "" {
        adapter.ServeNext(SetFunctionBreakpoints([bp.fn]), net, n, a0, log, plan);
        return true;
      } else if bp.file != "" && bp.line > 0 {
        adapter.ServeNext(SetBreakpoints(bp.file, [bp.line]), net, n, a0, log, plan);
        return true;
      }
      sent := false;
    }

    /** The initial-breakpoint loop of debug (tools.go:1250-1269): nothing is stored, and it ends at the first
        request that is not accepted. */
    method SetInitialBreakpoints(specs: seq<Spec>, net: Net) returns (ok: bool)
      modifies adapter
      ensures View() == NewSession(old(View()), old(adapter.State()), specs, net)
      ensures ok <==> AllAccepted(|InitialPlan(specs)|, net)
      ensures adapter.received == old(adapter.received) + InitialPlan(specs)[..Attempted(InitialPlan(specs), net, 0)]
    {
      ghost var plan, log := InitialPlan(specs), adapter.received;
      SpecsStand(specs);
      var n;
      n, ok := SendSpecs(specs, net, plan);
      AttemptedIs(plan, net, n);
      SentIsPrefix(log, plan, n);
    }

    /** The requests of the specs, up to the first that is not accepted.  Returns how many were sent. */
    method SendSpecs(specs: seq<Spec>, net: Net, ghost plan: seq<Request>) returns (n: nat, ok: bool)
      requires SpecsAre(plan, specs)
      modifies adapter
      ensures n <= |plan| && (n == 0 ==> plan == [])
      ensures if ok then n == |plan| && AllAccepted(n, net) else n > 0 && AllAccepted(n - 1, net) && !net(n - 1).Accepted?
      ensures adapter.Did(old(adapter.State()), old(adapter.received), plan, net, n)
    {
      ghost var a0, log := adapter.State(), adapter.received;
      n := 0;
      for i := 0 to |specs|
        invariant n == Offset(specs, i) <= |plan|
        invariant AllAccepted(n, net) && adapter.Did(a0, log, plan, net, n)
      {
        assert SpecStands(plan, specs, i);
        var sent := SetInitialBreakpoint(specs[i], net, n, a0, log, plan);
        if sent {
          n := n + 1;
          if !net(n - 1).Accepted? { return n, false; }
        }
      }
      ok := true;
    }
  }
}
