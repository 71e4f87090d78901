/**
  The breakpoint tables of a debugging session against its adapter, as values.

  An adapter replaces all breakpoints of a source on every SetBreakpoints request and all function
  breakpoints on every SetFunctionBreakpoints request (Debug Adapter Protocol, section "Requests").
  */
module SessionModel {

  datatype Adapter = Adapter(lines: map<string, seq<int>>, funcs: seq<string>)

  const FRESH := Adapter(map[], [])

  datatype Request =
    | Initialize
    | Attach
    | SetBreakpoints(file: string, lines: seq<int>)
    | SetFunctionBreakpoints(funcs: seq<string>)
    | ConfigurationDone
    | Continue

  datatype Effect = Applied | NotApplied
  datatype Verdict = Verified | Unverified

  /** What becomes of one request.  Accepted is a response with success set; `count` is the number of
      breakpoints it lists and `last` the verdict on the last one.  Rejected is a response without success;
      Lost is a failed write, a drained registry or a cancelled context.  After the last two the adapter may
      or may not have applied the request. */
  datatype Reply = Accepted(count: nat, last: Verdict) | Rejected(effect: Effect) | Lost(effect: Effect)

  /** The replies to successive requests of one tool call. */
  type Net = nat -> Reply

  predicate TookEffect(r: Reply) { r.Accepted? || r.effect.Applied? }

  function LinesOf(m: map<string, seq<int>>, f: string): seq<int> { if f in m then m[f] else [] }

  function Handle(a: Adapter, q: Request, r: Reply): Adapter {
    if !TookEffect(r) then a
    else match q
      case SetBreakpoints(f, ls) => a.(lines := a.lines[f := ls])
      case SetFunctionBreakpoints(fs) => a.(funcs := fs)
      case _ => a
  }

  // ------------------------------------------------------------ a series of requests

  /** How many of the requests are attempted: all up to the first one that is not accepted, inclusive. */
  function Attempted(plan: seq<Request>, net: Net, i: nat): (n: nat)
    requires i <= |plan|
    ensures i <= n <= |plan|
    ensures forall k :: i <= k < n - 1 ==> net(k).Accepted?
    ensures i < n < |plan| ==> !net(n - 1).Accepted?
    ensures i < |plan| ==> i < n
    decreases |plan| - i
  {
    if i == |plan| then i else if net(i).Accepted? then Attempted(plan, net, i + 1) else i + 1
  }

  predicate AllAccepted(n: nat, net: Net) { forall k :: 0 <= k < n ==> net(k).Accepted? }

  /** The adapter after the first `n` requests of the plan. */
  function After(a: Adapter, plan: seq<Request>, net: Net, n: nat): Adapter
    requires n <= |plan|
  {
    if n == 0 then a else Handle(After(a, plan, net, n - 1), plan[n - 1], net(n - 1))
  }

  /** What the adapter holds for a file depends only on the requests that name it. */
  lemma {:induction false} FileUntouched(a: Adapter, plan: seq<Request>, net: Net, n: nat, f: string)
    requires n <= |plan|
    requires forall k :: 0 <= k < n && plan[k].SetBreakpoints? ==> plan[k].file != f
    ensures LinesOf(After(a, plan, net, n).lines, f) == LinesOf(a.lines, f)
  {
    if n > 0 { FileUntouched(a, plan, net, n - 1, f); }
  }

  lemma {:induction false} FuncsUntouched(a: Adapter, plan: seq<Request>, net: Net, n: nat)
    requires n <= |plan|
    requires forall k :: 0 <= k < n ==> !plan[k].SetFunctionBreakpoints?
    ensures After(a, plan, net, n).funcs == a.funcs
  {
    if n > 0 { FuncsUntouched(a, plan, net, n - 1); }
  }

  /** When one request names a file, its effect decides what the adapter holds for that file. */
  lemma {:induction false} FileDecided(a: Adapter, plan: seq<Request>, net: Net, n: nat, i: nat)
    requires i < |plan| && n <= |plan| && plan[i].SetBreakpoints?
    requires forall k :: 0 <= k < |plan| && k != i && plan[k].SetBreakpoints? ==> plan[k].file != plan[i].file
    ensures LinesOf(After(a, plan, net, n).lines, plan[i].file)
            == if i < n && TookEffect(net(i)) then plan[i].lines else LinesOf(a.lines, plan[i].file)
  {
    if n > 0 { FileDecided(a, plan, net, n - 1, i); }
  }

  /** When one request sets function breakpoints, its effect decides what the adapter holds. */
  lemma {:induction false} FuncsDecided(a: Adapter, plan: seq<Request>, net: Net, n: nat, i: nat)
    requires i < |plan| && n <= |plan| && plan[i].SetFunctionBreakpoints?
    requires forall k :: 0 <= k < |plan| && k != i ==> !plan[k].SetFunctionBreakpoints?
    ensures After(a, plan, net, n).funcs == if i < n && TookEffect(net(i)) then plan[i].funcs else a.funcs
  {
    if n > 0 { FuncsDecided(a, plan, net, n - 1, i); }
  }

  // -------------------------------------------------------------------- the session

  datatype World = World(bps: map<string, seq<int>>, funcs: seq<string>, adapter: Adapter)

  predicate NoDup<T(==)>(s: seq<T>) { forall i, j :: 0 <= i < j < |s| ==> s[i] != s[j] }

  /** Stored lists are non-empty and free of duplicates. */
  predicate TablesOk(w: World) {
    (forall f :: f in w.bps ==> w.bps[f] != [] && NoDup(w.bps[f])) && NoDup(w.funcs)
  }

  /** Some order in which Go may walk the breakpoint map. */
  predicate IsOrder(order: seq<string>, keys: set<string>) {
    NoDup(order) && (forall i :: 0 <= i < |order| ==> order[i] in keys) && forall f :: f in keys ==> f in order
  }

  predicate FileAgrees(w: World, f: string) { LinesOf(w.adapter.lines, f) == LinesOf(w.bps, f) }

  predicate FuncsAgree(w: World) { w.adapter.funcs == w.funcs }

  datatype Outcome = Done | AlreadySet | Failed

  /** breakpoint with a file and a line (tools.go:1650-1689). */
  function SetLine(w: World, file: string, line: int, r: Reply): (World, Outcome) {
    var existing := LinesOf(w.bps, file);
    if line in existing then (w, AlreadySet)
    else
      var lines := existing + [line];
      var w1 := w.(adapter := Handle(w.adapter, SetBreakpoints(file, lines), r));
      if r.Accepted? && r.count > 0 && r.last.Verified? then (w1.(bps := w.bps[file := lines]), Done)
      else (w1, Failed)
  }

  /** breakpoint with a function (tools.go:1618-1648). */
  function SetFunction(w: World, fn: string, r: Reply): (World, Outcome) {
    var funcs := if fn in w.funcs then w.funcs else w.funcs + [fn];
    var w1 := w.(adapter := Handle(w.adapter, SetFunctionBreakpoints(funcs), r));
    if r.Accepted? then (w1.(funcs := funcs), Done) else (w1, Failed)
  }

  /** clear-breakpoints with a file (tools.go:508-519). */
  function ClearFile(w: World, file: string, r: Reply): (World, Outcome) {
    var w1 := w.(adapter := Handle(w.adapter, SetBreakpoints(file, []), r));
    if r.Accepted? then (w1.(bps := w.bps - {file}), Done) else (w1, Failed)
  }

  /** One empty SetBreakpoints per stored file and then an empty SetFunctionBreakpoints. */
  function ClearPlan(order: seq<string>): seq<Request> {
    seq(|order|, i requires 0 <= i < |order| => SetBreakpoints(order[i], [])) + [SetFunctionBreakpoints([])]
  }

  /** clear-breakpoints with all (tools.go:480-505). */
  function ClearAll(w: World, order: seq<string>, net: Net): (World, Outcome) {
    var plan := ClearPlan(order);
    var w1 := w.(adapter := After(w.adapter, plan, net, Attempted(plan, net, 0)));
    if AllAccepted(|plan|, net) then (w1.(bps := map[], funcs := []), Done) else (w1, Failed)
  }

  /** A location given to continue or to debug. */
  datatype Spec = Spec(file: string, line: int, fn: string)

  /** The request that sets a breakpoint there; a spec that names nothing sends none. */
  function SpecRequest(x: Spec): seq<Request> {
    if x.fn != "" then [SetFunctionBreakpoints([x.fn])]
    else if x.file != "" && x.line > 0 then [SetBreakpoints(x.file, [x.line])]
    else []
  }

  /** The requests of continue: a temporary breakpoint for run-to-cursor, and the continue. */
  function ContinuePlan(to: Spec): seq<Request> {
    SpecRequest(to) + [Continue]
  }

  /** continue (tools.go:543-580); no target is a spec that names nothing. */
  function ContinueTo(w: World, to: Spec, net: Net): (World, Outcome) {
    var plan := ContinuePlan(to);
    (w.(adapter := After(w.adapter, plan, net, Attempted(plan, net, 0))), if AllAccepted(|plan|, net) then Done else Failed)
  }

  // Every operation says exactly where tables and adapter agree afterwards.

  /** breakpoint with a line: what is stored and what the caller is told depend on the reply alone, and the table
      and the adapter agree afterwards exactly as stated. */
  lemma SetLineAgreement(w: World, file: string, line: int, r: Reply)
    requires TablesOk(w)
    ensures var (n, o) := SetLine(w, file, line, r);
            && TablesOk(n)
            && n.funcs == w.funcs && (FuncsAgree(n) <==> FuncsAgree(w))
            && (forall f :: f != file ==> (FileAgrees(n, f) <==> FileAgrees(w, f)) && LinesOf(n.bps, f) == LinesOf(w.bps, f))
            && (o.AlreadySet? <==> file in w.bps && line in w.bps[file]) && (o.AlreadySet? ==> n == w)
            && (o.Done? <==> !o.AlreadySet? && r.Accepted? && r.count > 0 && r.last == Verified)
            && (o.Done? ==> FileAgrees(n, file) && file in n.bps && n.bps[file] == LinesOf(w.bps, file) + [line])
            && (o.Failed? ==> n.bps == w.bps)
            && (o.Failed? ==> (FileAgrees(n, file) <==> !r.Accepted? && r.effect == NotApplied && FileAgrees(w, file)))
  {
    var (n, o) := SetLine(w, file, line, r);
    if o.Failed? && TookEffect(r) {
      assert |LinesOf(n.adapter.lines, file)| == |LinesOf(w.bps, file)| + 1;
    }
  }

  lemma SetFunctionAgreement(w: World, fn: string, r: Reply)
    requires TablesOk(w)
    ensures var (n, o) := SetFunction(w, fn, r);
            && TablesOk(n)
            && n.bps == w.bps && n.adapter.lines == w.adapter.lines
            && o == (if r.Accepted? then Done else Failed)
            && (o.Done? ==> FuncsAgree(n) && n.funcs == if fn in w.funcs then w.funcs else w.funcs + [fn])
            && (o.Failed? ==> n.funcs == w.funcs)
            && (o.Failed? ==> (FuncsAgree(n) <==> if r.effect == Applied then fn in w.funcs else FuncsAgree(w)))
  {
    var (n, o) := SetFunction(w, fn, r);
    if fn !in w.funcs { assert |w.funcs + [fn]| == |w.funcs| + 1; }
  }

  lemma ClearFileAgreement(w: World, file: string, r: Reply)
    requires TablesOk(w)
    ensures var (n, o) := ClearFile(w, file, r);
            && TablesOk(n)
            && n.funcs == w.funcs && n.adapter.funcs == w.adapter.funcs
            && (forall f :: f != file ==> (FileAgrees(n, f) <==> FileAgrees(w, f)) && LinesOf(n.bps, f) == LinesOf(w.bps, f))
            && o == (if r.Accepted? then Done else Failed)
            && (o.Done? ==> FileAgrees(n, file) && file !in n.bps)
            && (o.Failed? ==> n.bps == w.bps)
            && (o.Failed? ==> (FileAgrees(n, file) <==> if r.effect == Applied then file !in w.bps else FileAgrees(w, file)))
  {}

  /** A cleared session agrees everywhere except where the adapter held breakpoints of files the table did not
      know; those stay, because only stored files are cleared.  After a failure part way, the files whose empty
      list took effect disagree. */
  lemma ClearAllAgreement(w: World, order: seq<string>, net: Net)
    requires TablesOk(w) && IsOrder(order, w.bps.Keys)
    ensures var (n, o) := ClearAll(w, order, net);
            && TablesOk(n)
            && o == (if AllAccepted(|order| + 1, net) then Done else Failed)
            && (o.Done? ==> n.bps == map[] && n.funcs == [] && FuncsAgree(n))
            && (o.Done? ==> forall f :: FileAgrees(n, f) <==> f in w.bps || FileAgrees(w, f))
            && (o.Failed? ==> n.bps == w.bps && n.funcs == w.funcs)
            && (o.Failed? ==> forall f :: f !in w.bps ==> (FileAgrees(n, f) <==> FileAgrees(w, f)))
            && (o.Failed? ==> forall i :: 0 <= i < |order| ==>
                 (FileAgrees(n, order[i]) <==>
                    FileAgrees(w, order[i]) && !(i < Attempted(ClearPlan(order), net, 0) && TookEffect(net(i)))))
  {
    ClearAllLines(w, order, net);
    if AllAccepted(|order| + 1, net) { ClearAllDone(w, order, net); }
  }

  lemma ClearAllLines(w: World, order: seq<string>, net: Net)
    requires IsOrder(order, w.bps.Keys)
    ensures var lines := ClearAll(w, order, net).0.adapter.lines;
            && (forall f :: f !in w.bps ==> LinesOf(lines, f) == LinesOf(w.adapter.lines, f))
            && forall i :: 0 <= i < |order| ==>
                 LinesOf(lines, order[i])
                 == if i < Attempted(ClearPlan(order), net, 0) && TookEffect(net(i)) then [] else LinesOf(w.adapter.lines, order[i])
  {
    var plan := ClearPlan(order);
    var k := Attempted(plan, net, 0);
    forall f | f !in w.bps ensures LinesOf(After(w.adapter, plan, net, k).lines, f) == LinesOf(w.adapter.lines, f) {
      FileUntouched(w.adapter, plan, net, k, f);
    }
    forall i | 0 <= i < |order|
      ensures LinesOf(After(w.adapter, plan, net, k).lines, order[i])
              == if i < k && TookEffect(net(i)) then [] else LinesOf(w.adapter.lines, order[i])
    {
      FileDecided(w.adapter, plan, net, k, i);
    }
  }

  lemma ClearAllDone(w: World, order: seq<string>, net: Net)
    requires IsOrder(order, w.bps.Keys) && AllAccepted(|order| + 1, net)
    ensures ClearAll(w, order, net).1.Done? && FuncsAgree(ClearAll(w, order, net).0)
    ensures forall f :: f in w.bps ==> FileAgrees(ClearAll(w, order, net).0, f)
  {
    var plan := ClearPlan(order);
    assert Attempted(plan, net, 0) == |plan|;
    ClearAllLines(w, order, net);
    forall f | f in w.bps ensures FileAgrees(ClearAll(w, order, net).0, f) {
      var i :| 0 <= i < |order| && order[i] == f;
      assert net(i).Accepted?;
    }
    FuncsDecided(w.adapter, plan, net, |plan|, |order|);
    assert net(|order|).Accepted?;
  }

  /** continue stores nothing.  Its temporary breakpoint replaces the adapter's whole list, whether or not the
      request is accepted and whatever becomes of the continue; so the target agrees only if the session
      stores exactly that one line or function. */
  lemma ContinueAgreement(w: World, to: Spec, net: Net, f: string)
    ensures var (n, o) := ContinueTo(w, to, net);
            && n.bps == w.bps && n.funcs == w.funcs
            && (FileAgrees(n, f) <==>
                  if to.fn == "" && f != "" && to.file == f && to.line > 0 && (net(0).Accepted? || net(0).effect == Applied)
                  then LinesOf(w.bps, f) == [to.line] else FileAgrees(w, f))
            && (FuncsAgree(n) <==>
                  if to.fn != "" && (net(0).Accepted? || net(0).effect == Applied) then w.funcs == [to.fn] else FuncsAgree(w))
  {
    var plan := ContinuePlan(to);
    var k := Attempted(plan, net, 0);
    assert plan[|plan| - 1] == Continue;
    if SpecRequest(to) == [] {
      assert k == 1;
      assert After(w.adapter, plan, net, 1) == w.adapter;
    } else {
      assert plan[0] == SpecRequest(to)[0] && 1 <= k <= 2;
      assert After(w.adapter, plan, net, 1) == Handle(w.adapter, plan[0], net(0));
      assert After(w.adapter, plan, net, 2) == After(w.adapter, plan, net, 1);
    }
  }

  /** The program is told to go on exactly once, as the last thing, and only after a temporary breakpoint that was
      asked for has been accepted. */
  lemma ContinueIsLast(w: World, to: Spec, net: Net)
    ensures var plan, n := ContinuePlan(to), Attempted(ContinuePlan(to), net, 0);
            && (forall k :: 0 <= k < |plan| ==> (plan[k] == Continue <==> k == |plan| - 1))
            && |plan| == (if to.fn != "" || (to.file != "" && to.line > 0) then 2 else 1)
            && (n == |plan| <==> |plan| == 2 ==> net(0).Accepted?)
            && (ContinueTo(w, to, net).1.Done? <==> n == |plan| && net(n - 1).Accepted?)
  {}

  // ------------------------------------------------------------------ reinitialize

  datatype InitEvent = Arrived | Missing

  /** The requests of reinitialize (tools.go:1710-1804), for one order of walking the map. */
  function Plan(w: World, order: seq<string>): seq<Request> {
    [Initialize, Attach]
    + seq(|order|, i requires 0 <= i < |order| => SetBreakpoints(order[i], LinesOf(w.bps, order[i])))
    + (if w.funcs != [] then [SetFunctionBreakpoints(w.funcs)] else [])
    + [ConfigurationDone]
  }

  /** The InitializedEvent is awaited between the attach response and the first breakpoint. */
  function ReinitAttempted(plan: seq<Request>, net: Net, event: InitEvent): (n: nat)
    requires |plan| >= 2
    ensures n <= |plan|
  {
    var n := Attempted(plan, net, 0);
    if event.Missing? && n > 2 then 2 else n
  }

  function Reinitialize(w: World, order: seq<string>, net: Net, event: InitEvent): (World, Outcome) {
    var plan := Plan(w, order);
    (w.(adapter := After(w.adapter, plan, net, ReinitAttempted(plan, net, event))),
     if AllAccepted(|plan|, net) && event.Arrived? then Done else Failed)
  }

  /** Whatever fails, the requests attempted are a prefix of the plan whose all but last were accepted;
      configurationDone is attempted only after everything before it succeeded and the event arrived. */
  lemma ReinitTrace(w: World, order: seq<string>, net: Net, event: InitEvent)
    ensures var plan, n := Plan(w, order), ReinitAttempted(Plan(w, order), net, event);
            && 1 <= n <= |plan|
            && (forall k :: 0 <= k < n - 1 ==> net(k).Accepted?)
            && (forall k :: 0 <= k < |plan| ==> (plan[k].ConfigurationDone? <==> k == |plan| - 1))
            && (n > 2 ==> event.Arrived?)
            && (n == |plan| ==> AllAccepted(|plan| - 1, net) && event.Arrived?)
            && (n == |plan| || !net(n - 1).Accepted? || (n == 2 && event.Missing?))
            && (Reinitialize(w, order, net, event).1.Done? <==> n == |plan| && net(n - 1).Accepted?)
  {
    var plan := Plan(w, order);
    var n := Attempted(plan, net, 0);
    if AllAccepted(|plan|, net) { assert n == |plan|; }
  }

  /** The request for this file was attempted and took effect. */
  predicate Restored(w: World, order: seq<string>, net: Net, event: InitEvent, f: string) {
    var n := ReinitAttempted(Plan(w, order), net, event);
    exists i :: 0 <= i < |order| && order[i] == f && i + 2 < n && TookEffect(net(i + 2))
  }

  predicate FuncsRestored(w: World, order: seq<string>, net: Net, event: InitEvent) {
    w.funcs != [] && |order| + 2 < ReinitAttempted(Plan(w, order), net, event) && TookEffect(net(|order| + 2))
  }

  /** Both tables are left alone.  Whatever fails, exactly the files whose request took effect are brought into
      line, in every order of walking the map; on success these are all stored files and the stored functions,
      so an adapter that came without breakpoints agrees everywhere. */
  lemma ReinitResult(w: World, order: seq<string>, net: Net, event: InitEvent)
    requires TablesOk(w) && IsOrder(order, w.bps.Keys)
    ensures var (n, o) := Reinitialize(w, order, net, event);
            && n.bps == w.bps && n.funcs == w.funcs
            && (forall f :: FileAgrees(n, f) <==> Restored(w, order, net, event, f) || FileAgrees(w, f))
            && (FuncsAgree(n) <==> FuncsRestored(w, order, net, event) || FuncsAgree(w))
            && (o.Done? ==> forall f :: f in w.bps ==> Restored(w, order, net, event, f))
            && (o.Done? ==> (FuncsRestored(w, order, net, event) <==> w.funcs != []))
            && (o.Done? && w.adapter == FRESH ==> (forall f :: FileAgrees(n, f)) && FuncsAgree(n))
  {
    var (n, o) := Reinitialize(w, order, net, event);
    forall f ensures FileAgrees(n, f) <==> Restored(w, order, net, event, f) || FileAgrees(w, f) {
      ReinitLines(w, order, net, event, f);
    }
    ReinitFuncs(w, order, net, event);
    if o.Done? { ReinitRestores(w, order, net, event); }
  }

  lemma ReinitLines(w: World, order: seq<string>, net: Net, event: InitEvent, f: string)
    requires IsOrder(order, w.bps.Keys)
    ensures LinesOf(Reinitialize(w, order, net, event).0.adapter.lines, f)
            == LinesOf(if Restored(w, order, net, event, f) then w.bps else w.adapter.lines, f)
  {
    var plan := Plan(w, order);
    var k := ReinitAttempted(plan, net, event);
    if f in w.bps {
      var i :| 0 <= i < |order| && order[i] == f;
      RestoredAt(w, order, net, event, i);
      PlanDecides(w, order, net, k, i);
    } else {
      FileUntouched(w.adapter, plan, net, k, f);
    }
  }

  lemma RestoredAt(w: World, order: seq<string>, net: Net, event: InitEvent, i: nat)
    requires i < |order| && NoDup(order)
    ensures Restored(w, order, net, event, order[i]) <==> i + 2 < ReinitAttempted(Plan(w, order), net, event) && TookEffect(net(i + 2))
  {}

  /** The one request of the plan that names a stored file decides what the adapter holds for it. */
  lemma PlanDecides(w: World, order: seq<string>, net: Net, n: nat, i: nat)
    requires i < |order| && NoDup(order) && n <= |Plan(w, order)|
    ensures LinesOf(After(w.adapter, Plan(w, order), net, n).lines, order[i])
            == LinesOf(if i + 2 < n && TookEffect(net(i + 2)) then w.bps else w.adapter.lines, order[i])
  {
    var plan := Plan(w, order);
    assert plan[i + 2] == SetBreakpoints(order[i], LinesOf(w.bps, order[i]));
    FileDecided(w.adapter, plan, net, n, i + 2);
  }

  lemma ReinitFuncs(w: World, order: seq<string>, net: Net, event: InitEvent)
    ensures Reinitialize(w, order, net, event).0.adapter.funcs
            == if FuncsRestored(w, order, net, event) then w.funcs else w.adapter.funcs
  {
    var plan := Plan(w, order);
    var k := ReinitAttempted(plan, net, event);
    if w.funcs != [] {
      assert plan[|order| + 2] == SetFunctionBreakpoints(w.funcs);
      FuncsDecided(w.adapter, plan, net, k, |order| + 2);
    } else {
      FuncsUntouched(w.adapter, plan, net, k);
    }
  }

  lemma ReinitRestores(w: World, order: seq<string>, net: Net, event: InitEvent)
    requires IsOrder(order, w.bps.Keys) && Reinitialize(w, order, net, event).1.Done?
    ensures forall f :: f in w.bps ==> Restored(w, order, net, event, f)
    ensures FuncsRestored(w, order, net, event) <==> w.funcs != []
  {
    ReinitTrace(w, order, net, event);
    forall f | f in w.bps ensures Restored(w, order, net, event, f) {
      var i :| 0 <= i < |order| && order[i] == f;
      assert net(i + 2).Accepted?;
    }
    assert w.funcs != [] ==> net(|order| + 2).Accepted?;
  }

  // --------------------------------------------------------------------- a new session

  /** The initial-breakpoint loop of debug (tools.go:1250-1271): every request replaces the adapter's list. */
  function InitialPlan(specs: seq<Spec>): seq<Request> {
    if specs == [] then [] else SpecRequest(specs[0]) + InitialPlan(specs[1..])
  }

  /** debug connects to another adapter; the tables of the previous session stay (tools.go:1025-1050). */
  function NewSession(w: World, a: Adapter, specs: seq<Spec>, net: Net): World {
    var plan := InitialPlan(specs);
    w.(adapter := After(a, plan, net, Attempted(plan, net, 0)))
  }

  /** The lines of the last of the first `n` requests that named the file and took effect. */
  function LastLines(a: Adapter, plan: seq<Request>, net: Net, n: nat, f: string): seq<int>
    requires n <= |plan|
  {
    if n == 0 then LinesOf(a.lines, f)
    else if plan[n - 1].SetBreakpoints? && plan[n - 1].file == f && TookEffect(net(n - 1)) then plan[n - 1].lines
    else LastLines(a, plan, net, n - 1, f)
  }

  function LastFuncs(a: Adapter, plan: seq<Request>, net: Net, n: nat): seq<string>
    requires n <= |plan|
  {
    if n == 0 then a.funcs
    else if plan[n - 1].SetFunctionBreakpoints? && TookEffect(net(n - 1)) then plan[n - 1].funcs
    else LastFuncs(a, plan, net, n - 1)
  }

  /** The last request decides, for every file and for the functions. */
  lemma {:induction false} LastDecides(a: Adapter, plan: seq<Request>, net: Net, n: nat, f: string)
    requires n <= |plan|
    ensures LinesOf(After(a, plan, net, n).lines, f) == LastLines(a, plan, net, n, f)
    ensures After(a, plan, net, n).funcs == LastFuncs(a, plan, net, n)
  {
    if n > 0 { LastDecides(a, plan, net, n - 1, f); }
  }

  lemma {:induction false} InitialPlanNames(specs: seq<Spec>, k: nat)
    requires k < |InitialPlan(specs)| && InitialPlan(specs)[k].SetBreakpoints?
    ensures exists i :: 0 <= i < |specs| && specs[i].file == InitialPlan(specs)[k].file
  {
    var head := SpecRequest(specs[0]);
    if k >= |head| {
      InitialPlanNames(specs[1..], k - |head|);
      var i :| 0 <= i < |specs[1..]| && specs[1..][i].file == InitialPlan(specs)[k].file;
      assert specs[i + 1].file == InitialPlan(specs)[k].file;
    }
  }

  /** A file no spec names agrees with the new adapter exactly when that adapter came with its stored lines:
      on a fresh adapter, when none are left over from an earlier session. */
  lemma NewSessionAgreement(w: World, a: Adapter, specs: seq<Spec>, net: Net, f: string)
    requires TablesOk(w) && forall i :: 0 <= i < |specs| ==> specs[i].file != f
    ensures FileAgrees(NewSession(w, a, specs, net), f) <==> LinesOf(a.lines, f) == LinesOf(w.bps, f)
    ensures a == FRESH ==> (FileAgrees(NewSession(w, a, specs, net), f) <==> f !in w.bps)
  {
    var plan := InitialPlan(specs);
    forall k | 0 <= k < |plan| && plan[k].SetBreakpoints? ensures plan[k].file != f { InitialPlanNames(specs, k); }
    FileUntouched(a, plan, net, Attempted(plan, net, 0), f);
  }

  // -------------------------------------------------------------------- whole runs

  datatype Op =
    | OpSetLine(file: string, line: int, reply: Reply)
    | OpSetFunction(fn: string, reply: Reply)
    | OpClearFile(file: string, reply: Reply)
    | OpClearAll(order: seq<string>, net: Net)
    | OpContinue(to: Spec, net: Net)
    | OpReinitialize(adapter: Adapter, order: seq<string>, net: Net, event: InitEvent)
    | OpNewSession(adapter: Adapter, specs: seq<Spec>, net: Net)

  /** The parameters are ones the program can meet: some order of the map. */
  predicate Possible(w: World, op: Op) {
    match op
    case OpClearAll(order, _) => IsOrder(order, w.bps.Keys)
    case OpReinitialize(_, order, _, _) => IsOrder(order, w.bps.Keys)
    case _ => true
  }

  function Step(w: World, op: Op): World {
    match op
    case OpSetLine(f, l, r) => SetLine(w, f, l, r).0
    case OpSetFunction(fn, r) => SetFunction(w, fn, r).0
    case OpClearFile(f, r) => ClearFile(w, f, r).0
    case OpClearAll(order, net) => ClearAll(w, order, net).0
    case OpContinue(to, net) => ContinueTo(w, to, net).0
    case OpReinitialize(a, order, net, event) => Reinitialize(w.(adapter := a), order, net, event).0
    case OpNewSession(a, specs, net) => NewSession(w, a, specs, net)
  }

  /** continue sets its temporary breakpoint in this file. */
  predicate Targets(to: Spec, f: string) { to.fn == "" && f != "" && to.file == f && to.line > 0 }

  /** The empty list for this file was sent and took effect. */
  predicate Emptied(order: seq<string>, net: Net, f: string) {
    var n := Attempted(ClearPlan(order), net, 0);
    exists i :: 0 <= i < |order| && order[i] == f && i < n && TookEffect(net(i))
  }

  /** The operation leaves tables and adapter agreeing on `f`, whatever was before. */
  predicate Heals(w: World, op: Op, f: string) {
    match op
    case OpSetLine(g, l, r) => g == f && l !in LinesOf(w.bps, f) && r.Accepted? && r.count > 0 && r.last == Verified
    case OpSetFunction(_, _) => false
    case OpClearFile(g, r) => g == f && TookEffect(r) && (r.Accepted? || f !in w.bps)
    case OpClearAll(order, net) => f in w.bps && AllAccepted(|order| + 1, net)
    case OpContinue(to, net) => Targets(to, f) && TookEffect(net(0)) && LinesOf(w.bps, f) == [to.line]
    case OpReinitialize(a, order, net, event) =>
      Restored(w.(adapter := a), order, net, event, f) || LinesOf(a.lines, f) == LinesOf(w.bps, f)
    case OpNewSession(a, specs, net) =>
      LastLines(a, InitialPlan(specs), net, Attempted(InitialPlan(specs), net, 0), f) == LinesOf(w.bps, f)
  }

  /** The operation leaves them disagreeing on `f`: a request that named `f` took effect without being stored, or
      the adapter was replaced and not brought into line. */
  predicate Hurts(w: World, op: Op, f: string) {
    match op
    case OpSetLine(g, l, r) =>
      g == f && l !in LinesOf(w.bps, f) && if r.Accepted? then r.count == 0 || r.last == Unverified else r.effect == Applied
    case OpSetFunction(_, _) => false
    case OpClearFile(g, r) => g == f && TookEffect(r) && !r.Accepted? && f in w.bps
    case OpClearAll(order, net) => f in w.bps && !AllAccepted(|order| + 1, net) && Emptied(order, net, f)
    case OpContinue(to, net) => Targets(to, f) && TookEffect(net(0)) && LinesOf(w.bps, f) != [to.line]
    case OpReinitialize(_, _, _, _) => !Heals(w, op, f)
    case OpNewSession(_, _, _) => !Heals(w, op, f)
  }

  lemma StepKeepsTables(w: World, op: Op)
    requires TablesOk(w) && Possible(w, op)
    ensures TablesOk(Step(w, op))
  {
    match op
    case OpSetLine(f, l, r) => SetLineAgreement(w, f, l, r);
    case OpSetFunction(fn, r) => SetFunctionAgreement(w, fn, r);
    case _ =>
  }

  /** One operation leaves a file agreeing if and only if it heals it, or it agreed and is not hurt. */
  lemma StepAgreement(w: World, op: Op, f: string)
    requires TablesOk(w) && Possible(w, op)
    ensures FileAgrees(Step(w, op), f) <==> Heals(w, op, f) || (FileAgrees(w, f) && !Hurts(w, op, f))
  {
    match op
    case OpSetLine(g, l, r) => SetLineAgreement(w, g, l, r);
    case OpSetFunction(fn, r) => SetFunctionAgreement(w, fn, r);
    case OpClearFile(g, r) => ClearFileAgreement(w, g, r);
    case OpClearAll(order, net) => ClearAllStep(w, order, net, f);
    case OpContinue(to, net) => ContinueAgreement(w, to, net, f);
    case OpReinitialize(a, order, net, event) => ReinitResult(w.(adapter := a), order, net, event);
    case OpNewSession(a, specs, net) => LastDecides(a, InitialPlan(specs), net, Attempted(InitialPlan(specs), net, 0), f);
  }

  lemma EmptiedAt(order: seq<string>, net: Net, i: nat)
    requires i < |order| && NoDup(order)
    ensures Emptied(order, net, order[i]) <==> i < Attempted(ClearPlan(order), net, 0) && TookEffect(net(i))
  {}

  lemma ClearAllStep(w: World, order: seq<string>, net: Net, f: string)
    requires TablesOk(w) && IsOrder(order, w.bps.Keys)
    ensures var (n, o) := ClearAll(w, order, net);
            FileAgrees(n, f) <==> (f in w.bps && o.Done?) || (FileAgrees(w, f) && !(f in w.bps && o.Failed? && Emptied(order, net, f)))
  {
    ClearAllAgreement(w, order, net);
    if f in w.bps {
      var i :| 0 <= i < |order| && order[i] == f;
      EmptiedAt(order, net, i);
    }
  }

  function Run(w: World, ops: seq<Op>): World {
    if ops == [] then w else Step(Run(w, ops[..|ops| - 1]), ops[|ops| - 1])
  }

  predicate AllPossible(w: World, ops: seq<Op>) {
    ops == [] || (AllPossible(w, ops[..|ops| - 1]) && Possible(Run(w, ops[..|ops| - 1]), ops[|ops| - 1]))
  }

  /** The file is not dirty: since the last operation that healed it, or since an agreeing start, nothing hurt it. */
  predicate Clean(w: World, ops: seq<Op>, f: string) {
    if ops == [] then FileAgrees(w, f)
    else
      var before, op := ops[..|ops| - 1], ops[|ops| - 1];
      Heals(Run(w, before), op, f) || (Clean(w, before, f) && !Hurts(Run(w, before), op, f))
  }

  /** Over any run of tools, run-to-cursor, reconnects and new sessions, with any replies: stored lists stay
      duplicate-free and non-empty, and a file has the same lines in table and adapter if and only if it is not
      dirty. */
  lemma {:induction false} CleanFilesAgree(w: World, ops: seq<Op>, f: string)
    requires TablesOk(w) && AllPossible(w, ops)
    ensures TablesOk(Run(w, ops))
    ensures FileAgrees(Run(w, ops), f) <==> Clean(w, ops, f)
  {
    if ops != [] {
      var before, op := ops[..|ops| - 1], ops[|ops| - 1];
      CleanFilesAgree(w, before, f);
      StepKeepsTables(Run(w, before), op);
      StepAgreement(Run(w, before), op, f);
    }
  }

  // The same for the function breakpoints.

  /** The empty function list was sent and took effect. */
  predicate FuncsEmptied(order: seq<string>, net: Net) {
    |order| < Attempted(ClearPlan(order), net, 0) && TookEffect(net(|order|))
  }

  predicate FuncsHeal(w: World, op: Op) {
    match op
    case OpSetFunction(fn, r) => r.Accepted? || (TookEffect(r) && fn in w.funcs)
    case OpClearAll(order, net) => AllAccepted(|order| + 1, net) || (FuncsEmptied(order, net) && w.funcs == [])
    case OpContinue(to, net) => to.fn != "" && TookEffect(net(0)) && w.funcs == [to.fn]
    case OpReinitialize(a, order, net, event) => FuncsRestored(w.(adapter := a), order, net, event) || a.funcs == w.funcs
    case OpNewSession(a, specs, net) => LastFuncs(a, InitialPlan(specs), net, Attempted(InitialPlan(specs), net, 0)) == w.funcs
    case _ => false
  }

  predicate FuncsHurt(w: World, op: Op) {
    match op
    case OpSetFunction(fn, r) => TookEffect(r) && !r.Accepted? && fn !in w.funcs
    case OpClearAll(order, net) => !AllAccepted(|order| + 1, net) && FuncsEmptied(order, net) && w.funcs != []
    case OpContinue(to, net) => to.fn != "" && TookEffect(net(0)) && w.funcs != [to.fn]
    case OpReinitialize(_, _, _, _) => !FuncsHeal(w, op)
    case OpNewSession(_, _, _) => !FuncsHeal(w, op)
    case _ => false
  }

  lemma ClearAllFuncs(w: World, order: seq<string>, net: Net)
    ensures ClearAll(w, order, net).0.adapter.funcs == if FuncsEmptied(order, net) then [] else w.adapter.funcs
  {
    var plan := ClearPlan(order);
    FuncsDecided(w.adapter, plan, net, Attempted(plan, net, 0), |order|);
  }

  lemma StepFuncsAgreement(w: World, op: Op)
    requires TablesOk(w) && Possible(w, op)
    ensures FuncsAgree(Step(w, op)) <==> FuncsHeal(w, op) || (FuncsAgree(w) && !FuncsHurt(w, op))
  {
    match op
    case OpSetFunction(fn, r) => SetFunctionAgreement(w, fn, r);
    case OpClearAll(order, net) => ClearAllAgreement(w, order, net); ClearAllFuncs(w, order, net);
    case OpContinue(to, net) => ContinueAgreement(w, to, net, "");
    case OpReinitialize(a, order, net, event) => ReinitResult(w.(adapter := a), order, net, event);
    case OpNewSession(a, specs, net) => LastDecides(a, InitialPlan(specs), net, Attempted(InitialPlan(specs), net, 0), "");
    case _ =>
  }

  predicate FuncsClean(w: World, ops: seq<Op>) {
    if ops == [] then FuncsAgree(w)
    else
      var before, op := ops[..|ops| - 1], ops[|ops| - 1];
      FuncsHeal(Run(w, before), op) || (FuncsClean(w, before) && !FuncsHurt(Run(w, before), op))
  }

  lemma {:induction false} CleanFuncsAgree(w: World, ops: seq<Op>)
    requires TablesOk(w) && AllPossible(w, ops)
    ensures TablesOk(Run(w, ops))
    ensures FuncsAgree(Run(w, ops)) <==> FuncsClean(w, ops)
  {
    if ops != [] {
      var before, op := ops[..|ops| - 1], ops[|ops| - 1];
      CleanFuncsAgree(w, before);
      StepKeepsTables(Run(w, before), op);
      StepFuncsAgreement(Run(w, before), op);
    }
  }
}
