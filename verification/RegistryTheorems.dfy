/** Exactly-once completion, isolation of connections, drain completeness and exactness of AwaitResponse. */
module RegistryTheorems {
  import opened RegistryProtocol

  /** What the fate of a channel says about its sends, closes and buffer. */
  predicate ChanOk(s: State, q: nat, c: Chan) {
    && c.born <= s.epoch
    && (match c.fate
        case Open => c.sends == 0 && c.closes == 0 && c.buf == None && (s.swapper.Settled? ==> c.born == s.epoch)
        case Taken(m) =>
          && m.req == q && Answerable(s, m) && c.closes == 0 && c.sends <= 1
          && (c.sends == 0 ==> c.buf == None && s.dispatcher == Delivering(m))
          && (c.buf.Some? ==> c.buf == Some(m))
        case Drained => c.sends == 0 && c.closes == 1 && c.buf == None
        case Cleaned => c.sends == 0 && c.closes == 0 && c.buf == None)
  }

  /** What the progress of a request says about its channel. */
  predicate RequestOk(s: State, q: nat, r: Request) {
    match r
    case Allocated => q !in s.chans && q !in s.writes
    case Registered(made) => made == 1 && q in s.chans && !s.chans[q].fate.Cleaned? && q !in s.writes
    case WriteFailed(made) => made == 1 && q in s.chans
    case Written => q in s.chans && !s.chans[q].fate.Cleaned?
    case Awaiting => q in s.chans && !s.chans[q].fate.Cleaned? && (s.chans[q].sends == 1 ==> s.chans[q].buf.Some?)
    case Done(result, lookup) =>
      && (lookup.NotAsked? <==> result.SendErr? || result.Refused?)
      && (lookup.Missed? ==> result.Stale? && q in s.chans && (s.chans[q].fate.Taken? || s.chans[q].fate.Drained?))
      && (lookup.Found? ==> q in s.chans && !s.chans[q].fate.Cleaned?)
      && (lookup.Found? && result.Stale? ==> s.chans[q].fate.Drained?)
      && (result.Response? ==> lookup.Found? && s.chans[q].fate == Taken(result.msg))
  }

  /** Everything the invariant says about one sequence number. */
  predicate KeyOk(s: State, q: nat) {
    && (q in s.reqs ==> q < s.next && RequestOk(s, q, s.reqs[q]))
    && (q in s.writes ==> q in s.chans && s.writes[q] <= s.epoch)
    && (q in s.chans ==> q in s.reqs && ChanOk(s, q, s.chans[q]))
    && (q in s.chans && s.chans[q].fate.Cleaned? ==> s.reqs[q] == Done(SendErr, NotAsked))
    && (q in s.responses <==> q in s.chans && s.chans[q].fate.Open?)
    && (s.dispatcher.Delivering? && s.dispatcher.msg.req == q ==>
          q in s.chans && s.chans[q].fate == Taken(s.dispatcher.msg) && s.chans[q].sends == 0)
  }

  ghost predicate Inv(s: State) {
    s.panics == 0 && s.remade == 0 && forall q :: KeyOk(s, q)
  }

  lemma SenderKeepsKey(s: State, a: Action, q: nat)
    requires Inv(s) && Enabled(s, a)
    requires a.Alloc? || a.Refuse? || a.WriteOk? || a.WriteErr? || a.CleanUp?
    ensures KeyOk(Apply(s, a), q)
  {
    assert KeyOk(s, q) && KeyOk(s, s.next);
  }

  lemma RegisterKeepsKey(s: State, k: nat, q: nat)
    requires Inv(s) && Enabled(s, Register(k))
    ensures KeyOk(Apply(s, Register(k)), q)
  {
    assert KeyOk(s, q) && KeyOk(s, k);
  }

  lemma WaiterKeepsKey(s: State, a: Action, q: nat)
    requires Inv(s) && Enabled(s, a) && (a.LookUp? || a.Receive? || a.GiveUp?)
    ensures KeyOk(Apply(s, a), q)
  {
    assert KeyOk(s, q);
  }

  lemma DispatcherKeepsKey(s: State, a: Action, q: nat)
    requires Inv(s) && Enabled(s, a) && (a.Take? || a.Deliver?)
    ensures KeyOk(Apply(s, a), q)
  {
    assert KeyOk(s, q);
  }

  lemma DrainKeepsKey(s: State, a: Action, q: nat)
    requires Inv(s) && Enabled(s, a) && (a.ReaderDrain? || a.Swap? || a.SwapDrain?)
    ensures KeyOk(Apply(s, a), q)
  {
    assert KeyOk(s, q);
  }

  lemma StepKeepsKey(s: State, a: Action, q: nat)
    requires Inv(s) && Enabled(s, a)
    ensures KeyOk(Apply(s, a), q)
  {
    match a
    case Register(k) => RegisterKeepsKey(s, k, q);
    case LookUp(_) => WaiterKeepsKey(s, a, q);
    case Receive(_) => WaiterKeepsKey(s, a, q);
    case GiveUp(_) => WaiterKeepsKey(s, a, q);
    case Take(_) => DispatcherKeepsKey(s, a, q);
    case Deliver => DispatcherKeepsKey(s, a, q);
    case ReaderDrain => DrainKeepsKey(s, a, q);
    case Swap => DrainKeepsKey(s, a, q);
    case SwapDrain => DrainKeepsKey(s, a, q);
    case _ => SenderKeepsKey(s, a, q);
  }

  lemma StepKeepsCounters(s: State, a: Action)
    requires Inv(s) && Enabled(s, a)
    ensures Apply(s, a).panics == 0 && Apply(s, a).remade == 0
  {
    match a
    case Register(q) => assert KeyOk(s, q);
    case WriteOk(q) => assert KeyOk(s, q);
    case WriteErr(q, _) => assert KeyOk(s, q);
    case Deliver => assert KeyOk(s, s.dispatcher.msg.req);
    case _ => assert forall q :: q in s.responses ==> KeyOk(s, q);
  }

  lemma StepKeepsInv(s: State, a: Action)
    requires Inv(s) && Enabled(s, a)
    ensures Inv(Apply(s, a))
  {
    StepKeepsCounters(s, a);
    forall q ensures KeyOk(Apply(s, a), q) { StepKeepsKey(s, a, q); }
  }

  lemma {:induction false} RunKeepsInv(s: State, acts: seq<Action>)
    requires Inv(s) && Legal(s, acts)
    ensures Inv(Run(s, acts))
    decreases |acts|
  {
    if acts != [] {
      StepKeepsInv(s, acts[0]);
      RunKeepsInv(Apply(s, acts[0]), acts[1..]);
    }
  }

  lemma ReachableInv(s: State)
    requires Reachable(s)
    ensures Inv(s)
  {
    var acts :| Legal(Init(), acts) && Run(Init(), acts) == s;
    RunKeepsInv(Init(), acts);
  }

  // ----------------------------------------------------------- exactly-once completion

  /** A response channel is sent one message or closed, never both and never twice; so no send hits a
      closed channel, no channel is closed twice, and the send of dispatchResponse never blocks. */
  lemma CompletedAtMostOnce(s: State)
    requires Reachable(s)
    ensures s.panics == 0
    ensures forall q :: q in s.chans ==> s.chans[q].sends + s.chans[q].closes <= 1
    ensures s.dispatcher.Delivering? ==> Enabled(s, Deliver)
  {
    ReachableInv(s);
    forall q | q in s.chans ensures s.chans[q].sends + s.chans[q].closes <= 1 { assert KeyOk(s, q); }
    if s.dispatcher.Delivering? { assert KeyOk(s, s.dispatcher.msg.req); }
  }

  /** A channel leaves the registry once: its fate is open exactly while it is registered, and final afterwards. */
  lemma FateIsFinal(s: State, a: Action, q: nat)
    requires Reachable(s) && Enabled(s, a) && q in s.chans
    ensures s.chans[q].fate.Open? <==> q in s.responses
    ensures q in Apply(s, a).chans
    ensures !s.chans[q].fate.Open? ==> Apply(s, a).chans[q].fate == s.chans[q].fate
    ensures Apply(s, a).chans[q].sends >= s.chans[q].sends && Apply(s, a).chans[q].closes >= s.chans[q].closes
  {
    ReachableInv(s);
    assert KeyOk(s, q);
  }

  /** Completed: sent its message, closed, cleaned up by its own failed send, or in readLoop's hand. */
  predicate Completed(s: State, q: nat)
    requires q in s.chans
  {
    match s.chans[q].fate
    case Open => false
    case Taken(m) => s.chans[q].sends == 1 || s.dispatcher == Delivering(m)
    case Drained => s.chans[q].closes == 1
    case Cleaned => q in s.reqs && s.reqs[q] == Done(SendErr, NotAsked)
  }

  // ------------------------------------------------------------------ drain completeness

  /** Once replaceConn or readLoop has drained, every channel made so far is completed and the registry is empty. */
  lemma DrainCompletesEveryWaiter(s: State, a: Action)
    requires Reachable(s) && ((a.SwapDrain? && s.swapper.Swapped?) || (a.ReaderDrain? && s.dispatcher.Idle?))
    ensures var n := Apply(s, a);
            n.responses == {} && forall q :: q in s.chans ==> q in n.chans && Completed(n, q)
  {
    ReachableInv(s);
    var n := Apply(s, a);
    StepKeepsInv(s, a);
    forall q | q in s.chans ensures q in n.chans && Completed(n, q) { assert KeyOk(s, q) && KeyOk(n, q); }
  }

  /** A waiter is woken by the drain with ErrConnectionStale. */
  lemma DrainWakesWaiter(s: State, a: Action, q: nat)
    requires Reachable(s) && ((a.SwapDrain? && s.swapper.Swapped?) || (a.ReaderDrain? && s.dispatcher.Idle?))
    requires q in s.reqs && s.reqs[q].Awaiting? && q in s.responses
    ensures var n := Apply(s, a); Enabled(n, Receive(q)) && Apply(n, Receive(q)).reqs[q] == Done(Stale, Found)
  {
    ReachableInv(s);
    assert KeyOk(s, q);
  }

  /** replaceConn as a whole: a new connection, an empty registry, and nobody left waiting for the old one. */
  lemma ReplaceConn(s: State) returns (n: State)
    requires Reachable(s) && s.swapper.Settled?
    ensures Enabled(s, Swap) && Enabled(Apply(s, Swap), SwapDrain) && n == Apply(Apply(s, Swap), SwapDrain)
    ensures Reachable(n) && n.epoch == s.epoch + 1 && n.swapper.Settled? && n.responses == {}
    ensures forall q :: q in s.chans ==> q in n.chans && Completed(n, q)
  {
    n := ReachableStep(s, Swap);
    DrainCompletesEveryWaiter(n, SwapDrain);
    n := ReachableStep(n, SwapDrain);
  }

  /** Between drains, every entry left in the registry was registered on the current connection, and every
      channel that is not in the registry is completed. */
  lemma RegistryHoldsOnlyCurrentEntries(s: State, q: nat)
    requires Reachable(s) && q in s.chans
    ensures q in s.responses && s.swapper.Settled? ==> s.chans[q].born == s.epoch
    ensures q !in s.responses <==> Completed(s, q)
  {
    ReachableInv(s);
    assert KeyOk(s, q);
  }

  // ------------------------------------------------------------------ connection isolation

  /** newRequest never hands out a sequence number twice, over any number of swaps and senders, and the
      number is registered and written at most once. */
  lemma SequenceNumbersAreFresh(s: State)
    requires Reachable(s)
    ensures s.next !in s.reqs && s.next !in s.chans && s.next !in s.writes
    ensures s.remade == 0
    ensures forall q :: q in s.writes ==> q in s.chans
  {
    ReachableInv(s);
    assert KeyOk(s, s.next);
    forall q | q in s.writes ensures q in s.chans { assert KeyOk(s, q); }
  }

  /** A delivered response answers the request it is delivered to, on the connection that request was
      written on; a connection never changes once a request is written. */
  lemma ResponseCrossesNoConnection(s: State, q: nat)
    requires Reachable(s) && q in s.reqs && s.reqs[q].Done? && s.reqs[q].result.Response?
    ensures s.reqs[q].result.msg.req == q
    ensures q in s.writes && s.writes[q] == s.reqs[q].result.msg.conn
  {
    ReachableInv(s);
    assert KeyOk(s, q);
  }

  lemma WriteIsFinal(s: State, a: Action, q: nat)
    requires Reachable(s) && Enabled(s, a) && q in s.writes
    ensures q in Apply(s, a).writes && Apply(s, a).writes[q] == s.writes[q]
  {
    ReachableInv(s);
    assert KeyOk(s, q);
  }

  /** A response that arrives is dropped as an orphan or taken for the request written on its connection. */
  lemma LateResponseIsOrphanOrOwn(s: State, m: Msg)
    requires Reachable(s) && Enabled(s, Take(m))
    ensures m.conn <= s.epoch
    ensures var n := Apply(s, Take(m));
            n == s || (n.dispatcher == Delivering(m) && m.req in n.chans && n.chans[m.req].fate == Taken(m)
                       && n.writes[m.req] == m.conn && forall q :: q in s.chans && q != m.req ==> n.chans[q] == s.chans[q])
  {
    ReachableInv(s);
    assert KeyOk(s, m.req);
  }

  /** It is dropped if and only if its request is not registered; else readLoop takes it and can send it on. */
  lemma ResponseIsTaken(s: State, m: Msg)
    requires Reachable(s) && Enabled(s, Take(m))
    ensures Apply(s, Take(m)) == s <==> m.req !in s.responses
    ensures m.req in s.responses ==>
              var n := Apply(s, Take(m)); n.dispatcher == Delivering(m) && m.req !in n.responses && Enabled(n, Deliver)
  {
    ReachableInv(s);
    StepKeepsInv(s, Take(m));
    assert KeyOk(s, m.req) && KeyOk(Apply(s, Take(m)), m.req);
  }

  // ------------------------------------------------------------------ AwaitResponse

  /** The response to a request whose caller waits for it, and which no drain overtakes, is what AwaitResponse
      returns. */
  lemma AwaitedResponseIsReturned(s: State, m: Msg)
    requires Reachable(s) && Enabled(s, Take(m)) && m.req in s.responses
    requires m.req in s.reqs && s.reqs[m.req].Awaiting?
    ensures var s1 := Apply(s, Take(m));
            Enabled(s1, Deliver) && var s2 := Apply(s1, Deliver);
            Enabled(s2, Receive(m.req)) && Apply(s2, Receive(m.req)).reqs[m.req] == Done(Response(m), Found)
  {
    ResponseIsTaken(s, m);
    ReachableInv(s);
    assert KeyOk(s, m.req);
  }

  /** The ordinary call, from any state in which readLoop is free: a fresh number, registered, written on the current
      connection, looked up; its response is the one returned, and nothing of it stays in the registry. */
  lemma CallReturnsItsResponse(s: State) returns (acts: seq<Action>, n: State)
    requires Reachable(s) && s.dispatcher.Idle?
    ensures var q, m := s.next, Msg(s.next, s.epoch);
            acts == [Alloc, Register(q), WriteOk(q), LookUp(q)] + [Take(m), Deliver, Receive(q)]
    ensures Legal(s, acts) && Run(s, acts) == n
    ensures s.next in n.reqs && n.reqs[s.next] == Done(Response(Msg(s.next, s.epoch)), Found)
    ensures n.responses == s.responses
  {
    var q := s.next;
    var mid := CallWaits(s);
    acts, n := AnswerArrives(mid, Msg(q, s.epoch));
    var s1 := Apply(s, Alloc);
    var s2 := Apply(s1, Register(q));
    acts := StepThenRun(Apply(s2, WriteOk(q)), LookUp(q), acts);
    acts := StepThenRun(s2, WriteOk(q), acts);
    acts := StepThenRun(s1, Register(q), acts);
    acts := StepThenRun(s, Alloc, acts);
  }

  /** The response comes and is received. */
  lemma AnswerArrives(s: State, m: Msg) returns (acts: seq<Action>, n: State)
    requires Reachable(s) && Enabled(s, Take(m)) && m.req in s.responses
    requires m.req in s.reqs && s.reqs[m.req].Awaiting?
    ensures acts == [Take(m), Deliver, Receive(m.req)] && Legal(s, acts) && Run(s, acts) == n
    ensures n.responses == s.responses - {m.req} && m.req in n.reqs && n.reqs[m.req] == Done(Response(m), Found)
  {
    AwaitedResponseIsReturned(s, m);
    var s1 := Apply(s, Take(m));
    var s2 := Apply(s1, Deliver);
    n := Apply(s2, Receive(m.req));
    assert Legal(n, []);
    acts := StepThenRun(s2, Receive(m.req), []);
    acts := StepThenRun(s1, Deliver, acts);
    acts := StepThenRun(s, Take(m), acts);
  }

  /** The call up to its wait. */
  lemma CallWaits(s: State) returns (n: State)
    requires Reachable(s)
    ensures var q := s.next;
            && Enabled(s, Alloc) && var s1 := Apply(s, Alloc);
            Enabled(s1, Register(q)) && var s2 := Apply(s1, Register(q));
            Enabled(s2, WriteOk(q)) && var s3 := Apply(s2, WriteOk(q));
            Enabled(s3, LookUp(q)) && n == Apply(s3, LookUp(q))
    ensures Reachable(n) && n.dispatcher == s.dispatcher && n.responses == s.responses + {s.next}
    ensures s.next in n.reqs && n.reqs[s.next].Awaiting? && Answerable(n, Msg(s.next, s.epoch))
    ensures s.next !in s.responses
  {
    ReachableInv(s);
    assert KeyOk(s, s.next);
    n := ReachableStep(s, Alloc);
    n := ReachableStep(n, Register(s.next));
    n := ReachableStep(n, WriteOk(s.next));
    n := ReachableStep(n, LookUp(s.next));
  }

  /** A call whose write fails returns the error, and its entry is gone. */
  lemma FailedSendLeavesNoEntry(s: State, q: nat, reach: Reach)
    requires Reachable(s) && q in s.reqs && s.reqs[q].Registered?
    ensures var s1 := Apply(s, WriteErr(q, reach));
            Enabled(s1, CleanUp(q)) && var n := Apply(s1, CleanUp(q));
            && n.responses == s.responses - {q} && q in n.reqs && n.reqs[q] == Done(SendErr, NotAsked)
            && (q in n.writes <==> reach.Reached?)
  {
    ReachableInv(s);
    assert KeyOk(s, q);
  }

  /** A call refused by the stale test leaves no trace but its number. */
  lemma RefusedCallIsNotRegistered(s: State, q: nat)
    requires Reachable(s) && q in s.reqs && s.reqs[q].Allocated?
    ensures var n := Apply(s, Refuse(q)); n.reqs == s.reqs[q := Done(Refused, NotAsked)] && n == s.(reqs := n.reqs) && q !in n.chans
  {
    ReachableInv(s);
    assert KeyOk(s, q);
  }

  /** A caller that gives up leaves its entry behind; so its response is not an orphan when it comes, but is taken
      and sent to a channel nobody receives from. */
  lemma AbandonedResponseIsStillTaken(s: State, q: nat, m: Msg)
    requires Reachable(s) && q in s.reqs && s.reqs[q].Awaiting? && q in s.responses && m.req == q && Enabled(s, Take(m))
    ensures var n := Apply(s, GiveUp(q));
            && n.responses == s.responses && n.reqs[q] == Done(CtxErr, Found)
            && Enabled(n, Take(m)) && Apply(n, Take(m)).dispatcher == Delivering(m)
  {
    ReachableInv(s);
    assert KeyOk(s, q);
  }

  /** Without a cancelled context, AwaitResponse returns the response when its lookup found the channel and
      dispatchResponse took it afterwards, and ErrConnectionStale in every other schedule. */
  lemma AwaitIsExact(s: State, q: nat)
    requires Reachable(s) && q in s.reqs && s.reqs[q].Done?
    requires !s.reqs[q].lookup.NotAsked? && !s.reqs[q].result.CtxErr?
    ensures q in s.chans && !s.chans[q].fate.Open? && !s.chans[q].fate.Cleaned?
    ensures s.reqs[q].result ==
            if s.reqs[q].lookup.Found? && s.chans[q].fate.Taken? then Response(s.chans[q].fate.msg) else Stale
  {
    ReachableInv(s);
    assert KeyOk(s, q);
  }

  /** A waiter whose channel has left the registry and is not in readLoop's hand can receive at once. */
  lemma WaiterIsWoken(s: State, q: nat)
    requires Reachable(s) && q in s.reqs && s.reqs[q].Awaiting? && q !in s.responses
    ensures Enabled(s, Receive(q)) || (s.dispatcher.Delivering? && s.dispatcher.msg.req == q)
  {
    ReachableInv(s);
    assert KeyOk(s, q);
  }

  /** A response read from the old connection after the swap, and before the drain, is still delivered to the request
      that was written there. */
  lemma LateResponseWitness() returns (n: State)
    ensures Reachable(n) && n.epoch == 1 && 1 in n.chans && n.chans[1].buf == Some(Msg(1, 0)) && n.swapper.Swapped?
  {
    assert Legal(Init(), []);
    n := ReachableStep(Init(), Alloc);
    n := ReachableStep(n, Register(1));
    n := ReachableStep(n, WriteOk(1));
    n := ReachableStep(n, Swap);
    n := ReachableStep(n, Take(Msg(1, 0)));
    n := ReachableStep(n, Deliver);
  }

  /** The lookup comes too late: the response is in the channel, and AwaitResponse reports a stale connection. */
  lemma DispatchedBeforeLookupWitness() returns (acts: seq<Action>)
    ensures Legal(Init(), acts)
    ensures var s := Run(Init(), acts);
            1 in s.reqs && s.reqs[1] == Done(Stale, Missed) && 1 in s.chans && s.chans[1].buf == Some(Msg(1, 0))
  {
    var s1 := Apply(Init(), Alloc);
    var s2 := Apply(s1, Register(1));
    var s3 := Apply(s2, WriteOk(1));
    var s4 := Apply(s3, Take(Msg(1, 0)));
    var s5 := Apply(s4, Deliver);
    var s6 := Apply(s5, LookUp(1));
    acts := [];
    acts := StepThenRun(s5, LookUp(1), acts);
    acts := StepThenRun(s4, Deliver, acts);
    acts := StepThenRun(s3, Take(Msg(1, 0)), acts);
    acts := StepThenRun(s2, WriteOk(1), acts);
    acts := StepThenRun(s1, Register(1), acts);
    acts := StepThenRun(Init(), Alloc, acts);
    assert s6.reqs[1] == Done(Stale, Missed);
  }

  lemma {:induction false} RunThenStep(s: State, acts: seq<Action>, a: Action)
    requires Legal(s, acts) && Enabled(Run(s, acts), a)
    ensures Legal(s, acts + [a]) && Run(s, acts + [a]) == Apply(Run(s, acts), a)
    decreases |acts|
  {
    if acts == [] {
      assert Legal(Apply(s, a), []) && ([a])[1..] == [];
    } else {
      RunThenStep(Apply(s, acts[0]), acts[1..], a);
      assert (acts + [a])[1..] == acts[1..] + [a];
    }
  }

  lemma ReachableStep(s: State, a: Action) returns (n: State)
    requires Reachable(s) && Enabled(s, a)
    ensures n == Apply(s, a) && Reachable(n)
  {
    n := Apply(s, a);
    var acts :| Legal(Init(), acts) && Run(Init(), acts) == s;
    RunThenStep(Init(), acts, a);
  }

  lemma StepThenRun(s: State, a: Action, acts: seq<Action>) returns (all: seq<Action>)
    requires Enabled(s, a) && Legal(Apply(s, a), acts)
    ensures Legal(s, all) && Run(s, all) == Run(Apply(s, a), acts) && all == [a] + acts
  {
    all := [a] + acts;
    assert all[1..] == acts;
  }
}
