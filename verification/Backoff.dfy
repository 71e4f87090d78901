/** doReconnect as the loop it is, with its backoff and its effect on the client (dap.go:536-619). */
module Backoff {

  function Pow2(n: nat): (p: nat)
    ensures p >= 1
  {
    if n == 0 then 1 else 2 * Pow2(n - 1)
  }

  function Min(a: nat, b: nat): nat { if a <= b then a else b }

  /** The wait after the k-th consecutive failure, in closed form: the first wait is `base` whatever the
      cap, every later one is the doubled wait cut off at the cap. */
  function Wait(base: nat, max: nat, k: nat): nat
    requires k > 0
  {
    if k == 1 then base else Min(base * Pow2(k - 1), max)
  }

  /** The waits after `n` consecutive failures. */
  function Waits(base: nat, max: nat, n: nat): (w: seq<nat>)
    ensures |w| == n
  {
    seq(n, i requires 0 <= i < n => Wait(base, max, i + 1))
  }

  /** Doubling and cutting off one wait gives the next one. */
  lemma NextWait(base: nat, max: nat, k: nat)
    requires k > 0
    ensures Wait(base, max, k + 1) == Min(2 * Wait(base, max, k), max)
  {
    assert base * Pow2(k) == 2 * (base * Pow2(k - 1));
    if k == 1 { assert Pow2(0) == 1; }
  }

  /** For a base within the cap no wait exceeds the cap and the waits never fall. */
  lemma WaitsRiseToCap(base: nat, max: nat, k: nat)
    requires k > 0
    ensures base <= max ==> Wait(base, max, k) == Min(base * Pow2(k - 1), max)
    ensures base <= max ==> Wait(base, max, k) <= Wait(base, max, k + 1)
    ensures Wait(base, max, k) > max <==> k == 1 && base > max
  {
    NextWait(base, max, k);
    assert Pow2(0) == 1;
  }

  function Sum(w: seq<nat>): nat {
    if w == [] then 0 else Sum(w[..|w| - 1]) + w[|w| - 1]
  }

  /** The total wait after n failures with the shipped one-second base and thirty-second cap. */
  lemma {:induction false} TotalWait(n: nat)
    ensures Sum(Waits(1, 30, n)) == if n <= 5 then Pow2(n) - 1 else 31 + 30 * (n - 5)
  {
    if n > 0 {
      TotalWait(n - 1);
      assert Waits(1, 30, n)[..n - 1] == Waits(1, 30, n - 1);
      assert Pow2(5) == 32 by { assert Pow2(3) == 8; }
      if n > 5 { Pow2Grows(5, n - 1); } else { Pow2Grows(n - 1, 4); }
      assert Pow2(4) == 16 by { assert Pow2(2) == 4; }
    }
  }

  lemma {:induction false} Pow2Grows(a: nat, b: nat)
    requires a <= b
    ensures Pow2(a) <= Pow2(b)
    decreases b
  {
    if a < b { Pow2Grows(a, b - 1); }
  }

  /** One round of the retry loop.  The context may be cancelled while the dial or the wait goes on. */
  datatype Round = Fails | FailsCancelled | Succeeds | SucceedsCancelled

  /** The rounds the loop gets to before it returns. */
  function Failures(rounds: seq<Round>): (n: nat)
    ensures n <= |rounds|
    ensures forall i :: 0 <= i < n ==> rounds[i].Fails?
    ensures n < |rounds| ==> !rounds[n].Fails?
  {
    if rounds == [] || !rounds[0].Fails? then 0 else 1 + Failures(rounds[1..])
  }

  class Client {
    var stale: bool
    var epoch: nat           // swaps done by replaceConn
    var attempts: nat        // reconnectAttempts
    var hookRuns: nat
    var synced: bool         // the hook of the last swap returned nil, or none is wired
    var waits: seq<nat>      // every time.After of every doReconnect, in order
    const hookWired: bool

    constructor (hookWired: bool)
      ensures this.hookWired == hookWired && !stale && epoch == attempts == hookRuns == 0 && synced && waits == []
    {
      this.hookWired := hookWired;
      stale, epoch, attempts, hookRuns, synced, waits := false, 0, 0, 0, true, [];
    }

    /** replaceConn and notifySessionReconnected, with the result the hook will give. */
    method Install(hookOk: bool)
      modifies this
      ensures stale == old(stale) && attempts == old(attempts) && waits == old(waits)
      ensures epoch == old(epoch) + 1
      ensures hookRuns == old(hookRuns) + if hookWired then 1 else 0
      ensures synced == (hookOk || !hookWired)
    {
      epoch := epoch + 1;
      synced := !hookWired;
      if hookWired {
        hookRuns := hookRuns + 1;
        synced := hookOk;
      }
    }

    /** The outcomes of successive rounds are given; when they are used up the context is cancelled.  The
        loop installs a connection exactly when the first round that does not simply fail succeeds with the
        context alive; it then clears `stale` whatever the hook said.  Otherwise it gives up and leaves `stale` alone. */
    method DoReconnect(base: nat, max: nat, rounds: seq<Round>, hookOk: bool) returns (installed: bool)
      modifies this
      ensures installed <==> Failures(rounds) < |rounds| && rounds[Failures(rounds)].Succeeds?
      ensures stale == (!installed && old(stale))
      ensures epoch == old(epoch) + (if installed then 1 else 0)
      ensures hookRuns == old(hookRuns) + (if installed && hookWired then 1 else 0)
      ensures synced == if installed then hookOk || !hookWired else old(synced)
      ensures attempts == old(attempts) + Failures(rounds) + (if Failures(rounds) < |rounds| then 1 else 0)
      ensures waits == old(waits) + Waits(base, max, Failures(rounds) +
                (if Failures(rounds) < |rounds| && rounds[Failures(rounds)].FailsCancelled? then 1 else 0))
    {
      var backoff := base;
      var i := 0;
      while i < |rounds|
        invariant 0 <= i <= Failures(rounds)
        invariant backoff == Wait(base, max, i + 1)
        invariant waits == old(waits) + Waits(base, max, i)
        invariant attempts == old(attempts) + i
        invariant stale == old(stale) && epoch == old(epoch) && hookRuns == old(hookRuns) && synced == old(synced)
      {
        attempts := attempts + 1;
        if rounds[i].SucceedsCancelled? { return false; }
        if rounds[i].Succeeds? {
          Install(hookOk);
          stale := false;
          return true;
        }
        waits := waits + [backoff];
        assert Waits(base, max, i) + [backoff] == Waits(base, max, i + 1);
        if rounds[i].FailsCancelled? { return false; }
        NextWait(base, max, i + 1);
        backoff := backoff * 2;
        if backoff > max { backoff := max; }
        i := i + 1;
      }
      installed := false;
    }
  }
}
