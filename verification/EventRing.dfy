/** The event replay ring (dap.go:948-988). */
module EventRing {

  /** The last `n` elements of `s`, or all of it when it is shorter. */
  function Last<T>(s: seq<T>, n: nat): seq<T> {
    if |s| <= n then s else s[|s| - n..]
  }

  /** They are min(n, |s|) many, they are the newest, and they keep their order. */
  lemma LastIs<T>(s: seq<T>, n: nat)
    ensures |Last(s, n)| == if |s| <= n then |s| else n
    ensures forall k :: 0 <= k < |Last(s, n)| ==> Last(s, n)[k] == s[|s| - |Last(s, n)| + k]
    ensures exists older :: s == older + Last(s, n)
  {
    var older := s[..|s| - |Last(s, n)|];
    assert s == older + Last(s, n);
  }

  /** A remainder that wraps at most once. */
  lemma WrapOnce(x: nat, m: nat)
    requires 0 < m && x < m + m
    ensures x % m == if x < m then x else x - m
  {
    var q := x / m;
    assert x == q * m + x % m;
    if q == 0 {
      assert q * m == 0;
    } else if q == 1 {
      assert q * m == m;
    }
  }

  /** Where the entry pushed `k` pushes before the newest one is kept, when `idx` is the next write position. */
  function Slot(idx: nat, cap: nat, k: nat): (slot: nat)
    requires idx < cap && k < cap
    ensures slot < cap
  {
    if k < idx then idx - 1 - k else idx - 1 - k + cap
  }

  /** An index that wraps once. */
  function Wrapped(x: nat, cap: nat): (w: nat)
    requires x < cap + cap
    ensures cap > 0 ==> w < cap
  {
    if x < cap then x else x - cap
  }

  /** The i-th entry of a snapshot, counted from the oldest. */
  lemma SnapshotSlot(idx: nat, size: nat, cap: nat, i: nat)
    requires idx < cap && size <= cap && i < size
    ensures Wrapped(Wrapped(idx - size + cap, cap) + i, cap) == Slot(idx, cap, size - 1 - i)
  {}

  class Ring<T(0)> {
    var items: array<T>
    var idx: nat     // next write position
    var size: nat    // number of valid entries
    ghost var history: seq<T>   // everything ever pushed

    ghost predicate Valid()
      reads this, items
    {
      && items.Length > 0
      && size == (if |history| <= items.Length then |history| else items.Length)
      && idx < items.Length
      && (size < items.Length ==> idx == size)
      && forall k :: 0 <= k < size ==> items[Slot(idx, items.Length, k)] == history[|history| - 1 - k]
    }

    constructor (cap: nat)
      requires cap > 0
      ensures Valid() && fresh(items) && items.Length == cap && history == []
    {
      items := new T[cap];
      idx, size, history := 0, 0, [];
    }

    /** push: the oldest entry is overwritten once the ring is full. */
    method Push(e: T)
      requires Valid()
      modifies this, items
      ensures Valid() && items == old(items)
      ensures history == old(history) + [e]
    {
      WrapOnce(idx + 1, items.Length);
      items[idx] := e;
      idx := (idx + 1) % items.Length;
      if size < items.Length { size := size + 1; }
      history := history + [e];
      forall k | 0 <= k < size ensures items[Slot(idx, items.Length, k)] == history[|history| - 1 - k] {
        if k > 0 {
          assert Slot(idx, items.Length, k) == Slot(old(idx), items.Length, k - 1);
          assert old(history)[|old(history)| - k] == history[|history| - 1 - k];
        }
      }
    }

    /** snapshot: exactly the last min(n, cap) of the n pushed entries, oldest first. */
    method Snapshot() returns (out: seq<T>)
      requires Valid()
      ensures out == Last(history, items.Length)
    {
      if size == 0 { return []; }
      var start := (idx - size + items.Length) % items.Length;
      WrapOnce(idx - size + items.Length, items.Length);
      assert start == Wrapped(idx - size + items.Length, items.Length);
      out := [];
      for i := 0 to size
        invariant |out| == i
        invariant forall j :: 0 <= j < i ==> out[j] == history[|history| - size + j]
      {
        var at := (start + i) % items.Length;
        WrapOnce(start + i, items.Length);
        assert at == Wrapped(start + i, items.Length);
        SnapshotSlot(idx, size, items.Length, i);
        assert items[at] == history[|history| - 1 - (size - 1 - i)];
        out := out + [items[at]];
      }
    }
  }
}
