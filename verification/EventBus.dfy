/** The subscriber table of one event type and the fan-out of events (dap.go:1104-1127, 1180-1198, 1254-1270). */
module EventBus {
  import opened EventRing

  /** eventBufSize: the capacity of the replay ring and of every subscription's channel. */
  const EVENT_BUF_SIZE: nat := 64

  class Subscription {
    const id: nat
    var ch: seq<nat>      // events buffered in the channel
    var stopped: bool     // the stop channel is closed

    constructor (id: nat)
      ensures this.id == id && ch == [] && !stopped
    {
      this.id := id;
      ch, stopped := [], false;
    }

    /** The two selects of the fan-out: skip a cancelled subscription, drop when the buffer is full. */
    method Offer(e: nat)
      modifies this`ch
      ensures !stopped && |old(ch)| < 64 ==> ch == old(ch) + [e]
      ensures stopped || |old(ch)| >= 64 ==> ch == old(ch)
    {
      if !stopped && |ch| < EVENT_BUF_SIZE { ch := ch + [e]; }
    }
  }

  /** A channel after one non-blocking send. */
  function Offered(ch: seq<nat>, stopped: bool, e: nat): seq<nat> {
    if !stopped && |ch| < EVENT_BUF_SIZE then ch + [e] else ch
  }

  /** The list without the entry named `id`. */
  function Without(subs: seq<Subscription>, id: nat): seq<Subscription> {
    if subs == [] then []
    else if subs[0].id == id then Without(subs[1..], id)
    else [subs[0]] + Without(subs[1..], id)
  }

  /** Removing the one entry with the given identity is cutting it out. */
  lemma {:induction false} WithoutCuts(subs: seq<Subscription>, id: nat, i: nat)
    requires i < |subs| && subs[i].id == id
    requires forall j :: 0 <= j < |subs| && j != i ==> subs[j].id != id
    ensures Without(subs, id) == subs[..i] + subs[i + 1..]
  {
    if i == 0 {
      WithoutAbsent(subs[1..], id);
    } else {
      WithoutCuts(subs[1..], id, i - 1);
      assert subs[..i] == [subs[0]] + subs[1..][..i - 1];
    }
  }

  lemma {:induction false} WithoutAbsent(subs: seq<Subscription>, id: nat)
    requires forall s :: s in subs ==> s.id != id
    ensures Without(subs, id) == subs
  {
    if subs != [] { WithoutAbsent(subs[1..], id); }
  }

  /** Cutting one entry out of a list without repetitions leaves none. */
  lemma CutStaysDistinct(subs: seq<Subscription>, i: nat, rest: seq<Subscription>)
    requires i < |subs| && DistinctIds(subs) && rest == subs[..i] + subs[i + 1..]
    ensures DistinctIds(rest)
  {
    forall a, b | 0 <= a < b < |rest| ensures rest[a].id != rest[b].id {
      var a' := if a < i then a else a + 1;
      var b' := if b < i then b else b + 1;
      assert rest[a] == subs[a'] && rest[b] == subs[b'];
      assert subs[a'].id != subs[b'].id;
    }
  }

  lemma CutAt(subs: seq<Subscription>, i: nat)
    requires i < |subs| && DistinctIds(subs)
    ensures Without(subs, subs[i].id) == subs[..i] + subs[i + 1..]
    ensures DistinctIds(Without(subs, subs[i].id))
  {
    CutStaysDistinct(subs, i, subs[..i] + subs[i + 1..]);
    WithoutCuts(subs, subs[i].id, i);
  }

  predicate DistinctIds(subs: seq<Subscription>) {
    forall i, j :: 0 <= i < j < |subs| ==> subs[i].id != subs[j].id
  }

  /** What callers do to one list. */
  datatype Change = Add(sub: Subscription) | Remove(id: nat)

  /** The list after a sequence of registrations and cancels. */
  function Changed(subs: seq<Subscription>, changes: seq<Change>): seq<Subscription> {
    if changes == [] then subs
    else
      var before := Changed(subs, changes[..|changes| - 1]);
      match changes[|changes| - 1]
      case Add(sub) => before + [sub]
      case Remove(id) => Without(before, id)
  }

  /** Every registered subscription has an id that is not in the list. */
  predicate IdsFresh(subs: seq<Subscription>, changes: seq<Change>) {
    changes == [] ||
    var n := |changes| - 1;
    && IdsFresh(subs, changes[..n])
    && (changes[n].Add? ==> forall s :: s in Changed(subs, changes[..n]) ==> s.id != changes[n].sub.id)
  }

  lemma {:induction false} IdsFreshBefore(subs: seq<Subscription>, changes: seq<Change>, i: nat)
    requires IdsFresh(subs, changes) && i <= |changes|
    ensures IdsFresh(subs, changes[..i])
    decreases |changes|
  {
    if i < |changes| {
      IdsFreshBefore(subs, changes[..|changes| - 1], i);
      assert changes[..|changes| - 1][..i] == changes[..i];
    } else {
      assert changes[..i] == changes;
    }
  }

  /** c.subscribers[t]: a slice over a backing array that append may reuse and cancel shifts in place. */
  class SubscriberList {
    var slots: array<Subscription?>
    var len: nat
    ghost var contents: seq<Subscription>   // the slice's elements

    ghost predicate Valid()
      reads this, slots
    {
      && |contents| == len <= slots.Length
      && (forall i :: 0 <= i < len ==> slots[i] == contents[i])
      && DistinctIds(contents)
    }

    constructor ()
      ensures Valid() && fresh(slots) && contents == []
    {
      slots := new Subscription?[0];
      len, contents := 0, [];
    }

    /** append: reuses the backing array when there is room, moves to a larger one when there is not. */
    method Register(sub: Subscription)
      requires Valid() && forall s :: s in contents ==> s.id != sub.id
      modifies this, slots
      ensures Valid() && (slots == old(slots) || fresh(slots))
      ensures contents == old(contents) + [sub]
    {
      if len == slots.Length {
        var bigger := new Subscription?[2 * len + 1];
        forall i | 0 <= i < len { bigger[i] := slots[i]; }
        slots := bigger;
      }
      slots[len] := sub;
      len, contents := len + 1, contents + [sub];
    }

    /** cancel: the entry is found by its id and the rest shifted down in place; a second cancel finds nothing. */
    method Cancel(id: nat)
      requires Valid()
      modifies this, slots
      ensures Valid() && slots == old(slots)
      ensures contents == Without(old(contents), id)
    {
      var i := 0;
      while i < len && slots[i].id != id
        invariant 0 <= i <= len && forall j :: 0 <= j < i ==> contents[j].id != id
      {
        i := i + 1;
      }
      if i == len {
        WithoutAbsent(contents, id);
        return;
      }
      CutAt(contents, i);
      ShiftDown(i);
      len, contents := len - 1, contents[..i] + contents[i + 1..];
    }

    /** copy of subs[i+1:] onto subs[i:] in the same backing array. */
    method ShiftDown(i: nat)
      requires Valid() && i < len
      modifies slots
      ensures forall j :: 0 <= j < i ==> slots[j] == contents[j]
      ensures forall j :: i <= j < len - 1 ==> slots[j] == contents[j + 1]
    {
      var k := i;
      while k + 1 < len
        invariant i <= k < len
        invariant forall j :: 0 <= j < i ==> slots[j] == contents[j]
        invariant forall j :: i <= j < k ==> slots[j] == contents[j + 1]
        invariant forall j :: k <= j < len ==> slots[j] == contents[j]
      {
        slots[k] := slots[k + 1];
        k := k + 1;
      }
    }

    /** The copy dispatchEvent and broadcastEvent take under the lock. */
    method CopyOut() returns (copy: array<Subscription?>)
      requires Valid()
      ensures fresh(copy) && copy.Length == len
      ensures forall i :: 0 <= i < len ==> copy[i] == contents[i]
    {
      copy := new Subscription?[len];
      forall i | 0 <= i < len { copy[i] := slots[i]; }
    }

    /** Any sequence of registrations and cancels, repeated ones included. */
    method Perform(changes: seq<Change>)
      requires Valid() && IdsFresh(contents, changes)
      modifies this, slots
      ensures Valid() && (slots == old(slots) || fresh(slots))
      ensures contents == Changed(old(contents), changes)
    {
      for i := 0 to |changes|
        invariant Valid() && (slots == old(slots) || fresh(slots))
        invariant contents == Changed(old(contents), changes[..i])
      {
        IdsFreshBefore(old(contents), changes, i + 1);
        assert changes[..i + 1][..i] == changes[..i];
        match changes[i]
        case Add(sub) => Register(sub);
        case Remove(id) => Cancel(id);
      }
      assert changes[..|changes|] == changes;
    }

    /** A list copied out before them still holds what it held. */
    method CopySurvives(changes: seq<Change>) returns (copy: array<Subscription?>)
      requires Valid() && IdsFresh(contents, changes)
      modifies this, slots
      ensures Valid() && contents == Changed(old(contents), changes)
      ensures copy.Length == |old(contents)| && forall i :: 0 <= i < copy.Length ==> copy[i] == old(contents)[i]
    {
      copy := CopyOut();
      Perform(changes);
    }
  }

  /** broadcastEvent: the event is offered once to every subscription in the table; no step waits, whatever
      the subscribers do. */
  method BroadcastEvent(subs: SubscriberList, e: nat)
    requires subs.Valid()
    modifies set s | s in subs.contents
    ensures subs.Valid()
    ensures forall s :: s in subs.contents ==> s.stopped == old(s.stopped)
    ensures forall s :: s in subs.contents && !s.stopped && |old(s.ch)| < 64 ==> s.ch == old(s.ch) + [e]
    ensures forall s :: s in subs.contents && (s.stopped || |old(s.ch)| >= 64) ==> s.ch == old(s.ch)
  {
    var copy := subs.CopyOut();
    var i := 0;
    while i < copy.Length
      invariant 0 <= i <= copy.Length == |subs.contents| && subs.Valid()
      invariant forall j :: 0 <= j < |subs.contents| ==> copy[j] == subs.contents[j]
      invariant forall s :: s in subs.contents ==> s.stopped == old(s.stopped)
      invariant forall j :: 0 <= j < |subs.contents| ==>
        subs.contents[j].ch == if j < i then Offered(old(subs.contents[j].ch), subs.contents[j].stopped, e) else old(subs.contents[j].ch)
    {
      copy[i].Offer(e);
      i := i + 1;
    }
  }

  /** dispatchEvent: the event enters the ring and then has the same fan-out. */
  method DispatchEvent(ring: Ring<nat>, subs: SubscriberList, e: nat)
    requires ring.Valid() && subs.Valid() && ring.items as object != subs.slots
    modifies ring, ring.items, set s | s in subs.contents
    ensures ring.Valid() && ring.history == old(ring.history) + [e]
    ensures subs.Valid()
    ensures forall s :: s in subs.contents ==> s.stopped == old(s.stopped)
    ensures forall s :: s in subs.contents && !s.stopped && |old(s.ch)| < 64 ==> s.ch == old(s.ch) + [e]
    ensures forall s :: s in subs.contents && (s.stopped || |old(s.ch)| >= 64) ==> s.ch == old(s.ch)
  {
    ring.Push(e);
    BroadcastEvent(subs, e);
  }

  // ------------------------------------------------------------------- whole runs

  /** What callers do to the table: subscriptions get fresh ids; a cancel may be repeated. */
  datatype Op = Subscribe(id: nat, event: nat) | Cancel(id: nat, event: nat)

  /** The table of one event type, as ids, after a sequence of operations. */
  function Table(ops: seq<Op>, event: nat): seq<nat> {
    if ops == [] then []
    else
      var before, op := Table(ops[..|ops| - 1], event), ops[|ops| - 1];
      if op.event != event then before
      else if op.Subscribe? then before + [op.id]
      else Drop(before, op.id)
  }

  function Drop(ids: seq<nat>, id: nat): seq<nat> {
    if ids == [] then []
    else if ids[0] == id then Drop(ids[1..], id)
    else [ids[0]] + Drop(ids[1..], id)
  }

  /** The subscriptions of one event type in registration order, without those in `gone`. */
  function Live(ops: seq<Op>, event: nat, gone: set<nat>): seq<nat> {
    if ops == [] then []
    else
      var before, op := Live(ops[..|ops| - 1], event, gone), ops[|ops| - 1];
      if op.Subscribe? && op.event == event && op.id !in gone then before + [op.id] else before
  }

  function Cancelled(ops: seq<Op>): set<nat> {
    set i | 0 <= i < |ops| && ops[i].Cancel? :: ops[i].id
  }

  /** A cancel function exists only after its Subscribe returned, belongs to its type, and ids are used once. */
  predicate WellFormed(ops: seq<Op>) {
    && (forall i, j :: 0 <= i < j < |ops| && ops[i].Subscribe? && ops[j].Subscribe? ==> ops[i].id != ops[j].id)
    && (forall j :: 0 <= j < |ops| && ops[j].Cancel? ==> exists i :: 0 <= i < j && ops[i] == Subscribe(ops[j].id, ops[j].event))
  }

  function Ids(subs: seq<Subscription>): seq<nat> {
    seq(|subs|, i requires 0 <= i < |subs| => subs[i].id)
  }

  lemma {:induction false} IdsWithout(subs: seq<Subscription>, id: nat)
    ensures Ids(Without(subs, id)) == Drop(Ids(subs), id)
  {
    if subs != [] {
      IdsWithout(subs[1..], id);
      assert Ids(subs)[1..] == Ids(subs[1..]);
      assert Ids([subs[0]] + Without(subs[1..], id)) == [subs[0].id] + Ids(Without(subs[1..], id));
    }
  }

  /** The changes of one list as operations on the table of its event type. */
  function OpsOf(changes: seq<Change>, event: nat): seq<Op> {
    seq(|changes|, i requires 0 <= i < |changes| =>
      match changes[i] case Add(sub) => Subscribe(sub.id, event) case Remove(id) => Cancel(id, event))
  }

  /** The slice that Perform leaves is the table of the run. */
  lemma {:induction false} ListIsTable(changes: seq<Change>, event: nat)
    ensures Ids(Changed([], changes)) == Table(OpsOf(changes, event), event)
  {
    if changes != [] {
      var n := |changes| - 1;
      ListIsTable(changes[..n], event);
      assert OpsOf(changes, event)[..n] == OpsOf(changes[..n], event);
      if changes[n].Remove? { IdsWithout(Changed([], changes[..n]), changes[n].id); }
    }
  }

  /** After any sequence of registrations and repeated cancels the slice lists exactly the live subscriptions, in
      registration order. */
  lemma ListIsLive(changes: seq<Change>, event: nat)
    requires WellFormed(OpsOf(changes, event))
    ensures var ops := OpsOf(changes, event);
            Ids(Changed([], changes)) == Live(ops, event, Cancelled(ops))
  {
    ListIsTable(changes, event);
    TableIsLive(OpsOf(changes, event), event);
  }

  /** An id is live if and only if it was subscribed under this type and is not gone. */
  lemma {:induction false} LiveMeans(ops: seq<Op>, event: nat, gone: set<nat>, id: nat)
    ensures id in Live(ops, event, gone) <==> id !in gone && exists i :: 0 <= i < |ops| && ops[i] == Subscribe(id, event)
  {
    if ops != [] {
      var n := |ops| - 1;
      LiveMeans(ops[..n], event, gone, id);
      if i :| 0 <= i < |ops| && ops[i] == Subscribe(id, event) { assert i < n ==> ops[..n][i] == ops[i]; }
    }
  }

  /** `a` stands before `b`. */
  predicate Precedes(ids: seq<nat>, a: nat, b: nat) { exists p, q :: 0 <= p < q < |ids| && ids[p] == a && ids[q] == b }

  /** Of two live ids the one subscribed first stands first. */
  lemma {:induction false} LiveOrder(ops: seq<Op>, event: nat, gone: set<nat>, i: nat, j: nat)
    requires i < j < |ops| && ops[i].Subscribe? && ops[j].Subscribe? && ops[i].event == ops[j].event == event
    requires ops[i].id !in gone && ops[j].id !in gone
    ensures Precedes(Live(ops, event, gone), ops[i].id, ops[j].id)
  {
    var n := |ops| - 1;
    var before := Live(ops[..n], event, gone);
    if j < n {
      LiveOrder(ops[..n], event, gone, i, j);
      var p, q :| 0 <= p < q < |before| && before[p] == ops[i].id && before[q] == ops[j].id;
      assert Live(ops, event, gone)[p] == before[p] && Live(ops, event, gone)[q] == before[q];
    } else {
      LiveMeans(ops[..n], event, gone, ops[i].id);
      assert ops[..n][i] == Subscribe(ops[i].id, event);
      var p :| 0 <= p < |before| && before[p] == ops[i].id;
      var live := Live(ops, event, gone);
      assert live[p] == ops[i].id && live[|before|] == ops[j].id;
    }
  }

  /** Operation `i` subscribes a live subscription of this type. */
  predicate Keeps(ops: seq<Op>, event: nat, i: int) {
    0 <= i < |ops| && ops[i].Subscribe? && ops[i].event == event && ops[i].id in Table(ops, event)
  }

  /** Who is in the table after any sequence of subscribes and repeated cancels, and in which order. */
  lemma TableExactly(ops: seq<Op>, event: nat)
    requires WellFormed(ops)
    ensures forall id :: id in Table(ops, event) <==> Wanted(ops, event, id)
    ensures forall i, j :: i < j && Keeps(ops, event, i) && Keeps(ops, event, j) ==> Precedes(Table(ops, event), ops[i].id, ops[j].id)
  {
    TableIsLive(ops, event);
    var gone := Cancelled(ops);
    forall id ensures id in Table(ops, event) <==> Wanted(ops, event, id) { LiveMeans(ops, event, gone, id); }
    forall i, j | i < j && Keeps(ops, event, i) && Keeps(ops, event, j)
      ensures Precedes(Table(ops, event), ops[i].id, ops[j].id)
    {
      LiveMeans(ops, event, gone, ops[i].id);
      LiveMeans(ops, event, gone, ops[j].id);
      LiveOrder(ops, event, gone, i, j);
    }
  }

  /** The id was subscribed under this type and never cancelled. */
  predicate Wanted(ops: seq<Op>, event: nat, id: nat) {
    && (exists i :: 0 <= i < |ops| && ops[i] == Subscribe(id, event))
    && !exists j :: 0 <= j < |ops| && ops[j].Cancel? && ops[j].id == id
  }

  lemma {:induction false} DropAppend(a: seq<nat>, b: seq<nat>, id: nat)
    ensures Drop(a + b, id) == Drop(a, id) + Drop(b, id)
  {
    if a == [] {
      assert a + b == b;
    } else {
      DropAppend(a[1..], b, id);
      assert (a + b)[0] == a[0] && (a + b)[1..] == a[1..] + b;
    }
  }

  /** Dropping an id from the live ones is letting it be gone. */
  lemma {:induction false} DropLive(ops: seq<Op>, event: nat, gone: set<nat>, id: nat)
    ensures Drop(Live(ops, event, gone), id) == Live(ops, event, gone + {id})
  {
    if ops != [] {
      DropLive(ops[..|ops| - 1], event, gone, id);
      DropAppend(Live(ops[..|ops| - 1], event, gone), [ops[|ops| - 1].id], id);
    }
  }

  /** An id that is not subscribed under this type makes no difference. */
  lemma {:induction false} LiveIgnores(ops: seq<Op>, event: nat, gone: set<nat>, id: nat)
    requires forall i :: 0 <= i < |ops| && ops[i].Subscribe? && ops[i].event == event ==> ops[i].id != id
    ensures Live(ops, event, gone + {id}) == Live(ops, event, gone)
  {
    if ops != [] { LiveIgnores(ops[..|ops| - 1], event, gone, id); }
  }

  /** The table lists exactly the subscriptions not yet cancelled, in registration order. */
  lemma {:induction false} TableIsLive(ops: seq<Op>, event: nat)
    requires WellFormed(ops)
    ensures Table(ops, event) == Live(ops, event, Cancelled(ops))
  {
    if ops != [] {
      var n := |ops| - 1;
      var before, op := ops[..n], ops[n];
      assert WellFormed(before) by {
        forall j | 0 <= j < n && before[j].Cancel?
          ensures exists i :: 0 <= i < j && before[i] == Subscribe(before[j].id, before[j].event)
        {
          var i :| 0 <= i < j && ops[i] == Subscribe(ops[j].id, ops[j].event);
          assert before[i] == ops[i];
        }
      }
      TableIsLive(before, event);
      if op.Subscribe? {
        assert Cancelled(ops) == Cancelled(before);
      } else {
        assert Cancelled(ops) == Cancelled(before) + {op.id};
        if op.event == event {
          DropLive(before, event, Cancelled(before), op.id);
        } else {
          LiveIgnores(before, event, Cancelled(before), op.id);
        }
      }
    }
  }
}
