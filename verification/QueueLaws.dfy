/** What holds of the queue over every run of its operations. */
module QueueLaws {
  import opened Wrappers
  import opened UploadTypes
  import opened Queue

  // ---------------------------------------------------------------- the slot invariant

  ghost predicate Ordered(items: seq<Item>) {
    forall i, j | 0 <= i < j < |items| :: items[i].id < items[j].id
  }

  /** No item sits in two slots. */
  ghost predicate Exclusive(slots: seq<Option<nat>>) {
    forall s, t | 0 <= s < t < |slots| && slots[s].Some? :: slots[s] != slots[t]
  }

  /** An item is active exactly when a slot holds it. */
  ghost predicate Agree(items: seq<Item>, slots: seq<Option<nat>>) {
    forall i | 0 <= i < |items| :: IsActive(items[i].status) <==> Some(items[i].id) in slots
  }

  ghost predicate Inv(q: State) {
    && Ordered(q.items)
    && (forall i | 0 <= i < |q.items| :: q.items[i].id < q.nextId)
    && (forall s | 0 <= s < |q.slots| && q.slots[s].Some? :: q.slots[s].value < q.nextId)
    && Exclusive(q.slots)
    && Agree(q.items, q.slots)
  }

  // ---------------------------------------------------------------- filtering

  lemma {:induction false} FilterMembers(keep: Item -> bool, items: seq<Item>)
    ensures forall x :: x in Filter(keep, items) <==> x in items && keep(x)
  {
    if items != [] {
      FilterMembers(keep, items[..|items| - 1]);
      assert items == items[..|items| - 1] + [items[|items| - 1]];
    }
  }

  lemma {:induction false} FilterOrdered(keep: Item -> bool, items: seq<Item>)
    requires Ordered(items)
    ensures Ordered(Filter(keep, items))
  {
    if items != [] {
      var front := items[..|items| - 1];
      FilterOrdered(keep, front);
      FilterMembers(keep, front);
      var kept := Filter(keep, front);
      forall i | 0 <= i < |kept| ensures kept[i].id < items[|items| - 1].id {
        assert kept[i] in front;
      }
    }
  }

  lemma FilterKeepsInv(q: State, keep: Item -> bool)
    requires Inv(q)
    ensures Inv(q.(items := Filter(keep, q.items)))
  {
    FilterMembers(keep, q.items);
    FilterOrdered(keep, q.items);
    var kept := Filter(keep, q.items);
    forall i | 0 <= i < |kept|
      ensures kept[i].id < q.nextId && (IsActive(kept[i].status) <==> Some(kept[i].id) in q.slots)
    {
      assert kept[i] in q.items;
    }
  }

  // ---------------------------------------------------------------- a tick, slot by slot

  /** The slot that holds `id`. */
  function SlotOf(slots: seq<Option<nat>>, id: nat): (r: Option<nat>)
    ensures r.Some? ==> r.value < |slots| && slots[r.value] == Some(id)
    ensures r.None? ==> Some(id) !in slots
  {
    if slots == [] then None
    else if slots[|slots| - 1] == Some(id) then Some(|slots| - 1)
    else SlotOf(slots[..|slots| - 1], id)
  }

  lemma SlotOfIs(slots: seq<Option<nat>>, s: nat)
    requires Exclusive(slots) && s < |slots| && slots[s].Some?
    ensures SlotOf(slots, slots[s].value) == Some(s)
  {
  }

  /** The first `upTo` slots have been reconciled: each held item mirrors its own worker, no
      other item changed, and exactly the slots of finished workers are free. */
  ghost predicate Mirrored(q: State, snapshots: seq<UploadState>, now: Millis, upTo: nat, r: State)
    requires upTo <= |q.slots| == |snapshots|
  {
    && |r.items| == |q.items| && |r.slots| == |q.slots|
    && (forall i | 0 <= i < |q.items| ::
          var holder := SlotOf(q.slots, q.items[i].id);
          r.items[i] == if holder.Some? && holder.value < upTo
                        then Reconciled(q.items[i], snapshots[holder.value], now)
                        else q.items[i])
    && (forall s | 0 <= s < |q.slots| ::
          r.slots[s] == if s < upTo && q.slots[s].Some? && WorkerDone(snapshots[s].status) then None else q.slots[s])
  }

  lemma FindIs(items: seq<Item>, i: nat)
    requires Ordered(items) && i < |items|
    ensures Find(items, items[i].id) == Some(i)
  {
  }

  lemma ReconcileOne(q: State, snapshots: seq<UploadState>, now: Millis, slot: nat, before: State)
    requires Ordered(q.items) && Exclusive(q.slots) && slot < |q.slots| == |snapshots|
    requires Mirrored(q, snapshots, now, slot, before)
    ensures Mirrored(q, snapshots, now, slot + 1, ReconcileSlot(before, snapshots[slot], now, slot))
  {
    var held := q.slots[slot];
    assert before.slots[slot] == held;
    SameIds(q, snapshots, now, slot, before);
    var r := ReconcileSlot(before, snapshots[slot], now, slot);
    forall i | 0 <= i < |q.items|
      ensures var holder := SlotOf(q.slots, q.items[i].id);
              r.items[i] == if holder.Some? && holder.value < slot + 1
                            then Reconciled(q.items[i], snapshots[holder.value], now)
                            else q.items[i]
    {
      if held.Some? {
        SlotOfIs(q.slots, slot);
        if q.items[i].id == held.value {
          FindIs(before.items, i);
        }
      }
    }
  }

  lemma SameIds(q: State, snapshots: seq<UploadState>, now: Millis, upTo: nat, r: State)
    requires Ordered(q.items) && upTo <= |q.slots| == |snapshots| && Mirrored(q, snapshots, now, upTo, r)
    ensures forall i | 0 <= i < |q.items| :: r.items[i].id == q.items[i].id
    ensures Ordered(r.items)
  {
  }

  /** `Mirrored` after the first `upTo` slots. */
  ghost predicate MirrorsTo(q: State, snapshots: seq<UploadState>, now: Millis, upTo: nat)
    requires upTo <= |q.slots| == |snapshots|
  {
    forall n: nat {:trigger Reached(n)} | Reached(n) && n == upTo ::
      Mirrored(q, snapshots, now, n, ReconcileSlots(q, snapshots, now, n))
  }

  /** Named where a proof looks at a tick that has come this far, and only there. */
  ghost predicate Reached(slot: nat) {
    true
  }

  lemma ReconcileNext(q: State, snapshots: seq<UploadState>, now: Millis, slot: nat)
    requires Ordered(q.items) && Exclusive(q.slots) && slot < |q.slots| == |snapshots|
    requires MirrorsTo(q, snapshots, now, slot)
    ensures MirrorsTo(q, snapshots, now, slot + 1)
  {
    assert Reached(slot);
    ReconcileStep(q, snapshots, now, slot);
  }

  lemma ReconcileStep(q: State, snapshots: seq<UploadState>, now: Millis, slot: nat)
    requires Ordered(q.items) && Exclusive(q.slots) && slot < |q.slots| == |snapshots|
    requires Mirrored(q, snapshots, now, slot, ReconcileSlots(q, snapshots, now, slot))
    ensures Mirrored(q, snapshots, now, slot + 1, ReconcileSlots(q, snapshots, now, slot + 1))
  {
    var before := ReconcileSlots(q, snapshots, now, slot);
    ReconcileOne(q, snapshots, now, slot, before);
    assert ReconcileSlots(q, snapshots, now, slot + 1) == ReconcileSlot(before, snapshots[slot], now, slot);
  }

  lemma NoneReconciled(q: State, snapshots: seq<UploadState>, now: Millis)
    requires |q.slots| == |snapshots|
    ensures MirrorsTo(q, snapshots, now, 0)
  {
    assert ReconcileSlots(q, snapshots, now, 0) == q;
  }

  lemma {:induction false} ReconcileAll(q: State, snapshots: seq<UploadState>, now: Millis, upTo: nat)
    requires Ordered(q.items) && Exclusive(q.slots) && upTo <= |q.slots| == |snapshots|
    ensures MirrorsTo(q, snapshots, now, upTo)
  {
    if upTo > 0 {
      ReconcileAll(q, snapshots, now, upTo - 1);
      ReconcileNext(q, snapshots, now, upTo - 1);
    } else {
      NoneReconciled(q, snapshots, now);
    }
  }

  /** Within one tick every item meets exactly the worker that holds it. */
  lemma ReconcileIsPointwise(q: State, snapshots: seq<UploadState>, now: Millis, upTo: nat)
    requires Inv(q) && upTo <= |q.slots| == |snapshots|
    ensures Mirrored(q, snapshots, now, upTo, ReconcileSlots(q, snapshots, now, upTo))
  {
    ReconcileAll(q, snapshots, now, upTo);
    assert Reached(upTo);
  }

  lemma ReconcileKeepsInv(q: State, snapshots: seq<UploadState>, now: Millis)
    requires Inv(q) && |q.slots| == |snapshots|
    ensures Inv(ReconcileSlots(q, snapshots, now, |q.slots|))
  {
    ReconcileIsPointwise(q, snapshots, now, |q.slots|);
    MirroredKeepsInv(q, snapshots, now, ReconcileSlots(q, snapshots, now, |q.slots|));
  }

  lemma MirroredKeepsInv(q: State, snapshots: seq<UploadState>, now: Millis, r: State)
    requires Inv(q) && |q.slots| == |snapshots| && r.nextId == q.nextId
    requires Mirrored(q, snapshots, now, |q.slots|, r)
    ensures Inv(r)
  {
    forall i | 0 <= i < |r.items| ensures IsActive(r.items[i].status) <==> Some(r.items[i].id) in r.slots {
      var id := q.items[i].id;
      var holder := SlotOf(q.slots, id);
      assert r.items[i].id == id;
      if holder.Some? {
        var s := holder.value;
        assert q.slots[s] in q.slots;
        assert r.slots[s] == if WorkerDone(snapshots[s].status) then None else Some(id);
        assert forall t | 0 <= t < |r.slots| && t != s :: r.slots[t] != Some(id);
      }
    }
  }

  // ---------------------------------------------------------------- one slot

  lemma FillSlotKeepsInv(q: State, now: Millis, slot: nat)
    requires Inv(q) && slot < |q.slots|
    ensures Inv(FillSlot(q, now, slot).0)
  {
    var next := FirstQueued(q.items, 0);
    if q.slots[slot].None? && next.Some? {
      var r := FillSlot(q, now, slot).0;
      var id := q.items[next.value].id;
      assert Some(id) !in q.slots;
      assert r.slots[slot] == Some(id);
      forall i | 0 <= i < |r.items| ensures IsActive(r.items[i].status) <==> Some(r.items[i].id) in r.slots {
        if i != next.value && Some(r.items[i].id) in q.slots {
          var s :| 0 <= s < |q.slots| && q.slots[s] == Some(r.items[i].id);
          assert r.slots[s] == q.slots[s];
        }
      }
    }
  }

  lemma {:induction false} FillKeepsInv(q: State, now: Millis, upTo: nat)
    requires Inv(q) && upTo <= |q.slots|
    ensures Inv(FillSlots(q, now, upTo).0)
  {
    if upTo > 0 {
      FillKeepsInv(q, now, upTo - 1);
      FillNextKeepsInv(q, now, upTo - 1);
    }
  }

  lemma FillNextKeepsInv(q: State, now: Millis, slot: nat)
    requires slot < |q.slots| && Inv(FillSlots(q, now, slot).0)
    ensures Inv(FillSlots(q, now, slot + 1).0)
  {
    var before := FillSlots(q, now, slot).0;
    FillSlotKeepsInv(before, now, slot);
    assert FillSlots(q, now, slot + 1).0 == FillSlot(before, now, slot).0;
  }

  // ---------------------------------------------------------------- every operation

  lemma UpdateKeepsInv(q: State, at: nat, item: Item)
    requires Inv(q) && at < |q.items|
    requires item.id == q.items[at].id && !IsActive(item.status) && !IsActive(q.items[at].status)
    ensures Inv(q.(items := q.items[at := item]))
  {
  }

  lemma {:induction false} OpKeepsInv(q: State, op: Op)
    requires Inv(q) && Applicable(q, op)
    ensures Inv(Apply(q, op))
    ensures |Apply(q, op).slots| == |q.slots| && q.nextId <= Apply(q, op).nextId
  {
    match op
    case Add(file, options) =>
      assert Some(q.nextId) !in q.slots;
    case AbortItem(id) =>
      var at := Find(q.items, id);
      if at.Some? && q.items[at.value].status.Queued? {
        UpdateKeepsInv(q, at.value, q.items[at.value].(status := Aborted));
      }
    case AbortAll =>
    case RemoveItem(id) => FilterKeepsInv(q, KeepOthers(id));
    case ClearComplete => FilterKeepsInv(q, KEEP_INCOMPLETE);
    case ClearFinished => FilterKeepsInv(q, KEEP_UNFINISHED);
    case RetryItem(id) =>
      if RetryOutcome(q, id).Reset? {
        var at := Find(q.items, id).value;
        UpdateKeepsInv(q, at, Retried(q.items[at]));
      }
    case SchedulerTick(snapshots, now) =>
      ReconcileKeepsInv(q, snapshots, now);
      FillKeepsInv(ReconcileSlots(q, snapshots, now, |q.slots|), now, |q.slots|);
  }

  /** `after` follows `before` by some operations. */
  ghost predicate Reachable(before: State, ops: seq<Op>, after: State)
    decreases ops
  {
    if ops == [] then before == after
    else Applicable(before, ops[0]) && Reachable(Apply(before, ops[0]), ops[1..], after)
  }

  /** The slot invariant survives operations in any order. */
  lemma {:induction false} InvAlways(before: State, ops: seq<Op>, after: State)
    requires Inv(before) && Reachable(before, ops, after)
    ensures Inv(after) && |after.slots| == |before.slots| && before.nextId <= after.nextId
    decreases ops
  {
    if ops != [] {
      OpKeepsInv(before, ops[0]);
      InvAlways(Apply(before, ops[0]), ops[1..], after);
    }
  }

  // ---------------------------------------------------------------- counting

  const ACTIVE: Item -> bool := (i: Item) => IsActive(i.status)

  ghost function SlotIds(slots: seq<Option<nat>>): set<nat> {
    set s | 0 <= s < |slots| && slots[s].Some? :: slots[s].value
  }

  lemma {:induction false} SlotIdsBound(slots: seq<Option<nat>>)
    ensures |SlotIds(slots)| <= |slots|
  {
    if slots != [] {
      var front, last := slots[..|slots| - 1], slots[|slots| - 1];
      SlotIdsBound(front);
      assert SlotIds(slots) == SlotIds(front) + (if last.Some? then {last.value} else {});
    }
  }

  ghost function Ids(items: seq<Item>): set<nat> {
    set i | 0 <= i < |items| :: items[i].id
  }

  lemma {:induction false} IdsCount(items: seq<Item>)
    requires Ordered(items)
    ensures |Ids(items)| == |items|
  {
    if items != [] {
      var front, last := items[..|items| - 1], items[|items| - 1];
      IdsCount(front);
      assert Ids(items) == Ids(front) + {last.id};
    }
  }

  /** Never more active items than workers. */
  lemma ActiveBound(q: State)
    requires Inv(q)
    ensures Count(ACTIVE, q.items) <= |q.slots|
  {
    var active := Filter(ACTIVE, q.items);
    FilterMembers(ACTIVE, q.items);
    FilterOrdered(ACTIVE, q.items);
    IdsCount(active);
    SlotIdsBound(q.slots);
    forall id | id in Ids(active) ensures id in SlotIds(q.slots) {
      var i :| 0 <= i < |active| && active[i].id == id;
      assert active[i] in q.items;
      assert Some(id) in q.slots;
    }
    SubsetCount(Ids(active), SlotIds(q.slots));
  }

  lemma {:induction false} SubsetCount(a: set<nat>, b: set<nat>)
    requires a <= b
    ensures |a| <= |b|
    decreases a
  {
    if x :| x in a {
      SubsetCount(a - {x}, b - {x});
    }
  }

  // ---------------------------------------------------------------- which items start

  ghost predicate Within(indices: seq<nat>, bound: nat) {
    forall k | 0 <= k < |indices| :: indices[k] < bound
  }

  function FreeSlots(slots: seq<Option<nat>>, upTo: nat): (free: seq<nat>)
    requires upTo <= |slots|
    ensures Within(free, upTo)
    ensures forall s | 0 <= s < upTo && slots[s].None? :: s in free
  {
    if upTo == 0 then [] else
      var front := FreeSlots(slots, upTo - 1);
      if slots[upTo - 1].None? then front + [upTo - 1] else front
  }

  /** The positions of the Queued items, in list order. */
  function QueuedFrom(items: seq<Item>, from: nat): (r: seq<nat>)
    requires from <= |items|
    ensures forall k | 0 <= k < |r| :: from <= r[k] < |items| && items[r[k]].status.Queued?
    decreases |items| - from
  {
    if from == |items| then []
    else (if items[from].status.Queued? then [from] else []) + QueuedFrom(items, from + 1)
  }

  lemma {:induction false} FirstOfQueued(items: seq<Item>, from: nat)
    requires from <= |items|
    ensures var first, all := FirstQueued(items, from), QueuedFrom(items, from);
            if first.None? then all == [] else all == [first.value] + QueuedFrom(items, first.value + 1)
    decreases |items| - from
  {
    if from < |items| && !items[from].status.Queued? {
      FirstOfQueued(items, from + 1);
    }
  }

  lemma {:induction false} QueuedBehind(items: seq<Item>, at: nat, item: Item, from: nat)
    requires at < from <= |items|
    ensures QueuedFrom(items[at := item], from) == QueuedFrom(items, from)
    decreases |items| - from
  {
    if from < |items| {
      QueuedBehind(items, at, item, from + 1);
    }
  }

  lemma {:induction false} QueuedAfterStart(items: seq<Item>, from: nat, item: Item)
    requires from <= |items| && FirstQueued(items, from).Some? && !item.status.Queued?
    ensures var at := FirstQueued(items, from).value;
            QueuedFrom(items, from) == [at] + QueuedFrom(items[at := item], from)
    decreases |items| - from
  {
    if items[from].status.Queued? {
      QueuedBehind(items, from, item, from + 1);
    } else {
      QueuedAfterStart(items, from + 1, item);
    }
  }

  function Lesser(a: nat, b: nat): nat {
    if a < b then a else b
  }

  /** The items at `chosen` have started; the others are as they were. */
  ghost predicate DealtItems(items: seq<Item>, now: Millis, chosen: seq<nat>, r: seq<Item>) {
    |r| == |items| && forall i | 0 <= i < |items| :: r[i] == if i in chosen then Started(items[i], now) else items[i]
  }

  /** Among the first `bound` slots, `free[k]` has been given item `chosen[k]`, later free ones
      stay free, and held ones keep their items. */
  ghost predicate DealtSlots(items: seq<Item>, slots: seq<Option<nat>>, bound: nat, free: seq<nat>, chosen: seq<nat>,
                             r: seq<Option<nat>>, starts: seq<TickStart>)
    requires Within(chosen, |items|) && Within(free, bound) && bound <= |slots| && |chosen| <= |free|
  {
    && |r| == |slots| && |starts| == |chosen|
    && (forall k | 0 <= k < |free| :: r[free[k]] == if k < |chosen| then Some(items[chosen[k]].id) else None)
    && (forall k | 0 <= k < |chosen| :: starts[k] == TickStart(free[k], items[chosen[k]].id))
    && (forall s | 0 <= s < |slots| && (bound <= s || slots[s].Some?) :: r[s] == slots[s])
  }

  /** The first `n` queued items have been given to the first `n` free slots below `bound`, in
      order. */
  ghost predicate Dealt(q: State, now: Millis, bound: nat, free: seq<nat>, queued: seq<nat>, n: nat, r: State,
                        starts: seq<TickStart>)
    requires Within(queued, |q.items|) && Within(free, bound) && bound <= |q.slots|
    requires n <= |free| && n <= |queued|
  {
    && DealtItems(q.items, now, queued[..n], r.items)
    && DealtSlots(q.items, q.slots, bound, free, queued[..n], r.slots, starts)
    && QueuedFrom(r.items, 0) == queued[n..]
  }

  lemma DealItem(items: seq<Item>, now: Millis, chosen: seq<nat>, before: seq<Item>, at: nat)
    requires DealtItems(items, now, chosen, before) && at < |items| && at !in chosen
    ensures DealtItems(items, now, chosen + [at], before[at := Started(before[at], now)])
  {
  }

  lemma DealSlot(items: seq<Item>, slots: seq<Option<nat>>, slot: nat, free: seq<nat>, chosen: seq<nat>,
                 before: seq<Option<nat>>, starts: seq<TickStart>, at: nat)
    requires Within(chosen, |items|) && Within(free, slot) && |free| == |chosen| && slot < |slots| && at < |items|
    requires slots[slot].None? && DealtSlots(items, slots, slot, free, chosen, before, starts)
    ensures var id := items[at].id;
            DealtSlots(items, slots, slot + 1, free + [slot], chosen + [at],
                       before[slot := Some(id)], starts + [TickStart(slot, id)])
  {
  }

  lemma NextQueued(q: State, now: Millis, bound: nat, free: seq<nat>, queued: seq<nat>, n: nat, before: State,
                   starts: seq<TickStart>)
    requires queued == QueuedFrom(q.items, 0) && Within(free, bound) && bound <= |q.slots|
    requires n <= |free| && n <= |queued| && Dealt(q, now, bound, free, queued, n, before, starts)
    ensures FirstQueued(before.items, 0) == (if n < |queued| then Some(queued[n]) else None)
    ensures n < |queued| ==> before.items[queued[n]] == q.items[queued[n]] && queued[n] !in queued[..n]
  {
    FirstOfQueued(before.items, 0);
    if n < |queued| {
      assert queued[n..][0] == queued[n];
    }
  }

  lemma NextToDeal(q: State, now: Millis, bound: nat, free: seq<nat>, queued: seq<nat>, n: nat, before: State,
                   starts: seq<TickStart>)
    requires queued == QueuedFrom(q.items, 0) && Within(free, bound) && bound <= |q.slots|
    requires n <= |free| && n <= |queued| && Dealt(q, now, bound, free, queued, n, before, starts)
    ensures FirstQueued(before.items, 0) == (if n < |queued| then Some(queued[n]) else None)
    ensures n < |queued| ==> before.items[queued[n]] == q.items[queued[n]] && queued[n] !in queued[..n]
    ensures n < |queued| ==>
      QueuedFrom(before.items[queued[n] := Started(before.items[queued[n]], now)], 0) == queued[n + 1..]
  {
    NextQueued(q, now, bound, free, queued, n, before, starts);
    if n < |queued| {
      QueuedAfterStart(before.items, 0, Started(before.items[queued[n]], now));
      assert queued[n..] == [queued[n]] + queued[n + 1..];
    }
  }

  /** The next free slot gets the next queued item. */
  lemma DealOne(q: State, now: Millis, slot: nat, free: seq<nat>, queued: seq<nat>, before: State,
                starts: seq<TickStart>)
    requires queued == QueuedFrom(q.items, 0) && slot < |q.slots| && Within(free, slot) && q.slots[slot].None?
    requires |free| < |queued| && Dealt(q, now, slot, free, queued, |free|, before, starts)
    ensures var (r, begun) := FillSlot(before, now, slot);
            Dealt(q, now, slot + 1, free + [slot], queued, |free| + 1, r, starts + begun)
  {
    var n := |free|;
    NextToDeal(q, now, slot, free, queued, n, before, starts);
    var chosen, at := queued[..n], queued[n];
    assert queued[..n + 1] == chosen + [at];
    DealItem(q.items, now, chosen, before.items, at);
    DealSlot(q.items, q.slots, slot, free, chosen, before.slots, starts, at);
  }

  /** A held slot, or one for which no queued item is left, stays as it is. */
  lemma PassSlot(items: seq<Item>, slots: seq<Option<nat>>, slot: nat, free: seq<nat>, chosen: seq<nat>,
                 r: seq<Option<nat>>, starts: seq<TickStart>)
    requires Within(chosen, |items|) && Within(free, slot) && slot < |slots| && |chosen| <= |free|
    requires DealtSlots(items, slots, slot, free, chosen, r, starts)
    ensures slots[slot].Some? ==> DealtSlots(items, slots, slot + 1, free, chosen, r, starts)
    ensures slots[slot].None? ==> DealtSlots(items, slots, slot + 1, free + [slot], chosen, r, starts)
  {
    assert r[slot] == slots[slot];
  }

  lemma DealNone(q: State, now: Millis, slot: nat, free: seq<nat>, queued: seq<nat>, n: nat, before: State,
                 starts: seq<TickStart>)
    requires queued == QueuedFrom(q.items, 0) && slot < |q.slots| && Within(free, slot)
    requires n <= |free| && n <= |queued| && Dealt(q, now, slot, free, queued, n, before, starts)
    requires q.slots[slot].Some? || n == |queued|
    ensures FillSlot(before, now, slot) == (before, [])
    ensures Dealt(q, now, slot + 1, if q.slots[slot].Some? then free else free + [slot], queued, n, before, starts)
  {
    PassSlot(q.items, q.slots, slot, free, queued[..n], before.slots, starts);
    if q.slots[slot].None? {
      NextToDeal(q, now, slot, free, queued, n, before, starts);
    }
  }

  /** A tick starts exactly the first queued items, as many as there are free slots, and hands
      them to the free slots in order. */
  lemma {:induction false} FillDealsInOrder(q: State, now: Millis, upTo: nat)
    requires upTo <= |q.slots|
    ensures var (r, starts) := FillSlots(q, now, upTo);
            var free, queued := FreeSlots(q.slots, upTo), QueuedFrom(q.items, 0);
            Dealt(q, now, upTo, free, queued, Lesser(|free|, |queued|), r, starts)
  {
    if upTo == 0 {
      NothingDealt(q, now);
    } else {
      FillDealsInOrder(q, now, upTo - 1);
      FillNext(q, now, upTo - 1, FillSlots(q, now, upTo - 1).0, FillSlots(q, now, upTo - 1).1);
    }
  }

  lemma NothingDealt(q: State, now: Millis)
    ensures Dealt(q, now, 0, [], QueuedFrom(q.items, 0), 0, q, [])
  {
  }

  lemma FillNext(q: State, now: Millis, slot: nat, before: State, starts: seq<TickStart>)
    requires slot < |q.slots| && FillSlots(q, now, slot) == (before, starts)
    requires var free, queued := FreeSlots(q.slots, slot), QueuedFrom(q.items, 0);
             Dealt(q, now, slot, free, queued, Lesser(|free|, |queued|), before, starts)
    ensures var (r, all) := FillSlots(q, now, slot + 1);
            var free, queued := FreeSlots(q.slots, slot + 1), QueuedFrom(q.items, 0);
            Dealt(q, now, slot + 1, free, queued, Lesser(|free|, |queued|), r, all)
  {
    var free, queued := FreeSlots(q.slots, slot), QueuedFrom(q.items, 0);
    var (r, begun) := FillSlot(before, now, slot);
    assert FillSlots(q, now, slot + 1) == (r, starts + begun);
    if q.slots[slot].None? && |free| < |queued| {
      DealOne(q, now, slot, free, queued, before, starts);
    } else {
      DealNone(q, now, slot, free, queued, Lesser(|free|, |queued|), before, starts);
      assert starts + [] == starts;
    }
  }

  /** After a tick a free slot and a queued item never coexist. */
  lemma WorkConservation(q: State, snapshots: seq<UploadState>, now: Millis)
    requires |q.slots| == |snapshots|
    ensures var r := Tick(q, snapshots, now).0;
            || (forall s | 0 <= s < |r.slots| :: r.slots[s].Some?)
            || (forall i | 0 <= i < |r.items| :: !r.items[i].status.Queued?)
  {
    var mid := ReconcileSlots(q, snapshots, now, |q.slots|);
    FillDealsInOrder(mid, now, |mid.slots|);
    var free, queued := FreeSlots(mid.slots, |mid.slots|), QueuedFrom(mid.items, 0);
    var r := Tick(q, snapshots, now).0;
    if |free| <= |queued| {
      forall s | 0 <= s < |r.slots| ensures r.slots[s].Some? {
        if mid.slots[s].None? {
          var k :| 0 <= k < |free| && free[k] == s;
        }
      }
    } else {
      FirstOfQueued(r.items, 0);
    }
  }

  /** What one tick does to each item: an active one mirrors the worker that holds it, a queued
      one may start, and nothing else changes. */
  lemma TickItem(q: State, snapshots: seq<UploadState>, now: Millis, i: nat)
    requires Inv(q) && |q.slots| == |snapshots| && i < |q.items|
    ensures var item, r := q.items[i], Tick(q, snapshots, now).0.items[i];
            if IsActive(item.status) then
              SlotOf(q.slots, item.id).Some? && r == Reconciled(item, snapshots[SlotOf(q.slots, item.id).value], now)
            else r == item || (item.status.Queued? && r == Started(item, now))
  {
    ReconcileIsPointwise(q, snapshots, now, |q.slots|);
    FillItem(ReconcileSlots(q, snapshots, now, |q.slots|), now, |q.slots|, i);
  }

  lemma {:induction false} FillItem(q: State, now: Millis, upTo: nat, i: nat)
    requires upTo <= |q.slots| && i < |q.items|
    ensures var r := FillSlots(q, now, upTo).0.items[i];
            r == q.items[i] || (q.items[i].status.Queued? && r == Started(q.items[i], now))
  {
    if upTo > 0 {
      FillItem(q, now, upTo - 1, i);
      var before := FillSlots(q, now, upTo - 1).0;
      assert FillSlots(q, now, upTo).0.items == FillSlot(before, now, upTo - 1).0.items;
    }
  }

  // ---------------------------------------------------------------- fairness

  /** How many queued items stand before item `id` in the list. */
  function Ahead(items: seq<Item>, id: nat): nat {
    if items == [] then 0 else
      var last := items[|items| - 1];
      Ahead(items[..|items| - 1], id) + (if last.status.Queued? && last.id < id then 1 else 0)
  }

  lemma {:induction false} AheadAppend(items: seq<Item>, last: Item, id: nat)
    ensures Ahead(items + [last], id) == Ahead(items, id) + (if last.status.Queued? && last.id < id then 1 else 0)
  {
    assert (items + [last])[..|items|] == items;
  }

  /** Pointwise, no item became queued. */
  ghost predicate FewerQueued(items: seq<Item>, r: seq<Item>) {
    && |r| == |items|
    && forall i | 0 <= i < |items| ::
         r[i].id == items[i].id && (r[i].status.Queued? ==> items[i].status.Queued?)
  }

  lemma {:induction false} FewerAhead(items: seq<Item>, r: seq<Item>, id: nat)
    requires FewerQueued(items, r)
    ensures Ahead(r, id) <= Ahead(items, id)
  {
    if items != [] {
      FewerAhead(items[..|items| - 1], r[..|r| - 1], id);
    }
  }

  lemma {:induction false} FilterAhead(keep: Item -> bool, items: seq<Item>, id: nat)
    ensures Ahead(Filter(keep, items), id) <= Ahead(items, id)
  {
    if items != [] {
      var front, last := items[..|items| - 1], items[|items| - 1];
      FilterAhead(keep, front, id);
      AheadAppend(Filter(keep, front), last, id);
      assert Filter(keep, front) + [] == Filter(keep, front);
    }
  }

  lemma {:induction false} UpdateAhead(items: seq<Item>, at: nat, item: Item, id: nat)
    requires at < |items|
    ensures Ahead(items[at := item], id) - Ahead(items, id) ==
            (if item.status.Queued? && item.id < id then 1 else 0)
            - (if items[at].status.Queued? && items[at].id < id then 1 else 0)
  {
    var n := |items| - 1;
    var r := items[at := item];
    if at == n {
      assert r[..n] == items[..n];
    } else {
      assert r[..n] == items[..n][at := item];
      UpdateAhead(items[..n], at, item, id);
    }
  }

  lemma TickFewerQueued(q: State, snapshots: seq<UploadState>, now: Millis)
    requires Inv(q) && |q.slots| == |snapshots|
    ensures FewerQueued(q.items, Tick(q, snapshots, now).0.items)
  {
    forall i | 0 <= i < |q.items|
      ensures var item, r := q.items[i], Tick(q, snapshots, now).0.items[i];
              r.id == item.id && (r.status.Queued? ==> item.status.Queued?)
    {
      TickItem(q, snapshots, now, i);
    }
  }

  /** No operation lets more queued items ahead of an item, except a retry that takes effect
      and brings back an item from further up the list. */
  lemma {:induction false} NobodyJumpsTheQueue(q: State, op: Op, id: nat)
    requires Inv(q) && Applicable(q, op) && id < q.nextId
    ensures Ahead(Apply(q, op).items, id) <= Ahead(q.items, id) <==>
            !(op.RetryItem? && RetryOutcome(q, op.id).Reset? && op.id < id)
  {
    match op
    case Add(file, options) => AheadAppend(q.items, NewItem(q.nextId, file, options), id);
    case AbortItem(other) =>
      var at := Find(q.items, other);
      if at.Some? {
        UpdateAhead(q.items, at.value, q.items[at.value].(status := Aborted), id);
      }
    case AbortAll => FewerAhead(q.items, AbortedAll(q.items), id);
    case RemoveItem(other) => FilterAhead(KeepOthers(other), q.items, id);
    case ClearComplete => FilterAhead(KEEP_INCOMPLETE, q.items, id);
    case ClearFinished => FilterAhead(KEEP_UNFINISHED, q.items, id);
    case RetryItem(other) =>
      if RetryOutcome(q, other).Reset? {
        var at := Find(q.items, other).value;
        UpdateAhead(q.items, at, Retried(q.items[at]), id);
      }
    case SchedulerTick(snapshots, now) =>
      TickFewerQueued(q, snapshots, now);
      FewerAhead(q.items, Tick(q, snapshots, now).0.items, id);
  }

  /** Over any run without retries, the queue ahead of an item only shrinks. */
  lemma {:induction false} QueueAheadShrinks(before: State, ops: seq<Op>, after: State, id: nat)
    requires Inv(before) && Reachable(before, ops, after) && id < before.nextId
    requires forall i | 0 <= i < |ops| :: !ops[i].RetryItem?
    ensures Ahead(after.items, id) <= Ahead(before.items, id)
    decreases ops
  {
    if ops != [] {
      OpKeepsInv(before, ops[0]);
      NobodyJumpsTheQueue(before, ops[0], id);
      QueueAheadShrinks(Apply(before, ops[0]), ops[1..], after, id);
    }
  }
}
