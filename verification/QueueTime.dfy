/** Pause accounting: how much of an item's time in a slot counts as uploading. */
module QueueTime {
  import opened Wrappers
  import opened UploadTypes
  import opened Queue
  import opened QueueLaws

  /** The time base of an item's average speed. */
  function Elapsed(item: Item, now: Millis): Option<Millis> {
    if item.startedAt.None? then None else
      var pause := if item.pausedAt.Some? && now - item.pausedAt.value > 0.0 then now - item.pausedAt.value else 0.0;
      Some(now - item.startedAt.value - item.pausedAccumulated - pause)
  }

  /** Average speed in bytes per second, unless too little time has passed. */
  function Speed(item: Item, now: Millis): Option<real> {
    if Elapsed(item, now).None? || Elapsed(item, now).value < 250.0 then None
    else Some(item.bytesUploaded as real * 1000.0 / Elapsed(item, now).value)
  }

  /** The timestamps of an active item are in order. */
  ghost predicate TimeInv(item: Item, now: Millis) {
    IsActive(item.status) ==>
      && item.startedAt.Some?
      && (item.status.Uploading? ==> item.pausedAt.None? && item.startedAt.value + item.pausedAccumulated <= now)
      && (item.status.Paused? ==>
            item.pausedAt.Some? && item.startedAt.value + item.pausedAccumulated <= item.pausedAt.value <= now)
  }

  /** Every item keeps its timestamps in order, and no item that waits has any. */
  ghost predicate TimesInv(q: State, now: Millis) {
    forall i | 0 <= i < |q.items| :: TimeInv(q.items[i], now)
  }

  /** Between two ticks an item seen uploading gains exactly the time that passed, and an item
      seen paused gains nothing, whatever the second tick sees. */
  lemma ReconciledTime(item: Item, ws: UploadState, before: Millis, now: Millis)
    requires TimeInv(item, before) && before <= now && IsActive(item.status)
    ensures TimeInv(Reconciled(item, ws, now), now)
    ensures Elapsed(item, before).Some? && Elapsed(item, before).value >= 0.0
    ensures IsActive(StatusFrom(item.status, ws.status)) ==>
      Elapsed(Reconciled(item, ws, now), now) ==
      Some(Elapsed(item, before).value + (if item.status.Uploading? then now - before else 0.0))
  {
  }

  lemma TickTimes(q: State, snapshots: seq<UploadState>, before: Millis, now: Millis)
    requires Inv(q) && |q.slots| == |snapshots| && TimesInv(q, before) && before <= now
    ensures TimesInv(Tick(q, snapshots, now).0, now)
  {
    forall i | 0 <= i < |q.items| ensures TimeInv(Tick(q, snapshots, now).0.items[i], now) {
      TickItem(q, snapshots, now, i);
      if IsActive(q.items[i].status) {
        ReconciledTime(q.items[i], snapshots[SlotOf(q.slots, q.items[i].id).value], before, now);
      }
    }
  }

  /** The clock after an operation; only ticks read it. */
  function ClockAfter(op: Op, clock: Millis): Millis {
    if op.SchedulerTick? then op.now else clock
  }

  /** Operations keep the timestamps in order as long as the clock does not go back. */
  lemma {:induction false} OpTimes(q: State, op: Op, clock: Millis)
    requires Inv(q) && Applicable(q, op) && TimesInv(q, clock) && clock <= ClockAfter(op, clock)
    ensures TimesInv(Apply(q, op), ClockAfter(op, clock))
  {
    match op
    case SchedulerTick(snapshots, now) => TickTimes(q, snapshots, clock, now);
    case RemoveItem(id) => FilterTimes(q, KeepOthers(id), clock);
    case ClearComplete => FilterTimes(q, KEEP_INCOMPLETE, clock);
    case ClearFinished => FilterTimes(q, KEEP_UNFINISHED, clock);
    case _ =>
  }

  lemma FilterTimes(q: State, keep: Item -> bool, clock: Millis)
    requires TimesInv(q, clock)
    ensures TimesInv(q.(items := Filter(keep, q.items)), clock)
  {
    FilterMembers(keep, q.items);
    var kept := Filter(keep, q.items);
    forall i | 0 <= i < |kept| ensures TimeInv(kept[i], clock) {
      assert kept[i] in q.items;
    }
  }

  /** The time base of an item that a tick has just started is zero. */
  lemma StartedAtZero(q: State, snapshots: seq<UploadState>, now: Millis, i: nat)
    requires Inv(q) && |q.slots| == |snapshots| && i < |q.items| && q.items[i].status.Queued?
    requires IsActive(Tick(q, snapshots, now).0.items[i].status)
    ensures Elapsed(Tick(q, snapshots, now).0.items[i], now) == Some(0.0)
  {
    TickItem(q, snapshots, now, i);
  }

  // ---------------------------------------------------------------- over a whole run

  /** The item is in the list and active. */
  ghost predicate ActiveAs(q: State, item: Item) {
    item in q.items && IsActive(item.status)
  }

  /** What one operation does to an active item that stays active. */
  ghost predicate Follows(op: Op, clock: Millis, before: Item, after: Item) {
    if op.SchedulerTick? then
      Elapsed(before, clock).Some? &&
      Elapsed(after, op.now) ==
      Some(Elapsed(before, clock).value + (if before.status.Uploading? then op.now - clock else 0.0))
    else after == before
  }

  lemma TickFollows(q: State, snapshots: seq<UploadState>, clock: Millis, now: Millis, before: Item, after: Item)
    requires Inv(q) && |q.slots| == |snapshots| && TimesInv(q, clock) && clock <= now
    requires ActiveAs(q, before) && ActiveAs(Tick(q, snapshots, now).0, after) && after.id == before.id
    ensures Follows(SchedulerTick(snapshots, now), clock, before, after)
  {
    var r := Tick(q, snapshots, now).0;
    var i :| 0 <= i < |q.items| && q.items[i] == before;
    var j :| 0 <= j < |r.items| && r.items[j] == after;
    TickItem(q, snapshots, now, i);
    TickItem(q, snapshots, now, j);
    assert q.items[j].id == before.id;
    ReconciledTime(before, snapshots[SlotOf(q.slots, before.id).value], clock, now);
  }

  lemma {:induction false} OpFollows(q: State, op: Op, clock: Millis, before: Item, after: Item)
    requires Inv(q) && Applicable(q, op) && TimesInv(q, clock) && clock <= ClockAfter(op, clock)
    requires ActiveAs(q, before) && ActiveAs(Apply(q, op), after) && after.id == before.id
    ensures Follows(op, clock, before, after)
  {
    var i :| 0 <= i < |q.items| && q.items[i] == before;
    match op
    case SchedulerTick(snapshots, now) => TickFollows(q, snapshots, clock, now, before, after);
    case RemoveItem(id) => FilterMembers(KeepOthers(id), q.items);
    case ClearComplete => FilterMembers(KEEP_INCOMPLETE, q.items);
    case ClearFinished => FilterMembers(KEEP_UNFINISHED, q.items);
    case Add(file, options) =>
    case AbortItem(id) =>
    case AbortAll =>
    case RetryItem(id) =>
  }

  /** A run during which one item stays active; `seen` is the item before each operation and
      at the end. */
  ghost predicate ActiveRun(q: State, ops: seq<Op>, clock: Millis, seen: seq<Item>, id: nat)
    decreases ops
  {
    && |seen| == |ops| + 1 && ActiveAs(q, seen[0]) && seen[0].id == id
    && (ops != [] ==>
          && Applicable(q, ops[0]) && clock <= ClockAfter(ops[0], clock)
          && ActiveRun(Apply(q, ops[0]), ops[1..], ClockAfter(ops[0], clock), seen[1..], id))
  }

  function LastClock(ops: seq<Op>, clock: Millis): Millis
    decreases ops
  {
    if ops == [] then clock else LastClock(ops[1..], ClockAfter(ops[0], clock))
  }

  /** The time between ticks that began with the item seen uploading. */
  function UploadingTime(ops: seq<Op>, clock: Millis, seen: seq<Item>): Millis
    requires |seen| == |ops| + 1
    decreases ops
  {
    if ops == [] then 0.0 else
      (if ops[0].SchedulerTick? && seen[0].status.Uploading? then ops[0].now - clock else 0.0)
      + UploadingTime(ops[1..], ClockAfter(ops[0], clock), seen[1..])
  }

  /** Conservation: over any run with a clock that never goes back, the time base of an item's
      speed is what it was plus exactly the observed uploading time; observed pauses count for
      nothing. */
  lemma {:induction false} PauseTimeIsConserved(q: State, ops: seq<Op>, clock: Millis, seen: seq<Item>, id: nat)
    requires Inv(q) && TimesInv(q, clock) && ActiveRun(q, ops, clock, seen, id)
    ensures Elapsed(seen[0], clock).Some? && Elapsed(seen[0], clock).value >= 0.0
    ensures Elapsed(seen[|ops|], LastClock(ops, clock)) ==
            Some(Elapsed(seen[0], clock).value + UploadingTime(ops, clock, seen))
    decreases ops
  {
    var i :| 0 <= i < |q.items| && q.items[i] == seen[0];
    assert TimeInv(seen[0], clock);
    if ops != [] {
      var next, later := Apply(q, ops[0]), ClockAfter(ops[0], clock);
      OpKeepsInv(q, ops[0]);
      OpTimes(q, ops[0], clock);
      assert seen[1..][0] == seen[1];
      OpFollows(q, ops[0], clock, seen[0], seen[1]);
      PauseTimeIsConserved(next, ops[1..], later, seen[1..], id);
      assert seen[1..][|ops| - 1] == seen[|ops|];
    }
  }

  /** The speed shown after such a run divides the bytes by exactly that time, and is withheld
      until a quarter of a second of it has passed. */
  lemma SpeedCountsUploadingTime(q: State, ops: seq<Op>, clock: Millis, seen: seq<Item>, id: nat)
    requires Inv(q) && TimesInv(q, clock) && ActiveRun(q, ops, clock, seen, id)
    ensures var spent := Elapsed(seen[0], clock).value + UploadingTime(ops, clock, seen);
            Speed(seen[|ops|], LastClock(ops, clock)) ==
            if spent < 250.0 then None else Some(seen[|ops|].bytesUploaded as real * 1000.0 / spent)
  {
    PauseTimeIsConserved(q, ops, clock, seen, id);
  }
}
