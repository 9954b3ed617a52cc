/** What each operation does to each item, field by field. */
module QueueEffects {
  import opened Wrappers
  import opened UploadTypes
  import opened Queue
  import opened QueueLaws

  /** Complete, failed or aborted. */
  predicate IsOver(s: ItemStatus) {
    s in {ItemStatus.Complete, ItemStatus.Error, Aborted}
  }

  // ---------------------------------------------------------------- the tick

  /** A tick copies onto an item what its worker shows: bytes always, the URL and the error where
      the worker has them to tell, and the status. A worker back at idle was aborted, unless the
      item was over before. */
  lemma TickCopiesWorker(q: State, snapshots: seq<UploadState>, now: Millis, i: nat, slot: nat)
    requires Inv(q) && |q.slots| == |snapshots| && i < |q.items| && slot < |q.slots|
    requires q.slots[slot] == Some(q.items[i].id)
    ensures var item, shown, r := q.items[i], snapshots[slot], Tick(q, snapshots, now).0.items[i];
            && r.bytesUploaded == shown.bytesUploaded
            && r.uploadUrl == (if shown.uploadUrl.Some? then shown.uploadUrl else item.uploadUrl)
            && r.error == (if shown.status.Error? then shown.error else item.error)
            && r.status == (match shown.status
                            case Uploading => ItemStatus.Uploading
                            case Paused => ItemStatus.Paused
                            case Complete => ItemStatus.Complete
                            case Error => ItemStatus.Error
                            case Idle => if IsOver(item.status) then item.status else Aborted)
            && r.id == item.id && r.file == item.file && r.options == item.options && r.startedAt == item.startedAt
  {
    SlotOfIs(q.slots, slot);
    assert Some(q.items[i].id) in q.slots;
    TickItem(q, snapshots, now, i);
  }

  /** A tick notes when a pause begins and adds it to the pauses when it ends. */
  lemma TickTimesPauses(q: State, snapshots: seq<UploadState>, now: Millis, i: nat, slot: nat)
    requires Inv(q) && |q.slots| == |snapshots| && i < |q.items| && slot < |q.slots|
    requires q.slots[slot] == Some(q.items[i].id)
    ensures var item, shown, r := q.items[i], snapshots[slot].status, Tick(q, snapshots, now).0.items[i];
            if item.status.Paused? && shown.Uploading? && item.pausedAt.Some? then
              var pause := now - item.pausedAt.value;
              r.pausedAt == None
              && r.pausedAccumulated == item.pausedAccumulated + (if pause > 0.0 then pause else 0.0)
            else
              && r.pausedAccumulated == item.pausedAccumulated
              && r.pausedAt == if !item.status.Paused? && shown.Paused? && item.pausedAt.None? then Some(now)
                               else item.pausedAt
  {
    SlotOfIs(q.slots, slot);
    assert Some(q.items[i].id) in q.slots;
    TickItem(q, snapshots, now, i);
  }

  /** A slot keeps its item while the worker is uploading or paused. Otherwise, and if it was
      free, it is free afterwards or holds an item that was queued. */
  lemma TickFreesSlots(q: State, snapshots: seq<UploadState>, now: Millis, slot: nat)
    requires Inv(q) && |q.slots| == |snapshots| && slot < |q.slots|
    ensures var shown, r := snapshots[slot].status, Tick(q, snapshots, now).0;
            if q.slots[slot].Some? && (shown.Uploading? || shown.Paused?) then r.slots[slot] == q.slots[slot]
            else r.slots[slot].Some? ==>
                   exists i | 0 <= i < |q.items| :: q.items[i].status.Queued? && r.slots[slot] == Some(q.items[i].id)
  {
    ReconcileIsPointwise(q, snapshots, now, |q.slots|);
    var mid := ReconcileSlots(q, snapshots, now, |q.slots|);
    FillsWithQueued(mid, now, |q.slots|, slot);
    var r := Tick(q, snapshots, now).0;
    if r.slots[slot] != mid.slots[slot] {
      var i :| 0 <= i < |mid.items| && mid.items[i].status.Queued? && r.slots[slot] == Some(mid.items[i].id);
      QueuedBefore(q, snapshots, now, i);
    }
  }

  /** Copying from workers makes no item queued and keeps the ids. */
  lemma QueuedBefore(q: State, snapshots: seq<UploadState>, now: Millis, i: nat)
    requires Inv(q) && |q.slots| == |snapshots| && i < |q.items|
    ensures var mid := ReconcileSlots(q, snapshots, now, |q.slots|);
            mid.items[i].id == q.items[i].id && (mid.items[i].status.Queued? ==> q.items[i].status.Queued?)
  {
    ReconcileIsPointwise(q, snapshots, now, |q.slots|);
  }

  lemma {:induction false} FillsWithQueued(mid: State, now: Millis, upTo: nat, slot: nat)
    requires upTo <= |mid.slots| && slot < |mid.slots|
    ensures var r := FillSlots(mid, now, upTo).0;
            r.slots[slot] == mid.slots[slot]
            || (mid.slots[slot].None?
                && exists i | 0 <= i < |mid.items| ::
                     mid.items[i].status.Queued? && r.slots[slot] == Some(mid.items[i].id))
  {
    if upTo > 0 {
      FillsWithQueued(mid, now, upTo - 1, slot);
      var before := FillSlots(mid, now, upTo - 1).0;
      assert FillSlots(mid, now, upTo).0 == FillSlot(before, now, upTo - 1).0;
      var next := FirstQueued(before.items, 0);
      if next.Some? {
        FillItem(mid, now, upTo - 1, next.value);
        assert mid.items[next.value].status.Queued? && mid.items[next.value].id == before.items[next.value].id;
      }
    }
  }

  /** An item that no slot holds starts afresh when a slot gets it, and otherwise stays as it
      is. */
  lemma TickStartsAfresh(q: State, snapshots: seq<UploadState>, now: Millis, i: nat)
    requires Inv(q) && |q.slots| == |snapshots| && i < |q.items| && Some(q.items[i].id) !in q.slots
    ensures var item, r := q.items[i], Tick(q, snapshots, now).0;
            r.items[i] ==
            if Some(item.id) in r.slots then
              item.(status := ItemStatus.Uploading, startedAt := Some(now), pausedAt := None, pausedAccumulated := 0.0)
            else item
    ensures Some(q.items[i].id) in Tick(q, snapshots, now).0.slots ==> q.items[i].status.Queued?
  {
    TickItem(q, snapshots, now, i);
    OpKeepsInv(q, SchedulerTick(snapshots, now));
  }

  // ---------------------------------------------------------------- the handle's operations

  /** `add` puts a queued item without progress at the end, under the next id. */
  lemma AddAppends(q: State, file: File, options: StartOptions)
    ensures var r := Apply(q, Add(file, options));
            && |r.items| == |q.items| + 1 && r.items[..|q.items|] == q.items
            && r.items[|q.items|] ==
               Item(q.nextId, file, options, Queued, 0, None, options.existingUrl, None, None, 0.0)
            && r.slots == q.slots && r.nextId == q.nextId + 1
  {
  }

  /** `abort_item` marks the item if it is queued, and nothing else. */
  lemma AbortItemMarks(q: State, id: nat, i: nat)
    requires Inv(q) && i < |q.items|
    ensures var r := Apply(q, AbortItem(id));
            && |r.items| == |q.items| && r.slots == q.slots && r.nextId == q.nextId
            && r.items[i] == if q.items[i].id == id && q.items[i].status.Queued? then q.items[i].(status := Aborted)
                             else q.items[i]
  {
    if q.items[i].id == id {
      FindIs(q.items, i);
    }
  }

  /** `abort_all` marks exactly the queued items. */
  lemma AbortAllMarks(q: State, i: nat)
    requires i < |q.items|
    ensures var r := Apply(q, AbortAll);
            && |r.items| == |q.items| && r.slots == q.slots && r.nextId == q.nextId
            && r.items[i] == if q.items[i].status.Queued? then q.items[i].(status := Aborted) else q.items[i]
  {
  }

  /** `remove_item`, `clear_complete` and `clear_finished` drop the item with the id, the complete
      items and the items that are over. The rest keeps its order, and all slots stay. */
  lemma SweepsDrop(q: State, op: Op)
    requires Inv(q) && (op.RemoveItem? || op.ClearComplete? || op.ClearFinished?)
    ensures var r := Apply(q, op);
            && r.slots == q.slots && r.nextId == q.nextId
            && (forall i, j | 0 <= i < j < |r.items| :: r.items[i].id < r.items[j].id)
            && forall item :: item in r.items <==>
                 item in q.items && match op
                                    case RemoveItem(id) => item.id != id
                                    case ClearComplete => !item.status.Complete?
                                    case _ => !IsOver(item.status)
  {
    OpKeepsInv(q, op);
    FilterMembers(if op.RemoveItem? then KeepOthers(op.id)
                  else if op.ClearComplete? then KEEP_INCOMPLETE else KEEP_UNFINISHED, q.items);
  }

  /** `retry_item` resets an item that is over and that no slot holds, and nothing else. */
  lemma RetryResets(q: State, id: nat, i: nat)
    requires Inv(q) && i < |q.items|
    ensures var item, r := q.items[i], Apply(q, RetryItem(id));
            && |r.items| == |q.items| && r.slots == q.slots && r.nextId == q.nextId
            && r.items[i] ==
               if item.id == id && IsOver(item.status) then
                 Item(id, item.file, item.options.(existingUrl := None), Queued, 0, None, None, None, None, 0.0)
               else item
  {
    if q.items[i].id == id {
      FindIs(q.items, i);
    }
  }

  /** Its answer: a held item is active, an unknown id is not found, a queued one is in the wrong
      state, and the others are reset. */
  lemma RetryAnswers(q: State, id: nat)
    requires Inv(q)
    ensures RetryOutcome(q, id) ==
            if Some(id) in q.slots then ItemActive
            else if forall i | 0 <= i < |q.items| :: q.items[i].id != id then ItemNotFound
            else if exists i | 0 <= i < |q.items| :: q.items[i].id == id && q.items[i].status.Queued? then WrongStatus
            else Reset
  {
    if i :| 0 <= i < |q.items| && q.items[i].id == id {
      FindIs(q.items, i);
    }
  }
}
