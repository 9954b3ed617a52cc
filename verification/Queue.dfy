/** The upload queue: items, a fixed row of worker slots, and the scheduler tick that moves
    items between them. */
module Queue {
  import opened Wrappers
  import opened UploadTypes

  datatype ItemStatus = Queued | Uploading | Paused | Complete | Error | Aborted

  datatype Item = Item(
    id: nat,
    file: File,
    options: StartOptions,
    status: ItemStatus,
    bytesUploaded: nat,
    error: Option<TusError>,
    uploadUrl: Option<string>,
    startedAt: Option<Millis>,
    pausedAt: Option<Millis>,
    pausedAccumulated: Millis)

  /** The queue's whole state. A slot holds the id of the item its worker was given, which
      may have been removed from the list since. */
  datatype State = State(items: seq<Item>, slots: seq<Option<nat>>, nextId: nat)

  datatype TickStart = TickStart(slot: nat, itemId: nat)

  datatype RetryDecision = Reset | ItemActive | ItemNotFound | WrongStatus

  // ---------------------------------------------------------------- queries

  predicate IsTerminal(s: ItemStatus) {
    s.Complete? || s.Aborted? || s.Error?
  }

  predicate IsActive(s: ItemStatus) {
    s.Uploading? || s.Paused?
  }

  /** The worker is done with whatever it was given. */
  predicate WorkerDone(s: UploadStatus) {
    s.Idle? || s.Complete? || s.Error?
  }

  function Find(items: seq<Item>, id: nat): (r: Option<nat>)
    ensures r.Some? ==> r.value < |items| && items[r.value].id == id
    ensures r.Some? ==> forall j | 0 <= j < r.value :: items[j].id != id
    ensures r.None? ==> forall j | 0 <= j < |items| :: items[j].id != id
  {
    FindFrom(items, id, 0)
  }

  function FindFrom(items: seq<Item>, id: nat, from: nat): (r: Option<nat>)
    requires from <= |items|
    ensures r.Some? ==> from <= r.value < |items| && items[r.value].id == id
    ensures r.Some? ==> forall j | from <= j < r.value :: items[j].id != id
    ensures r.None? ==> forall j | from <= j < |items| :: items[j].id != id
    decreases |items| - from
  {
    if from == |items| then None else if items[from].id == id then Some(from) else FindFrom(items, id, from + 1)
  }

  function FirstQueued(items: seq<Item>, from: nat): (r: Option<nat>)
    requires from <= |items|
    ensures r.Some? ==> from <= r.value < |items| && items[r.value].status.Queued?
    ensures r.Some? ==> forall j | from <= j < r.value :: !items[j].status.Queued?
    ensures r.None? ==> forall j | from <= j < |items| :: !items[j].status.Queued?
    decreases |items| - from
  {
    if from == |items| then None else if items[from].status.Queued? then Some(from) else FirstQueued(items, from + 1)
  }

  function Filter(keep: Item -> bool, items: seq<Item>): seq<Item> {
    if items == [] then [] else
      var last := items[|items| - 1];
      Filter(keep, items[..|items| - 1]) + (if keep(last) then [last] else [])
  }

  function Count(p: Item -> bool, items: seq<Item>): nat {
    |Filter(p, items)|
  }

  // ---------------------------------------------------------------- the scheduler tick

  /** The status an item takes from its worker; a worker back at idle was aborted. */
  function StatusFrom(item: ItemStatus, worker: UploadStatus): ItemStatus {
    match worker
    case Uploading => ItemStatus.Uploading
    case Paused => ItemStatus.Paused
    case Complete => ItemStatus.Complete
    case Error => ItemStatus.Error
    case Idle => if IsTerminal(item) then item else Aborted
  }

  /** The worker was seen uploading again after a pause. */
  predicate Resumes(item: Item, worker: UploadStatus) {
    worker.Uploading? && item.status.Paused? && item.pausedAt.Some?
  }

  /** What one tick copies from a worker onto the item it holds. */
  function Reconciled(item: Item, ws: UploadState, now: Millis): Item {
    item.(
      status := StatusFrom(item.status, ws.status),
      bytesUploaded := ws.bytesUploaded,
      uploadUrl := if ws.uploadUrl.Some? then ws.uploadUrl else item.uploadUrl,
      error := if ws.status.Error? then ws.error else item.error,
      pausedAt :=
        if Resumes(item, ws.status) then None
        else if ws.status.Paused? && !item.status.Paused? && item.pausedAt.None? then Some(now)
        else item.pausedAt,
      pausedAccumulated :=
        if Resumes(item, ws.status) && now - item.pausedAt.value > 0.0
        then item.pausedAccumulated + (now - item.pausedAt.value)
        else item.pausedAccumulated)
  }

  function ReconcileItems(items: seq<Item>, held: Option<nat>, ws: UploadState, now: Millis): (r: seq<Item>)
    ensures |r| == |items|
  {
    var at := if held.Some? then Find(items, held.value) else None;
    if at.Some? then items[at.value := Reconciled(items[at.value], ws, now)] else items
  }

  function ReconcileSlot(q: State, ws: UploadState, now: Millis, slot: nat): State
    requires slot < |q.slots|
  {
    q.(items := ReconcileItems(q.items, q.slots[slot], ws, now),
       slots := if q.slots[slot].Some? && WorkerDone(ws.status) then q.slots[slot := None] else q.slots)
  }

  function ReconcileSlots(q: State, snapshots: seq<UploadState>, now: Millis, upTo: nat): (r: State)
    requires upTo <= |q.slots| == |snapshots|
    ensures |r.slots| == |q.slots| && |r.items| == |q.items| && r.nextId == q.nextId
  {
    if upTo == 0 then q
    else ReconcileSlot(ReconcileSlots(q, snapshots, now, upTo - 1), snapshots[upTo - 1], now, upTo - 1)
  }

  function Started(item: Item, now: Millis): Item {
    item.(status := ItemStatus.Uploading, startedAt := Some(now), pausedAt := None, pausedAccumulated := 0.0)
  }

  function FillSlot(q: State, now: Millis, slot: nat): (State, seq<TickStart>)
    requires slot < |q.slots|
  {
    var next := FirstQueued(q.items, 0);
    if q.slots[slot].Some? || next.None? then (q, []) else
      var item := q.items[next.value];
      (q.(items := q.items[next.value := Started(item, now)], slots := q.slots[slot := Some(item.id)]),
       [TickStart(slot, item.id)])
  }

  function FillSlots(q: State, now: Millis, upTo: nat): (r: (State, seq<TickStart>))
    requires upTo <= |q.slots|
    ensures |r.0.slots| == |q.slots| && |r.0.items| == |q.items| && r.0.nextId == q.nextId
  {
    if upTo == 0 then (q, []) else
      var (before, starts) := FillSlots(q, now, upTo - 1);
      var (after, more) := FillSlot(before, now, upTo - 1);
      (after, starts + more)
  }

  function Tick(q: State, snapshots: seq<UploadState>, now: Millis): (State, seq<TickStart>)
    requires |q.slots| == |snapshots|
  {
    FillSlots(ReconcileSlots(q, snapshots, now, |q.slots|), now, |q.slots|)
  }

  // ---------------------------------------------------------------- the other operations

  function NewItem(id: nat, file: File, options: StartOptions): Item {
    Item(id, file, options, Queued, 0, None, options.existingUrl, None, None, 0.0)
  }

  function Added(q: State, file: File, options: StartOptions): State {
    q.(items := q.items + [NewItem(q.nextId, file, options)], nextId := q.nextId + 1)
  }

  function WithStatus(items: seq<Item>, at: nat, status: ItemStatus): seq<Item>
    requires at < |items|
  {
    items[at := items[at].(status := status)]
  }

  /** `abort_item` on an item no slot holds; for a held one the worker does the rest. */
  function AbortedItem(q: State, id: nat): State {
    var at := Find(q.items, id);
    if Some(id) in q.slots || at.None? || !q.items[at.value].status.Queued? then q
    else q.(items := WithStatus(q.items, at.value, Aborted))
  }

  function AbortedAll(items: seq<Item>): (r: seq<Item>)
    ensures |r| == |items|
    ensures forall i | 0 <= i < |items| ::
      r[i] == if items[i].status.Queued? then items[i].(status := Aborted) else items[i]
  {
    seq(|items|, i requires 0 <= i < |items| =>
      if items[i].status.Queued? then items[i].(status := Aborted) else items[i])
  }

  function Retried(item: Item): Item {
    item.(status := Queued, bytesUploaded := 0, error := None, uploadUrl := None,
          options := item.options.(existingUrl := None),
          startedAt := None, pausedAt := None, pausedAccumulated := 0.0)
  }

  function RetryOutcome(q: State, id: nat): RetryDecision {
    if Some(id) in q.slots then ItemActive else
      match Find(q.items, id)
      case None => ItemNotFound
      case Some(at) => if IsTerminal(q.items[at].status) then Reset else WrongStatus
  }

  function AfterRetry(q: State, id: nat): State {
    if RetryOutcome(q, id).Reset? then
      var at := Find(q.items, id).value;
      q.(items := q.items[at := Retried(q.items[at])])
    else q
  }

  const KEEP_INCOMPLETE: Item -> bool := (i: Item) => !i.status.Complete?
  const KEEP_UNFINISHED: Item -> bool := (i: Item) => !IsTerminal(i.status)

  function KeepOthers(id: nat): Item -> bool {
    (i: Item) => i.id != id
  }

  /** Everything that can happen to the queue. */
  datatype Op =
    | Add(file: File, options: StartOptions)
    | AbortItem(id: nat)
    | AbortAll
    | RemoveItem(id: nat)
    | ClearComplete
    | ClearFinished
    | RetryItem(id: nat)
    | SchedulerTick(snapshots: seq<UploadState>, now: Millis)

  predicate Applicable(q: State, op: Op) {
    op.SchedulerTick? ==> |op.snapshots| == |q.slots|
  }

  function Apply(q: State, op: Op): State
    requires Applicable(q, op)
  {
    match op
    case Add(file, options) => Added(q, file, options)
    case AbortItem(id) => AbortedItem(q, id)
    case AbortAll => q.(items := AbortedAll(q.items))
    case RemoveItem(id) => q.(items := Filter(KeepOthers(id), q.items))
    case ClearComplete => q.(items := Filter(KEEP_INCOMPLETE, q.items))
    case ClearFinished => q.(items := Filter(KEEP_UNFINISHED, q.items))
    case RetryItem(id) => AfterRetry(q, id)
    case SchedulerTick(snapshots, now) => Tick(q, snapshots, now).0
  }
}
