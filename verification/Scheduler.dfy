/** The queue as the browser holds it: the item list, the slot assignments, the workers' state
    signals and command channels, and the resume store. */
module Scheduler {
  import opened Wrappers
  import opened UploadTypes
  import opened Queue
  import opened Persistence
  import RunMonitor

  /** What a worker is told when it is given an item. */
  function JobOf(item: Item): Job {
    Job(item.file, item.options, item.id)
  }

  function Send(channels: seq<seq<Command>>, slot: nat, cmd: Command): (r: seq<seq<Command>>)
    requires slot < |channels|
    ensures |r| == |channels|
    ensures forall s | 0 <= s < |r| :: r[s] == if s == slot then channels[s] + [cmd] else channels[s]
  {
    channels[slot := channels[slot] + [cmd]]
  }

  function SendAll(channels: seq<seq<Command>>, cmd: Command): (r: seq<seq<Command>>)
    ensures |r| == |channels|
    ensures forall s | 0 <= s < |r| :: r[s] == channels[s] + [cmd]
  {
    seq(|channels|, s requires 0 <= s < |channels| => channels[s] + [cmd])
  }

  predicate Launchable(items: seq<Item>, starts: seq<TickStart>, workers: nat) {
    forall k | 0 <= k < |starts| :: starts[k].slot < workers
  }

  /** The command channels after each started item has been handed to its worker. */
  function Launched(items: seq<Item>, starts: seq<TickStart>, channels: seq<seq<Command>>): (r: seq<seq<Command>>)
    requires Launchable(items, starts, |channels|)
    ensures |r| == |channels|
    decreases starts
  {
    if starts == [] then channels else
      var n := |starts| - 1;
      var before := Launched(items, starts[..n], channels);
      match Find(items, starts[n].itemId)
      case Some(at) => Send(before, starts[n].slot, Start(JobOf(items[at])))
      case None => before
  }

  /** The signals after the same starts: `start` shows Uploading at once. */
  function Stamped(items: seq<Item>, starts: seq<TickStart>, signals: seq<UploadState>): (r: seq<UploadState>)
    requires Launchable(items, starts, |signals|)
    ensures |r| == |signals|
    decreases starts
  {
    if starts == [] then signals else
      var n := |starts| - 1;
      var before := Stamped(items, starts[..n], signals);
      if Find(items, starts[n].itemId).Some? then before[starts[n].slot := RunMonitor.STAMPED] else before
  }

  lemma {:induction false} StartsFitSlots(q: State, now: Millis, upTo: nat)
    requires upTo <= |q.slots|
    ensures Launchable(q.items, FillSlots(q, now, upTo).1, |q.slots|)
  {
    if upTo > 0 {
      StartsFitSlots(q, now, upTo - 1);
      var (before, starts) := FillSlots(q, now, upTo - 1);
      var (after, more) := FillSlot(before, now, upTo - 1);
      assert FillSlots(q, now, upTo).1 == starts + more;
    }
  }

  // ---------------------------------------------------------------- files and stored entries

  predicate SameKey(endpoint: string, a: File, b: File) {
    KeyFor(endpoint, a) == KeyFor(endpoint, b)
  }

  predicate HasActiveFileMatch(items: seq<Item>, endpoint: string, file: File) {
    exists i | 0 <= i < |items| :: !IsTerminal(items[i].status) && SameKey(endpoint, items[i].file, file)
  }

  /** The options a new item gets: it resumes a stored upload unless the caller chose a URL or
      an unfinished item already stands for the same file. */
  function ChosenOptions(items: seq<Item>, rows: Rows, endpoint: string, now: Millis, file: File,
                         options: StartOptions): StartOptions {
    if options.existingUrl.Some? || HasActiveFileMatch(items, endpoint, file) then options else
      match GetEntry(rows, endpoint, KeyFor(endpoint, file), now)
      case Some(entry) => options.(existingUrl := Some(entry.uploadUrl))
      case None => options
  }

  /** What `add` makes of its options: a URL the caller gave stands, and so do all other options;
      otherwise the item resumes what is stored for its file, unless an unfinished item stands for
      the same file. */
  lemma AddChoosesUrl(items: seq<Item>, rows: Rows, endpoint: string, now: Millis, file: File, options: StartOptions)
    ensures var r, stored := ChosenOptions(items, rows, endpoint, now, file, options),
                             GetEntry(rows, endpoint, KeyFor(endpoint, file), now);
            && r.specificHeaders == options.specificHeaders
            && r.existingUrl == if options.existingUrl.Some? then options.existingUrl
                                else if stored.None? || HasActiveFileMatch(items, endpoint, file) then None
                                else Some(stored.value.uploadUrl)
  {
  }

  /** Such an item is one that waits, uploads or is paused and has the same key. */
  lemma ActiveMatchIs(items: seq<Item>, endpoint: string, file: File)
    ensures HasActiveFileMatch(items, endpoint, file) <==>
            exists item | item in items ::
              (item.status.Queued? || item.status.Uploading? || item.status.Paused?)
              && KeyFor(endpoint, item.file) == KeyFor(endpoint, file)
  {
    if HasActiveFileMatch(items, endpoint, file) {
      var i :| 0 <= i < |items| && !IsTerminal(items[i].status) && SameKey(endpoint, items[i].file, file);
      assert items[i] in items;
    }
  }

  /** The row an item is stored in. */
  function RowKey(endpoint: string): Item -> string {
    (item: Item) => StorageKey(KeyFor(endpoint, item.file))
  }

  function RowsLess(rows: Rows, rowKey: Item -> string, drop: Item -> bool, items: seq<Item>): Rows {
    if items == [] then rows else
      var last := items[|items| - 1];
      var front := RowsLess(rows, rowKey, drop, items[..|items| - 1]);
      if drop(last) then front - {rowKey(last)} else front
  }

  /** The store without the rows of the items that `drop` selects. */
  function RowsWithout(rows: Rows, endpoint: string, drop: Item -> bool, items: seq<Item>): Rows {
    RowsLess(rows, RowKey(endpoint), drop, items)
  }

  lemma RowsStep(rows: Rows, endpoint: string, drop: Item -> bool, items: seq<Item>, i: nat)
    requires i < |items|
    ensures var front := RowsWithout(rows, endpoint, drop, items[..i]);
            RowsWithout(rows, endpoint, drop, items[..i + 1]) ==
            if drop(items[i]) then front - {RowKey(endpoint)(items[i])} else front
  {
    assert items[..i + 1][..i] == items[..i];
  }

  /** Some item that `drop` selects is stored under `key`. */
  ghost predicate Drops(rowKey: Item -> string, drop: Item -> bool, items: seq<Item>, key: string) {
    exists item | item in items :: drop(item) && rowKey(item) == key
  }

  /** Exactly the rows of the selected items are gone, and no other row has changed. */
  lemma {:induction false} RowsLessIs(rows: Rows, rowKey: Item -> string, drop: Item -> bool, items: seq<Item>)
    ensures var r := RowsLess(rows, rowKey, drop, items);
            && (forall key :: key in r <==> key in rows && !Drops(rowKey, drop, items, key))
            && (forall key | key in r :: r[key] == rows[key])
  {
    if items != [] {
      var n := |items| - 1;
      RowsLessIs(rows, rowKey, drop, items[..n]);
      assert items == items[..n] + [items[n]];
      assert forall item :: item in items <==> item in items[..n] || item == items[n];
    }
  }

  lemma AnswerFromRow(a: Rows, b: Rows, endpoint: string, matchKey: string, now: Millis)
    requires StorageKey(matchKey) in a ==>
               StorageKey(matchKey) in b && a[StorageKey(matchKey)] == b[StorageKey(matchKey)]
    ensures StorageKey(matchKey) !in a ==> GetEntry(a, endpoint, matchKey, now) == None
    ensures (StorageKey(matchKey) in b ==> StorageKey(matchKey) in a) ==>
              GetEntry(a, endpoint, matchKey, now) == GetEntry(b, endpoint, matchKey, now)
  {
  }

  /** Once an item was aborted while queued, or cleared as finished, adding its file again does
      not attach the upload it was resuming; the files of all other rows resume as before. */
  lemma DroppedFilesStartFresh(rows: Rows, endpoint: string, drop: Item -> bool, items: seq<Item>, file: File,
                               now: Millis)
    ensures var key, r := KeyFor(endpoint, file), RowsWithout(rows, endpoint, drop, items);
            GetEntry(r, endpoint, key, now) ==
            if Drops(RowKey(endpoint), drop, items, StorageKey(key)) then None else GetEntry(rows, endpoint, key, now)
  {
    RowsLessIs(rows, RowKey(endpoint), drop, items);
    AnswerFromRow(RowsWithout(rows, endpoint, drop, items), rows, endpoint, KeyFor(endpoint, file), now);
  }

  const IS_QUEUED: Item -> bool := (i: Item) => i.status.Queued?
  const IS_FINISHED: Item -> bool := (i: Item) => IsTerminal(i.status)

  /** `abort_all` removes the rows of the queued items, `clear_finished` those of the complete,
      failed and aborted ones, and neither any other row. */
  lemma SweptRowsAre(rows: Rows, endpoint: string, items: seq<Item>, key: string)
    ensures key in RowsWithout(rows, endpoint, IS_QUEUED, items) <==>
            key in rows && !exists item | item in items ::
                              item.status.Queued? && "dioxus-tus:v1:" + KeyFor(endpoint, item.file) == key
    ensures key in RowsWithout(rows, endpoint, IS_FINISHED, items) <==>
            key in rows && !exists item | item in items ::
                              (item.status.Complete? || item.status.Error? || item.status.Aborted?)
                              && "dioxus-tus:v1:" + KeyFor(endpoint, item.file) == key
  {
    RowsLessIs(rows, RowKey(endpoint), IS_QUEUED, items);
    RowsLessIs(rows, RowKey(endpoint), IS_FINISHED, items);
  }

  /** The first `n` items of the sweep that `abort_all` makes. */
  function AbortedUpTo(items: seq<Item>, n: nat): (r: seq<Item>)
    requires n <= |items|
    ensures |r| == |items|
  {
    AbortedAll(items[..n]) + items[n..]
  }

  lemma AbortStep(items: seq<Item>, n: nat)
    requires n < |items|
    ensures AbortedUpTo(items, n)[n] == items[n]
    ensures AbortedUpTo(items, n + 1) ==
            if items[n].status.Queued? then WithStatus(AbortedUpTo(items, n), n, Aborted) else AbortedUpTo(items, n)
  {
    var before, after := AbortedUpTo(items, n), AbortedUpTo(items, n + 1);
    forall j | 0 <= j < |items| && j != n ensures after[j] == before[j] {
    }
  }

  // ---------------------------------------------------------------- the queue object

  class TusQueue {
    const endpoint: string
    const storage: Storage
    var items: seq<Item>
    var slots: seq<Option<nat>>
    var nextId: nat
    var channels: seq<seq<Command>>
    var signals: seq<UploadState>

    ghost predicate Valid()
      reads this, storage
    {
      |channels| == |signals| == |slots| && storage.Valid()
    }

    function S(): State
      reads this
    {
      State(items, slots, nextId)
    }

    constructor (endpoint: string, storage: Storage, workers: nat)
      requires storage.Valid()
      ensures Valid() && S() == State([], seq(workers, _ => None), 0)
      ensures this.endpoint == endpoint && this.storage == storage
    {
      this.endpoint, this.storage := endpoint, storage;
      items, slots, nextId := [], seq(workers, _ => None), 0;
      channels := seq(workers, _ => []);
      signals := seq(workers, _ => RunMonitor.INITIAL.signal);
    }

    method SlotFor(id: nat) returns (slot: Option<nat>)
      ensures slot.Some? ==> slot.value < |slots| && slots[slot.value] == Some(id)
      ensures slot.None? ==> Some(id) !in slots
    {
      for s := 0 to |slots|
        invariant Some(id) !in slots[..s]
      {
        if slots[s] == Some(id) {
          return Some(s);
        }
      }
      assert slots[..|slots|] == slots;
      slot := None;
    }

    method Add(file: File, options: StartOptions, now: Millis) returns (id: nat)
      requires Valid()
      modifies this`items, this`nextId
      ensures Valid() && id == old(nextId)
      ensures S() == Added(old(S()), file, ChosenOptions(old(items), storage.rows, endpoint, now, file, options))
    {
      var chosen := options;
      if options.existingUrl.None? && !HasActiveFileMatch(items, endpoint, file) {
        var entry := storage.Get(endpoint, KeyFor(endpoint, file), now);
        if entry.Some? {
          chosen := options.(existingUrl := Some(entry.value.uploadUrl));
        }
      }
      id := nextId;
      nextId := nextId + 1;
      items := items + [NewItem(id, file, chosen)];
    }

    method PauseAll()
      requires Valid()
      modifies this`channels
      ensures Valid() && channels == SendAll(old(channels), Pause)
    {
      channels := SendAll(channels, Pause);
    }

    method ResumeAll()
      requires Valid()
      modifies this`channels
      ensures Valid() && channels == SendAll(old(channels), Resume)
    {
      channels := SendAll(channels, Resume);
    }

    /** A waiting item is aborted and loses its stored entry. */
    method AbortIfQueued(i: nat)
      requires Valid() && i < |items|
      modifies this`items, storage`rows
      ensures Valid()
      ensures items == if old(items)[i].status.Queued? then WithStatus(old(items), i, Aborted) else old(items)
      ensures storage.rows ==
              if IS_QUEUED(old(items)[i]) then old(storage.rows) - {RowKey(endpoint)(old(items)[i])}
              else old(storage.rows)
    {
      if items[i].status.Queued? {
        storage.Remove(KeyFor(endpoint, items[i].file));
        items := WithStatus(items, i, Aborted);
      }
    }

    /** Every waiting item is aborted and loses its stored entry. */
    method ApplyAbortAll()
      requires Valid()
      modifies this`items, storage`rows
      ensures Valid() && items == AbortedAll(old(items))
      ensures storage.rows == RowsWithout(old(storage.rows), endpoint, IS_QUEUED, old(items))
    {
      ghost var was, rows := items, storage.rows;
      assert AbortedUpTo(was, 0) == was;
      for i := 0 to |items|
        invariant Valid() && items == AbortedUpTo(was, i)
        invariant storage.rows == RowsWithout(rows, endpoint, IS_QUEUED, was[..i])
      {
        RowsStep(rows, endpoint, IS_QUEUED, was, i);
        AbortStep(was, i);
        AbortIfQueued(i);
      }
      assert was[..|was|] == was;
      assert AbortedUpTo(was, |was|) == AbortedAll(was);
    }

    /** Aborts every worker and every waiting item. */
    method AbortAll()
      requires Valid()
      modifies this`items, this`channels, storage`rows
      ensures Valid() && S() == old(S()).(items := AbortedAll(old(items)))
      ensures channels == SendAll(old(channels), Abort)
      ensures storage.rows == RowsWithout(old(storage.rows), endpoint, IS_QUEUED, old(items))
    {
      channels := SendAll(channels, Abort);
      ApplyAbortAll();
    }

    method AbortItem(id: nat)
      requires Valid()
      modifies this`items, this`channels, storage`rows
      ensures Valid() && S() == AbortedItem(old(S()), id)
      ensures if Some(id) in slots
              then exists s | 0 <= s < |slots| :: slots[s] == Some(id) && channels == Send(old(channels), s, Abort)
              else channels == old(channels)
      ensures storage.rows ==
              if S() == old(S()) then old(storage.rows)
              else old(storage.rows) - {StorageKey(KeyFor(endpoint, old(items)[Find(old(items), id).value].file))}
    {
      var slot := SlotFor(id);
      if slot.Some? {
        channels := Send(channels, slot.value, Abort);
        return;
      }
      var at := Find(items, id);
      if at.Some? && items[at.value].status.Queued? {
        storage.Remove(KeyFor(endpoint, items[at.value].file));
        items := WithStatus(items, at.value, Aborted);
        assert items[at.value] != old(items)[at.value];
      }
    }

    /** Keeps the items that `keep` selects. */
    method Retain(keep: Item -> bool)
      modifies this`items
      ensures items == Filter(keep, old(items))
    {
      var kept := [];
      for i := 0 to |items|
        invariant items == old(items) && kept == Filter(keep, items[..i])
      {
        assert items[..i + 1][..i] == items[..i];
        if keep(items[i]) {
          kept := kept + [items[i]];
        }
      }
      assert items[..|items|] == items;
      items := kept;
    }

    method ClearComplete()
      requires Valid()
      modifies this`items
      ensures Valid() && S() == old(S()).(items := Filter(KEEP_INCOMPLETE, old(items)))
    {
      Retain(KEEP_INCOMPLETE);
    }

    method ClearFinished()
      requires Valid()
      modifies this`items, storage`rows
      ensures Valid() && S() == old(S()).(items := Filter(KEEP_UNFINISHED, old(items)))
      ensures storage.rows == RowsWithout(old(storage.rows), endpoint, IS_FINISHED, old(items))
    {
      for i := 0 to |items|
        invariant Valid() && S() == old(S())
        invariant storage.rows == RowsWithout(old(storage.rows), endpoint, IS_FINISHED, items[..i])
      {
        RowsStep(old(storage.rows), endpoint, IS_FINISHED, items, i);
        if IsTerminal(items[i].status) {
          storage.Remove(KeyFor(endpoint, items[i].file));
        }
      }
      assert items[..|items|] == items;
      Retain(KEEP_UNFINISHED);
    }

    method RemoveItem(id: nat)
      requires Valid()
      modifies this`items, this`channels, storage`rows
      ensures Valid() && S() == old(S()).(items := Filter(KeepOthers(id), old(items)))
      ensures if Some(id) in slots
              then exists s | 0 <= s < |slots| :: slots[s] == Some(id) && channels == Send(old(channels), s, Abort)
              else channels == old(channels)
      ensures storage.rows ==
              match Find(old(items), id)
              case Some(at) => old(storage.rows) - {StorageKey(KeyFor(endpoint, old(items)[at].file))}
              case None => old(storage.rows)
    {
      var slot := SlotFor(id);
      if slot.Some? {
        channels := Send(channels, slot.value, Abort);
      }
      var at := Find(items, id);
      if at.Some? {
        storage.Remove(KeyFor(endpoint, items[at.value].file));
      }
      Retain(KeepOthers(id));
    }

    method RetryItem(id: nat) returns (decision: RetryDecision)
      requires Valid()
      modifies this`items
      ensures Valid() && S() == AfterRetry(old(S()), id)
      ensures decision == RetryOutcome(old(S()), id)
    {
      var slot := SlotFor(id);
      if slot.Some? {
        return ItemActive;
      }
      var at := Find(items, id);
      if at.None? {
        return ItemNotFound;
      }
      if !IsTerminal(items[at.value].status) {
        return WrongStatus;
      }
      items := items[at.value := Retried(items[at.value])];
      decision := Reset;
    }

    // -------------------------------------------------------------- the tick

    /** One scheduler step: copy worker progress, free finished slots, fill free slots. */
    method ReconcileTick(snapshots: seq<UploadState>, now: Millis) returns (starts: seq<TickStart>)
      requires |snapshots| == |slots|
      modifies this`items, this`slots
      ensures (S(), starts) == Tick(old(S()), snapshots, now)
    {
      for slot := 0 to |slots|
        invariant |slots| == |snapshots|
        invariant S() == ReconcileSlots(old(S()), snapshots, now, slot)
      {
        if slots[slot].Some? {
          var at := Find(items, slots[slot].value);
          if at.Some? {
            items := items[at.value := Reconciled(items[at.value], snapshots[slot], now)];
          }
          if WorkerDone(snapshots[slot].status) {
            slots := slots[slot := None];
          }
        }
      }
      ghost var mid := S();
      starts := [];
      for slot := 0 to |slots|
        invariant |slots| == |snapshots|
        invariant (S(), starts) == FillSlots(mid, now, slot)
      {
        var next := FirstQueued(items, 0);
        if slots[slot].None? && next.Some? {
          var id := items[next.value].id;
          items := items[next.value := Started(items[next.value], now)];
          slots := slots[slot := Some(id)];
          starts := starts + [TickStart(slot, id)];
        } else {
          assert starts + [] == starts;
        }
      }
    }

    /** The scheduler's round: a tick over the signals as they are, then every start at once. */
    method RunTick(now: Millis)
      requires Valid()
      modifies this`items, this`slots, this`channels, this`signals
      ensures Valid()
      ensures var (q, starts) := Tick(old(S()), old(signals), now);
              && S() == q && Launchable(q.items, starts, |slots|)
              && channels == Launched(q.items, starts, old(channels))
              && signals == Stamped(q.items, starts, old(signals))
    {
      ghost var mid := ReconcileSlots(S(), signals, now, |slots|);
      StartsFitSlots(mid, now, |slots|);
      var starts := ReconcileTick(signals, now);
      for k := 0 to |starts|
        invariant Valid() && |slots| == |old(slots)|
        invariant (S(), starts) == Tick(old(S()), old(signals), now)
        invariant forall j | 0 <= j < |starts| :: starts[j].slot < |slots|
        invariant channels == Launched(items, starts[..k], old(channels))
        invariant signals == Stamped(items, starts[..k], old(signals))
      {
        assert starts[..k + 1][..k] == starts[..k];
        var at := Find(items, starts[k].itemId);
        if at.Some? {
          signals := signals[starts[k].slot := RunMonitor.STAMPED];
          channels := Send(channels, starts[k].slot, Start(JobOf(items[at.value])));
        }
      }
      assert starts[..|starts|] == starts;
    }
  }
}
