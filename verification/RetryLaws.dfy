/** What `retry_item` does about a stored upload of the same file: nothing. The item starts
    afresh, whatever the store offers. */
module RetryLaws {
  import opened Wrappers
  import opened UploadTypes
  import opened Queue
  import opened Persistence
  import opened Scheduler
  import Origin
  import QueueLaws

  /** Whoever stands in the list under this id would be started without a URL to resume. */
  ghost predicate Afresh(items: seq<Item>, id: nat) {
    forall item | item in items && item.id == id :: item.options.existingUrl.None?
  }

  lemma {:induction false} OpKeepsAfresh(q: State, op: Op, id: nat)
    requires QueueLaws.Inv(q) && Applicable(q, op) && id < q.nextId && Afresh(q.items, id)
    ensures Afresh(Queue.Apply(q, op).items, id)
  {
    match op
    case RemoveItem(other) => QueueLaws.FilterMembers(KeepOthers(other), q.items);
    case ClearComplete => QueueLaws.FilterMembers(KEEP_INCOMPLETE, q.items);
    case ClearFinished => QueueLaws.FilterMembers(KEEP_UNFINISHED, q.items);
    case SchedulerTick(snapshots, now) => TickKeepsAfresh(q, snapshots, now, id);
    case Add(file, options) =>
    case AbortItem(other) =>
    case AbortAll => AbortKeepsAfresh(q.items, id);
    case RetryItem(other) =>
  }

  lemma AbortKeepsAfresh(items: seq<Item>, id: nat)
    requires Afresh(items, id)
    ensures Afresh(AbortedAll(items), id)
  {
    forall item | item in AbortedAll(items) && item.id == id ensures item.options.existingUrl.None? {
      var i :| 0 <= i < |items| && AbortedAll(items)[i] == item;
      assert items[i] in items;
    }
  }

  lemma TickKeepsAfresh(q: State, snapshots: seq<UploadState>, now: Millis, id: nat)
    requires QueueLaws.Inv(q) && |q.slots| == |snapshots| && Afresh(q.items, id)
    ensures Afresh(Tick(q, snapshots, now).0.items, id)
  {
    var r := Tick(q, snapshots, now).0;
    forall item | item in r.items && item.id == id ensures item.options.existingUrl.None? {
      var i :| 0 <= i < |r.items| && r.items[i] == item;
      QueueLaws.TickItem(q, snapshots, now, i);
      assert q.items[i] in q.items;
    }
  }

  lemma {:induction false} RunKeepsAfresh(before: State, ops: seq<Op>, after: State, id: nat)
    requires QueueLaws.Inv(before) && QueueLaws.Reachable(before, ops, after) && id < before.nextId
    requires Afresh(before.items, id)
    ensures Afresh(after.items, id)
    decreases ops
  {
    if ops != [] {
      OpKeepsAfresh(before, ops[0], id);
      QueueLaws.OpKeepsInv(before, ops[0]);
      RunKeepsAfresh(Queue.Apply(before, ops[0]), ops[1..], after, id);
    }
  }

  /** A round sends what was waiting, and `Start`s for items as the list shows them. */
  lemma {:induction false} LaunchedOnlyItems(items: seq<Item>, starts: seq<TickStart>, channels: seq<seq<Command>>,
                                             slot: nat, cmd: Command)
    requires Launchable(items, starts, |channels|) && slot < |channels|
    requires cmd in Launched(items, starts, channels)[slot]
    ensures cmd in channels[slot] || exists item | item in items :: cmd == Start(JobOf(item))
    decreases starts
  {
    if starts != [] {
      var n := |starts| - 1;
      var before := Launched(items, starts[..n], channels);
      if cmd in before[slot] {
        LaunchedOnlyItems(items, starts[..n], channels, slot, cmd);
      } else {
        var at := Find(items, starts[n].itemId).value;
        assert items[at] in items && cmd == Start(JobOf(items[at]));
      }
    }
  }

  /** After an effective retry, in every run and with every store, the `Start` that a round
      sends for the item names no URL to resume. */
  lemma RetriedStartsAfresh(before: State, id: nat, ops: seq<Op>, q: State, snapshots: seq<UploadState>, now: Millis,
                            channels: seq<seq<Command>>, slot: nat, cmd: Command)
    requires QueueLaws.Inv(before) && RetryOutcome(before, id).Reset?
    requires QueueLaws.Reachable(AfterRetry(before, id), ops, q) && |q.slots| == |snapshots| == |channels|
    requires slot < |channels| && cmd.Start? && cmd.job.ticket == id && cmd !in channels[slot]
    ensures var (r, starts) := Tick(q, snapshots, now);
            && Launchable(r.items, starts, |channels|)
            && (cmd in Launched(r.items, starts, channels)[slot] ==> cmd.job.options.existingUrl.None?)
  {
    var reset := AfterRetry(before, id);
    var at := Find(before.items, id).value;
    assert id < before.nextId;
    QueueLaws.OpKeepsInv(before, RetryItem(id));
    assert Afresh(reset.items, id);
    RunKeepsAfresh(reset, ops, q, id);
    QueueLaws.InvAlways(reset, ops, q);
    TickKeepsAfresh(q, snapshots, now, id);
    StartsFitSlots(ReconcileSlots(q, snapshots, now, |q.slots|), now, |q.slots|);
    var (r, starts) := Tick(q, snapshots, now);
    if cmd in Launched(r.items, starts, channels)[slot] {
      LaunchedOnlyItems(r.items, starts, channels, slot, cmd);
    }
  }

  /** A retry gives the item the options that `add` would give its file if and only if `add`
      would find nothing to resume. */
  lemma RetryIgnoresStore(q: State, id: nat, others: seq<Item>, rows: Rows, endpoint: string, now: Millis)
    requires RetryOutcome(q, id).Reset?
    ensures var at := Find(q.items, id).value;
            var item := q.items[at];
            var asked := item.options.(existingUrl := None);
            && AfterRetry(q, id).items[at].options == asked
            && (asked == ChosenOptions(others, rows, endpoint, now, item.file, asked)
                <==> HasActiveFileMatch(others, endpoint, item.file)
                     || GetEntry(rows, endpoint, KeyFor(endpoint, item.file), now).None?)
  {
  }

  /** Such stores exist for every file whose time of modification is finite: an earlier session
      left an upload that `add` would resume and a retry does not. */
  lemma StoreOffersUpload(file: File, now: Millis)
    requires file.modified.Finite?
    ensures exists rows, endpoint :: GetEntry(rows, endpoint, KeyFor(endpoint, file), now).Some?
  {
    var o := Origin.Triple("https", "a", 443);
    var endpoint := Origin.Print(o);
    var url := endpoint + "/u";
    assert Origin.Canonical(o) by {
      assert Origin.Lower("https") == "https" && Origin.Lower("a") == "a";
    }
    Origin.ParsePrint(o, "/u");
    Origin.ParsePrint(o, "");
    assert endpoint + "" == endpoint;
    var key := KeyFor(endpoint, file);
    OfferedRow(ResumableEntry(key, endpoint, file.name, |file.content|, file.modified, url, 0, now), now);
  }

  lemma OfferedRow(entry: ResumableEntry, now: Millis)
    requires entry.lastModified.Finite? && Fresh(entry, now) && Origin.OriginMatches(entry.endpoint, entry.uploadUrl)
    ensures exists rows: Rows :: GetEntry(rows, entry.endpoint, entry.matchKey, now).Some?
  {
    var before: Rows := map[];
    var rows := before[StorageKey(entry.matchKey) := ToJson(entry)];
    PutIsOneUpdate(before, entry, now, rows, entry.endpoint, entry.matchKey);
  }
}
