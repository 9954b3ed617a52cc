/** The queue composed with its workers and their servers. Commands wait in channels, workers
    move on their own (any step the run protocol allows), requests arrive when they like, the
    user interferes at any time, and the scheduler's rounds look only at the workers' signals.
    The question is whether a signal can be blamed on the wrong item. */
module QueueRace {
  import opened Wrappers
  import opened UploadTypes
  import opened RunMonitor
  import opened Queue
  import QueueEffects
  import QueueLaws
  import Scheduler
  import Server

  /** What happened to the worker's latest `Start`: how its run ended, whether an Abort was
      taken since, and what the server held when it was reported complete. */
  datatype Tale = Tale(outcome: Option<Outcome>, aborted: bool, stored: Option<Bytes>)

  const UNTOLD: Tale := Tale(None, false, None)

  /** `servers[i]` is the resource that worker i's URL names; an honest server acknowledges no
      more than it stores. */
  datatype System = System(
    queue: State,
    workers: seq<Monitor>,
    channels: seq<seq<Command>>,
    tales: seq<Tale>,
    servers: seq<Server.Resource>,
    honest: bool)

  /** `named` is the resource that a new URL names. */
  datatype Step =
    | Work(slot: nat, event: Event, named: Server.Resource)
    | Arrive(slot: nat, arrival: Server.Arrival)
    | Send(slot: nat, cmd: Command)
    | Operate(op: Op)
    | Round(now: Millis)

  ghost predicate Sized(s: System) {
    |s.workers| == |s.channels| == |s.tales| == |s.servers| == |s.queue.slots|
  }

  predicate NoStarts(channel: seq<Command>) {
    forall k | 0 <= k < |channel| :: !channel[k].Start?
  }

  /** The workers share one thread with the scheduler: when it runs, they are suspended. */
  ghost predicate Suspended(s: System) {
    forall i | 0 <= i < |s.workers| :: AtAwait(s.workers[i])
  }

  function Signals(workers: seq<Monitor>): (r: seq<UploadState>)
    ensures |r| == |workers| && forall i | 0 <= i < |r| :: r[i] == workers[i].signal
  {
    seq(|workers|, i requires 0 <= i < |workers| => workers[i].signal)
  }

  /** The slot gets an item in this round. */
  ghost predicate Deals(s: System, now: Millis, i: nat)
    requires Sized(s) && i < |s.workers|
  {
    && (s.queue.slots[i].None? || WorkerDone(s.workers[i].signal.status))
    && Tick(s.queue, Signals(s.workers), now).0.slots[i].Some?
  }

  /** The guard that a round needs: no worker that is about to get an item has an Abort unread. */
  ghost predicate Guarded(s: System, now: Millis)
    requires Sized(s)
  {
    forall i | 0 <= i < |s.workers| && Deals(s, now, i) :: Abort !in s.channels[i]
  }

  /** What an honest server lets a worker show. */
  ghost predicate Believable(s: System, i: nat, e: Event, named: Server.Resource)
    requires Sized(s) && i < |s.workers|
  {
    s.honest && e.Wrote? ==>
      && (e.update.Bind? ==>
            Server.Faithful(s.workers[i].run.job.file.content, named) && e.update.bytes <= |named.stored|)
      && (e.update.Progress? ==> e.update.bytes <= |s.servers[i].stored|)
  }

  ghost predicate Possible(config: TusConfig, s: System, step: Step) {
    Sized(s) &&
    match step
    case Work(i, e, named) =>
      && i < |s.workers| && Allowed(config, s.workers[i], e) && !e.Stamped? && !e.HungUp?
      && (e.Took? ==> s.channels[i] != [] && s.channels[i][0] == e.cmd)
      && Believable(s, i, e, named)
    case Arrive(i, _) => i < |s.workers|
    case Send(i, cmd) => i < |s.workers| && !cmd.Start?
    case Operate(op) => !op.SchedulerTick?
    case Round(now) => Suspended(s) && Guarded(s, now)
  }

  function NextTale(t: Tale, e: Event, stored: Bytes): Tale {
    match e
    case Took(cmd) => if cmd.Start? then UNTOLD else if cmd.Abort? then t.(aborted := true) else t
    case Exited(outcome) => t.(outcome := Some(outcome), stored := if outcome.Done? then Some(stored) else t.stored)
    case _ => t
  }

  function NextServer(r: Server.Resource, m: Monitor, e: Event, named: Server.Resource): Server.Resource {
    if e.Wrote? && e.update.Bind? && m.stage.Creating? then named
    else if e.Asked? && e.request.Patch? then
      r.(sent := r.sent + {Server.Patch(e.request.offset, e.request.body)})
    else r
  }

  /** The scheduler's round: tick, then stamp and start every worker that was given an item. */
  ghost function AfterRound(s: System, now: Millis): System
    requires Sized(s)
  {
    var n := |s.queue.slots|;
    Scheduler.StartsFitSlots(ReconcileSlots(s.queue, Signals(s.workers), now, n), now, n);
    var (after, starts) := Tick(s.queue, Signals(s.workers), now);
    var signals := Scheduler.Stamped(after.items, starts, Signals(s.workers));
    s.(queue := after,
       workers := seq(n, i requires 0 <= i < n => s.workers[i].(signal := signals[i])),
       channels := Scheduler.Launched(after.items, starts, s.channels))
  }

  ghost function After(s: System, step: Step): System
    requires Sized(s)
    requires step.Work? || step.Send? || step.Arrive? ==> step.slot < |s.workers|
    requires step.Operate? ==> !step.op.SchedulerTick?
  {
    match step
    case Work(i, e, named) =>
      s.(workers := s.workers[i := Next(s.workers[i], e)],
         channels := if e.Took? && s.channels[i] != [] then s.channels[i := s.channels[i][1..]] else s.channels,
         tales := s.tales[i := NextTale(s.tales[i], e, s.servers[i].stored)],
         servers := s.servers[i := NextServer(s.servers[i], s.workers[i], e, named)])
    case Arrive(i, arrival) => s.(servers := s.servers[i := Server.Arrive(s.servers[i], arrival)])
    case Send(i, cmd) => s.(channels := s.channels[i := s.channels[i] + [cmd]])
    case Operate(op) => s.(queue := Queue.Apply(s.queue, op))
    case Round(now) => AfterRound(s, now)
  }

  // ---------------------------------------------------------------- the invariant

  /** Whoever stands in the list under this id has this job's file. */
  ghost predicate Names(items: seq<Item>, id: nat, job: Job) {
    job.ticket == id && forall j | 0 <= j < |items| && items[j].id == id :: items[j].file == job.file
  }

  /** The item's `Start` waits in the channel, behind nothing that could undo its stamp. */
  ghost predicate Waits(items: seq<Item>, id: nat, channel: seq<Command>)
    decreases channel
  {
    && channel != []
    && if channel[0].Start? then Names(items, id, channel[0].job) && NoStarts(channel[1..])
       else !channel[0].Abort? && Waits(items, id, channel[1..])
  }

  predicate Lively(status: UploadStatus) {
    status.Uploading? || status.Paused?
  }

  /** The item's `Start` was sent and not taken; the signal shows an upload meanwhile. */
  ghost predicate Handed(items: seq<Item>, id: nat, w: Monitor, channel: seq<Command>) {
    && Lively(w.signal.status) && Waits(items, id, channel)
    && (w.stage.Waiting? || (w.stage.Owing? && w.stage.update.SetStatus? && Lively(w.stage.update.status)))
  }

  /** The worker took the item's `Start` and no other since; its signal tells that story. */
  ghost predicate Serving(items: seq<Item>, id: nat, w: Monitor, channel: seq<Command>, t: Tale) {
    && NoStarts(channel)
    && Names(items, id, if w.stage.Starting? then w.stage.job else w.run.job)
    && match w.stage
       case Starting(_) => Lively(w.signal.status) && t.outcome.None?
       case Creating => Lively(w.signal.status) && t.outcome.None? && !w.run.idle
       case Running => Lively(w.signal.status) && t.outcome.None? && !w.run.idle
       case Leaving(outcome) =>
         && t.outcome.None? && !outcome.Restart?
         && (outcome.Done? ==> w.signal.status.Complete? && w.signal.bytesUploaded == w.Size())
         && (outcome.Aborted? ==> t.aborted && (w.run.idle ==> w.signal.status.Idle?))
       case Owing(u) =>
         && t.outcome.Some?
         && ((u.Fail? && t.outcome == Some(Failed(u.error))) || (u == ClearIdle && t.aborted))
       case Waiting => Truthful(w, t)
  }

  /** A worker that is done shows how its latest run really ended. */
  ghost predicate Truthful(w: Monitor, t: Tale) {
    && WorkerDone(w.signal.status) && t.outcome.Some?
    && (w.signal.status.Complete? ==> t.outcome == Some(Done) && w.signal.bytesUploaded == w.Size())
    && (w.signal.status.Error? ==>
          t.outcome.Some? && t.outcome.value.Failed? && w.signal.error == Some(t.outcome.value.error))
    && (w.signal.status.Idle? ==> t.aborted)
  }

  ghost predicate SlotOk(items: seq<Item>, slot: Option<nat>, w: Monitor, channel: seq<Command>, t: Tale) {
    match slot
    case None =>
      NoStarts(channel) && WorkerDone(w.signal.status) && (w.stage.Waiting? || w.stage == Owing(ClearIdle))
    case Some(id) => Handed(items, id, w, channel) || Serving(items, id, w, channel, t)
  }

  /** What the server holds justifies what the worker knows. */
  ghost predicate Delivers(w: Monitor, t: Tale, r: Server.Resource) {
    var content := w.run.job.file.content;
    && (w.stage.Running? ==> Server.Faithful(content, r) && w.run.offset <= |r.stored|)
    && (w.stage == Leaving(Done) ==> Server.Faithful(content, r) && r.stored == content)
    && (t.outcome == Some(Done) ==>
          (w.stage.Waiting? || w.stage.Owing?) && t.stored == Some(content))
  }

  ghost predicate Good(s: System) {
    && Sized(s) && QueueLaws.Inv(s.queue)
    && (forall i | 0 <= i < |s.workers| ::
          SlotOk(s.queue.items, s.queue.slots[i], s.workers[i], s.channels[i], s.tales[i]))
    && (s.honest ==> forall i | 0 <= i < |s.workers| :: Delivers(s.workers[i], s.tales[i], s.servers[i]))
  }

  // ---------------------------------------------------------------- files follow their ids

  /** The list shows the same file under this id as before, or none. */
  ghost predicate SameFile(before: seq<Item>, after: seq<Item>, id: nat) {
    forall j | 0 <= j < |after| && after[j].id == id ::
      exists i | 0 <= i < |before| :: before[i].id == id && before[i].file == after[j].file
  }

  lemma FilterKeepsFile(items: seq<Item>, keep: Item -> bool, id: nat)
    ensures SameFile(items, Filter(keep, items), id)
  {
    QueueLaws.FilterMembers(keep, items);
    var r := Filter(keep, items);
    forall j | 0 <= j < |r| && r[j].id == id
      ensures exists i | 0 <= i < |items| :: items[i].id == id && items[i].file == r[j].file
    {
      assert r[j] in items;
    }
  }

  /** Items that keep their place keep their file. */
  lemma InPlaceKeepsFile(before: seq<Item>, after: seq<Item>, id: nat)
    requires |before| <= |after|
    requires forall j | 0 <= j < |before| :: after[j].id == before[j].id && after[j].file == before[j].file
    requires forall j | |before| <= j < |after| :: after[j].id != id
    ensures SameFile(before, after, id)
  {
    forall j | 0 <= j < |after| && after[j].id == id
      ensures exists i | 0 <= i < |before| :: before[i].id == id && before[i].file == after[j].file
    {
      assert before[j].id == id && before[j].file == after[j].file;
    }
  }

  lemma ApplyKeepsFile(q: State, op: Op, id: nat)
    requires QueueLaws.Inv(q) && Applicable(q, op) && id < q.nextId
    ensures SameFile(q.items, Queue.Apply(q, op).items, id)
  {
    match op
    case RemoveItem(other) => FilterKeepsFile(q.items, KeepOthers(other), id);
    case ClearComplete => FilterKeepsFile(q.items, KEEP_INCOMPLETE, id);
    case ClearFinished => FilterKeepsFile(q.items, KEEP_UNFINISHED, id);
    case SchedulerTick(snapshots, now) =>
      forall j | 0 <= j < |q.items| ensures Queue.Apply(q, op).items[j].id == q.items[j].id
                                         && Queue.Apply(q, op).items[j].file == q.items[j].file
      {
        QueueLaws.TickItem(q, snapshots, now, j);
      }
      InPlaceKeepsFile(q.items, Queue.Apply(q, op).items, id);
    case _ => InPlaceKeepsFile(q.items, Queue.Apply(q, op).items, id);
  }

  lemma NamesStay(before: seq<Item>, after: seq<Item>, id: nat, job: Job)
    requires SameFile(before, after, id) && Names(before, id, job)
    ensures Names(after, id, job)
  {
  }

  lemma {:induction false} WaitsStay(before: seq<Item>, after: seq<Item>, id: nat, channel: seq<Command>)
    requires SameFile(before, after, id) && Waits(before, id, channel)
    ensures Waits(after, id, channel)
    decreases channel
  {
    if channel[0].Start? {
      NamesStay(before, after, id, channel[0].job);
    } else {
      WaitsStay(before, after, id, channel[1..]);
    }
  }

  lemma SlotStays(before: seq<Item>, after: seq<Item>, slot: Option<nat>, w: Monitor, channel: seq<Command>, t: Tale)
    requires slot.Some? ==> SameFile(before, after, slot.value)
    requires SlotOk(before, slot, w, channel, t)
    ensures SlotOk(after, slot, w, channel, t)
  {
    if slot.Some? {
      if Handed(before, slot.value, w, channel) {
        WaitsStay(before, after, slot.value, channel);
      } else {
        NamesStay(before, after, slot.value, if w.stage.Starting? then w.stage.job else w.run.job);
      }
    }
  }

  lemma {:induction false} WaitsAppend(items: seq<Item>, id: nat, channel: seq<Command>, cmd: Command)
    requires Waits(items, id, channel) && !cmd.Start?
    ensures Waits(items, id, channel + [cmd])
    decreases channel
  {
    assert (channel + [cmd])[1..] == channel[1..] + [cmd];
    if !channel[0].Start? {
      WaitsAppend(items, id, channel[1..], cmd);
    }
  }

  lemma {:induction false} WaitsLast(items: seq<Item>, id: nat, channel: seq<Command>, job: Job)
    requires NoStarts(channel) && Abort !in channel && Names(items, id, job)
    ensures Waits(items, id, channel + [Start(job)])
    decreases channel
  {
    if channel == [] {
      assert [Start(job)][1..] == [];
    } else {
      assert (channel + [Start(job)])[1..] == channel[1..] + [Start(job)];
      WaitsLast(items, id, channel[1..], job);
    }
  }

  // ---------------------------------------------------------------- every step keeps it

  lemma TakeOk(items: seq<Item>, slot: Option<nat>, w: Monitor, channel: seq<Command>, t: Tale, stored: Bytes)
    requires SlotOk(items, slot, w, channel, t) && channel != [] && AtAwait(w)
    ensures SlotOk(items, slot, NextTook(w, channel[0]), channel[1..], NextTale(t, Took(channel[0]), stored))
  {
    var cmd := channel[0];
    var next := NextTook(w, cmd);
    assert next.stage == StageTook(w, cmd) && next.signal == w.signal && next.run == w.run;
    if slot.Some? && Handed(items, slot.value, w, channel) {
      if cmd.Start? {
        assert Serving(items, slot.value, next, channel[1..], UNTOLD);
      } else {
        assert Handed(items, slot.value, next, channel[1..]);
      }
    }
  }

  lemma WriteOk(items: seq<Item>, slot: Option<nat>, w: Monitor, channel: seq<Command>, t: Tale, u: Update)
    requires SlotOk(items, slot, w, channel, t) && MayWrite(w, u)
    ensures SlotOk(items, slot, NextWrote(w, u), channel, t)
  {
    assert NextWrote(w, u).run.job == w.run.job;
  }

  lemma OtherOk(config: TusConfig, items: seq<Item>, slot: Option<nat>, w: Monitor, channel: seq<Command>, t: Tale,
                e: Event, stored: Bytes)
    requires SlotOk(items, slot, w, channel, t) && Allowed(config, w, e)
    requires !e.Took? && !e.Wrote? && !e.Stamped? && !e.HungUp?
    ensures SlotOk(items, slot, Next(w, e), channel, NextTale(t, e, stored))
  {
    match e
    case Began(job, key) =>
    case Asked(request) => assert NextAsked(w, request).run == w.run;
    case Clock(now) => assert NextClock(w, now).run == w.run;
    case Stored(entry, at, ok) => assert NextStored(w, entry, at, ok).run == w.run;
    case Cleared =>
    case Denied(error) => assert NextDenied(w, error).run == w.run;
    case Rested(delay) =>
    case Looked =>
    case Forgot =>
    case Exited(outcome) => assert NextExited(w, outcome).run == w.run;
  }

  lemma SendOk(items: seq<Item>, slot: Option<nat>, w: Monitor, channel: seq<Command>, t: Tale, cmd: Command)
    requires SlotOk(items, slot, w, channel, t) && !cmd.Start?
    ensures SlotOk(items, slot, w, channel + [cmd], t)
  {
    if slot.Some? && Handed(items, slot.value, w, channel) {
      WaitsAppend(items, slot.value, channel, cmd);
    }
  }

  lemma WorkDelivers(config: TusConfig, w: Monitor, t: Tale, r: Server.Resource, e: Event, named: Server.Resource)
    requires Delivers(w, t, r) && Allowed(config, w, e) && !e.Took? && !e.Stamped? && !e.HungUp?
    requires e.Wrote? && e.update.Bind? ==>
               Server.Faithful(w.run.job.file.content, named) && e.update.bytes <= |named.stored|
    requires e.Wrote? && e.update.Progress? ==> e.update.bytes <= |r.stored|
    ensures Delivers(Next(w, e), NextTale(t, e, r.stored), NextServer(r, w, e, named))
  {
    match e
    case Wrote(u) => assert NextWrote(w, u).run.job == w.run.job;
    case Asked(request) => assert NextAsked(w, request).run == w.run;
    case Clock(now) => assert NextClock(w, now).run == w.run;
    case Stored(entry, at, ok) => assert NextStored(w, entry, at, ok).run == w.run;
    case Exited(outcome) => assert NextExited(w, outcome).run == w.run;
    case Denied(error) => assert NextDenied(w, error).run == w.run;
    case Rested(delay) =>
    case Looked =>
    case Forgot =>
    case Began(job, key) =>
    case Cleared =>
  }

  lemma TakeDelivers(w: Monitor, t: Tale, r: Server.Resource, cmd: Command)
    requires Delivers(w, t, r) && AtAwait(w)
    ensures Delivers(NextTook(w, cmd), NextTale(t, Took(cmd), r.stored), r)
  {
    assert NextTook(w, cmd).run == w.run && NextTook(w, cmd).stage == StageTook(w, cmd);
  }

  lemma WorkKeepsGood(config: TusConfig, s: System, i: nat, e: Event, named: Server.Resource)
    requires Good(s) && Possible(config, s, Work(i, e, named))
    ensures Good(After(s, Work(i, e, named)))
  {
    var slot, w, channel, t, r := s.queue.slots[i], s.workers[i], s.channels[i], s.tales[i], s.servers[i];
    if e.Took? {
      TakeOk(s.queue.items, slot, w, channel, t, r.stored);
    } else if e.Wrote? {
      WriteOk(s.queue.items, slot, w, channel, t, e.update);
    } else {
      OtherOk(config, s.queue.items, slot, w, channel, t, e, r.stored);
    }
    if s.honest {
      if e.Took? {
        TakeDelivers(w, t, r, e.cmd);
      } else {
        WorkDelivers(config, w, t, r, e, named);
      }
    }
  }

  lemma ArriveKeepsGood(s: System, i: nat, arrival: Server.Arrival)
    requires Good(s) && i < |s.workers|
    ensures Good(After(s, Arrive(i, arrival)))
  {
    var w, r := s.workers[i], s.servers[i];
    if s.honest && (w.stage.Running? || w.stage == Leaving(Done)) {
      Server.ArriveFaithful(w.run.job.file.content, r, arrival);
    }
  }

  // ---------------------------------------------------------------- a round

  /** A worker that looks finished at a round is parked, and what its signal says is the truth
      about the item its slot holds. */
  lemma DoneIsTruthful(s: System, i: nat)
    requires Good(s) && Suspended(s) && i < |s.workers|
    requires s.queue.slots[i].Some? && WorkerDone(s.workers[i].signal.status)
    ensures s.workers[i].stage.Waiting? && NoStarts(s.channels[i])
    ensures s.workers[i].run.job.ticket == s.queue.slots[i].value && Truthful(s.workers[i], s.tales[i])
    ensures Names(s.queue.items, s.queue.slots[i].value, s.workers[i].run.job)
  {
    assert AtAwait(s.workers[i]);
  }

  /** What filling the slots does to slot `i` and its worker: nothing, or it was free and now
      holds an item whose `Start` is the newest command and whose signal says Uploading. */
  ghost predicate Filled(mid: State, r: State, items: seq<Item>, i: nat,
                         channel: seq<Command>, signal: UploadState, channel': seq<Command>, signal': UploadState)
    requires i < |mid.slots| && i < |r.slots|
  {
    || (r.slots[i] == mid.slots[i] && channel' == channel && signal' == signal)
    || (&& mid.slots[i].None? && r.slots[i].Some? && signal' == STAMPED
        && exists at | 0 <= at < |items| ::
             items[at].id == r.slots[i].value && channel' == channel + [Start(Scheduler.JobOf(items[at]))])
  }

  ghost predicate FilledUpTo(mid: State, upTo: nat, r: State, starts: seq<TickStart>, items: seq<Item>,
                             channels: seq<seq<Command>>, signals: seq<UploadState>, i: nat)
    requires upTo <= |mid.slots| == |r.slots| == |channels| == |signals| && i < |mid.slots|
    requires Scheduler.Launchable(items, starts, |channels|)
  {
    var channel, signal := Scheduler.Launched(items, starts, channels)[i], Scheduler.Stamped(items, starts, signals)[i];
    && Filled(mid, r, items, i, channels[i], signals[i], channel, signal)
    && (upTo <= i ==> r.slots[i] == mid.slots[i] && channel == channels[i] && signal == signals[i])
  }

  ghost predicate SameIds(a: seq<Item>, b: seq<Item>) {
    |a| == |b| && forall j | 0 <= j < |a| :: a[j].id == b[j].id
  }

  /** `FilledUpTo` after the first `upTo` slots were offered. */
  ghost predicate FillsAt(mid: State, now: Millis, upTo: nat, items: seq<Item>,
                          channels: seq<seq<Command>>, signals: seq<UploadState>, i: nat)
    requires upTo <= |mid.slots| == |channels| == |signals| && i < |mid.slots|
  {
    var (r, starts) := FillSlots(mid, now, upTo);
    && SameIds(items, r.items)
    && Scheduler.Launchable(items, starts, |channels|)
    && FilledUpTo(mid, upTo, r, starts, items, channels, signals, i)
  }

  ghost predicate FillsTo(mid: State, now: Millis, upTo: nat, items: seq<Item>,
                          channels: seq<seq<Command>>, signals: seq<UploadState>, i: nat)
    requires upTo <= |mid.slots| == |channels| == |signals| && i < |mid.slots|
  {
    forall n: nat {:trigger QueueLaws.Reached(n)} | QueueLaws.Reached(n) && n == upTo ::
      FillsAt(mid, now, n, items, channels, signals, i)
  }

  lemma FillNone(mid: State, now: Millis, items: seq<Item>,
                 channels: seq<seq<Command>>, signals: seq<UploadState>, i: nat)
    requires |mid.slots| == |channels| == |signals| && i < |mid.slots| && SameIds(items, mid.items)
    ensures FillsAt(mid, now, 0, items, channels, signals, i)
  {
    assert FillSlots(mid, now, 0) == (mid, []);
  }

  lemma FillOne(mid: State, now: Millis, slot: nat, items: seq<Item>,
                channels: seq<seq<Command>>, signals: seq<UploadState>, i: nat)
    requires slot < |mid.slots| == |channels| == |signals| && i < |mid.slots|
    requires FillsAt(mid, now, slot, items, channels, signals, i)
    ensures FillsAt(mid, now, slot + 1, items, channels, signals, i)
  {
    var (r, starts) := FillSlots(mid, now, slot);
    var (r', more) := FillSlot(r, now, slot);
    assert FillSlots(mid, now, slot + 1) == (r', starts + more);
    if more == [] {
      assert starts + more == starts;
    } else {
      assert (starts + more)[..|starts|] == starts;
      var at := Find(items, more[0].itemId).value;
      assert items[at].id == more[0].itemId;
    }
  }

  lemma FillNext(mid: State, now: Millis, slot: nat, items: seq<Item>,
                 channels: seq<seq<Command>>, signals: seq<UploadState>, i: nat)
    requires slot < |mid.slots| == |channels| == |signals| && i < |mid.slots|
    requires FillsTo(mid, now, slot, items, channels, signals, i)
    ensures FillsTo(mid, now, slot + 1, items, channels, signals, i)
  {
    assert QueueLaws.Reached(slot);
    FillOne(mid, now, slot, items, channels, signals, i);
  }

  lemma {:induction false} FillAll(mid: State, now: Millis, upTo: nat, items: seq<Item>,
                                   channels: seq<seq<Command>>, signals: seq<UploadState>, i: nat)
    requires upTo <= |mid.slots| == |channels| == |signals| && i < |mid.slots|
    requires SameIds(items, mid.items)
    ensures FillsTo(mid, now, upTo, items, channels, signals, i)
  {
    if upTo == 0 {
      FillNone(mid, now, items, channels, signals, i);
    } else {
      FillAll(mid, now, upTo - 1, items, channels, signals, i);
      FillNext(mid, now, upTo - 1, items, channels, signals, i);
    }
  }

  /** Slot by slot, a round frees the slots of finished workers and hands out new items. */
  lemma RoundSlots(s: System, now: Millis, i: nat)
    requires Sized(s) && QueueLaws.Inv(s.queue) && i < |s.workers|
    ensures Sized(AfterRound(s, now))
    ensures var r := AfterRound(s, now);
            var mid := ReconcileSlots(s.queue, Signals(s.workers), now, |s.queue.slots|);
            && mid.slots[i] == (if s.queue.slots[i].Some? && WorkerDone(s.workers[i].signal.status) then None
                                else s.queue.slots[i])
            && r.workers[i] == s.workers[i].(signal := r.workers[i].signal) && r.tales[i] == s.tales[i]
            && Filled(mid, r.queue, r.queue.items, i, s.channels[i], s.workers[i].signal,
                      r.channels[i], r.workers[i].signal)
  {
    var n := |s.queue.slots|;
    var mid := ReconcileSlots(s.queue, Signals(s.workers), now, n);
    QueueLaws.ReconcileIsPointwise(s.queue, Signals(s.workers), now, n);
    var (after, starts) := Tick(s.queue, Signals(s.workers), now);
    forall j | 0 <= j < |mid.items| ensures after.items[j].id == mid.items[j].id {
      QueueLaws.FillItem(mid, now, n, j);
    }
    FillAll(mid, now, n, after.items, s.channels, Signals(s.workers), i);
    assert QueueLaws.Reached(n);
  }

  /** A round tells a worker that gets an item to start it, with the item's own file and options,
      and shows an upload at once; it tells the other workers nothing. */
  lemma RoundTells(s: System, now: Millis, i: nat)
    requires Good(s) && i < |s.workers|
    ensures Sized(AfterRound(s, now))
    ensures var r := AfterRound(s, now);
            if Deals(s, now, i) then
              exists item | item in r.queue.items ::
                && r.queue.slots[i] == Some(item.id) && item.status == ItemStatus.Uploading
                && r.channels[i] == s.channels[i] + [Start(Job(item.file, item.options, item.id))]
                && r.workers[i] == s.workers[i].(signal := UploadState(UploadStatus.Uploading, 0, None, None, None))
            else r.channels[i] == s.channels[i] && r.workers[i] == s.workers[i]
  {
    RoundSlots(s, now, i);
    var r := AfterRound(s, now);
    if Deals(s, now, i) {
      var at :| 0 <= at < |r.queue.items| && r.queue.items[at].id == r.queue.slots[i].value
                && r.channels[i] == s.channels[i] + [Start(Scheduler.JobOf(r.queue.items[at]))];
      RoundStartsDealt(s, now, i, at);
      assert r.queue.items[at] in r.queue.items;
    }
  }

  /** An item that was dealt shows as uploading. */
  lemma RoundStartsDealt(s: System, now: Millis, i: nat, at: nat)
    requires Good(s) && i < |s.workers| && Deals(s, now, i) && at < |s.queue.items|
    requires Tick(s.queue, Signals(s.workers), now).0.slots[i] ==
             Some(Tick(s.queue, Signals(s.workers), now).0.items[at].id)
    ensures Tick(s.queue, Signals(s.workers), now).0.items[at].status == ItemStatus.Uploading
  {
    var q, r := s.queue, Tick(s.queue, Signals(s.workers), now).0;
    QueueLaws.OpKeepsInv(q, SchedulerTick(Signals(s.workers), now));
    QueueEffects.TickFreesSlots(q, Signals(s.workers), now, i);
    var j :| 0 <= j < |q.items| && q.items[j].status.Queued? && r.slots[i] == Some(q.items[j].id);
    QueueLaws.TickItem(q, Signals(s.workers), now, at);
    QueueLaws.TickItem(q, Signals(s.workers), now, j);
    assert q.items[at].id == q.items[j].id;
    assert Some(r.items[at].id) in r.slots;
  }

  /** A free slot's worker is parked, and no Abort stands before the new item's `Start`. */
  lemma RoundOk(s: System, now: Millis, i: nat)
    requires Good(s) && Suspended(s) && Guarded(s, now) && i < |s.workers|
    ensures var r := AfterRound(s, now);
            SlotOk(r.queue.items, r.queue.slots[i], r.workers[i], r.channels[i], r.tales[i])
  {
    RoundSlots(s, now, i);
    var slot := s.queue.slots[i];
    var mid := ReconcileSlots(s.queue, Signals(s.workers), now, |s.queue.slots|);
    var r := AfterRound(s, now);
    assert AtAwait(s.workers[i]);
    if slot.Some? {
      ApplyKeepsFile(s.queue, SchedulerTick(Signals(s.workers), now), slot.value);
      SlotStays(s.queue.items, r.queue.items, slot, s.workers[i], s.channels[i], s.tales[i]);
    }
    if mid.slots[i].None? {
      if slot.Some? {
        DoneIsTruthful(s, i);
      }
      if r.queue.slots[i].Some? {
        var at :| 0 <= at < |r.queue.items| && r.queue.items[at].id == r.queue.slots[i].value
                  && r.channels[i] == s.channels[i] + [Start(Scheduler.JobOf(r.queue.items[at]))];
        RoundKeepsInv(s, now);
        assert Deals(s, now, i);
        NewStartOk(r.queue.items, at, r.workers[i], s.channels[i], r.tales[i]);
      }
    }
  }

  /** The `Start` of a listed item, sent to a parked worker under its stamp. */
  lemma NewStartOk(items: seq<Item>, at: nat, w: Monitor, channel: seq<Command>, t: Tale)
    requires QueueLaws.Ordered(items) && at < |items| && w.stage.Waiting? && w.signal == STAMPED
    requires NoStarts(channel) && Abort !in channel
    ensures SlotOk(items, Some(items[at].id), w, channel + [Start(Scheduler.JobOf(items[at]))], t)
  {
    WaitsLast(items, items[at].id, channel, Scheduler.JobOf(items[at]));
  }

  lemma RoundKeepsInv(s: System, now: Millis)
    requires Sized(s) && QueueLaws.Inv(s.queue)
    ensures QueueLaws.Inv(AfterRound(s, now).queue)
  {
    QueueLaws.OpKeepsInv(s.queue, SchedulerTick(Signals(s.workers), now));
  }

  lemma RoundKeepsGood(s: System, now: Millis)
    requires Good(s) && Suspended(s) && Guarded(s, now)
    ensures Good(AfterRound(s, now))
  {
    RoundKeepsInv(s, now);
    var r := AfterRound(s, now);
    forall i | 0 <= i < |s.workers|
      ensures SlotOk(r.queue.items, r.queue.slots[i], r.workers[i], r.channels[i], r.tales[i])
      ensures s.honest ==> Delivers(r.workers[i], r.tales[i], r.servers[i])
    {
      RoundOk(s, now, i);
      assert s.honest ==> Delivers(s.workers[i], s.tales[i], s.servers[i]);
      assert r.workers[i] == s.workers[i].(signal := r.workers[i].signal);
    }
  }

  lemma OperateKeepsGood(s: System, op: Op)
    requires Good(s) && !op.SchedulerTick?
    ensures Good(s.(queue := Queue.Apply(s.queue, op)))
  {
    QueueLaws.OpKeepsInv(s.queue, op);
    var q := Queue.Apply(s.queue, op);
    assert q.slots == s.queue.slots;
    forall i | 0 <= i < |s.workers|
      ensures SlotOk(q.items, q.slots[i], s.workers[i], s.channels[i], s.tales[i])
    {
      if q.slots[i].Some? {
        ApplyKeepsFile(s.queue, op, q.slots[i].value);
      }
      SlotStays(s.queue.items, q.items, q.slots[i], s.workers[i], s.channels[i], s.tales[i]);
    }
  }

  lemma {:induction false} StepKeepsGood(config: TusConfig, s: System, step: Step)
    requires Good(s) && Possible(config, s, step)
    ensures Good(After(s, step))
  {
    match step
    case Work(i, e, named) => WorkKeepsGood(config, s, i, e, named);
    case Arrive(i, arrival) => ArriveKeepsGood(s, i, arrival);
    case Send(i, cmd) =>
      SendOk(s.queue.items, s.queue.slots[i], s.workers[i], s.channels[i], s.tales[i], cmd);
    case Operate(op) => OperateKeepsGood(s, op);
    case Round(now) => RoundKeepsGood(s, now);
  }

  // ---------------------------------------------------------------- runs

  /** A queue with no items and idle workers. */
  ghost function Fresh(workers: nat, honest: bool): System {
    System(State([], seq(workers, _ => None), 0), seq(workers, _ => INITIAL), seq(workers, _ => []),
           seq(workers, _ => UNTOLD), seq(workers, _ => Server.Resource([], {})), honest)
  }

  lemma FreshIsGood(workers: nat, honest: bool)
    ensures Good(Fresh(workers, honest))
  {
  }

  ghost predicate Run(config: TusConfig, s: System, steps: seq<Step>, r: System)
    decreases steps
  {
    if steps == [] then s == r
    else Possible(config, s, steps[0]) && Run(config, After(s, steps[0]), steps[1..], r)
  }

  lemma {:induction false} RunKeepsGood(config: TusConfig, s: System, steps: seq<Step>, r: System)
    requires Good(s) && Run(config, s, steps, r)
    ensures Good(r) && r.honest == s.honest
    decreases steps
  {
    if steps != [] {
      StepKeepsGood(config, s, steps[0]);
      RunKeepsGood(config, After(s, steps[0]), steps[1..], r);
    }
  }

  /** What a round may make of an item that a slot holds: it is marked finished only if the
      worker took this item's own latest `Start`, for this item's own file, and its run ended that
      way. With an honest server a completed file was stored whole. */
  ghost predicate Deserved(item: Item, w: Monitor, channel: seq<Command>, t: Tale, honest: bool) {
    && (IsTerminal(item.status) ==>
          NoStarts(channel) && w.run.job.ticket == item.id && w.run.job.file == item.file)
    && (item.status.Complete? ==>
          && t.outcome == Some(Done) && item.bytesUploaded == |item.file.content|
          && (honest ==> t.stored == Some(item.file.content)))
    && (item.status.Error? ==>
          t.outcome.Some? && t.outcome.value.Failed? && item.error == Some(t.outcome.value.error))
    && (item.status.Aborted? ==> t.aborted)
  }

  /** A round now would treat every held item as it deserves. */
  ghost predicate Fair(s: System, now: Millis)
    requires Sized(s)
  {
    var items := AfterRound(s, now).queue.items;
    forall i, slot | 0 <= i < |s.queue.items| && 0 <= slot < |s.queue.slots|
                     && s.queue.slots[slot] == Some(s.queue.items[i].id) ::
      && i < |items| && items[i].id == s.queue.items[i].id
      && Deserved(items[i], s.workers[slot], s.channels[slot], s.tales[slot], s.honest)
  }

  lemma RoundIsFairTo(s: System, now: Millis, i: nat, slot: nat)
    requires Good(s) && Suspended(s)
    requires i < |s.queue.items| && slot < |s.queue.slots| && s.queue.slots[slot] == Some(s.queue.items[i].id)
    ensures var items := AfterRound(s, now).queue.items;
            && i < |items| && items[i].id == s.queue.items[i].id
            && Deserved(items[i], s.workers[slot], s.channels[slot], s.tales[slot], s.honest)
  {
    QueueLaws.SlotOfIs(s.queue.slots, slot);
    assert Some(s.queue.items[i].id) in s.queue.slots;
    QueueLaws.TickItem(s.queue, Signals(s.workers), now, i);
    if WorkerDone(s.workers[slot].signal.status) {
      DoneIsTruthful(s, slot);
      assert s.honest ==> Delivers(s.workers[slot], s.tales[slot], s.servers[slot]);
    }
  }

  lemma RoundIsFair(s: System, now: Millis)
    requires Good(s) && Suspended(s)
    ensures Fair(s, now)
  {
    forall i, slot | 0 <= i < |s.queue.items| && 0 <= slot < |s.queue.slots|
                     && s.queue.slots[slot] == Some(s.queue.items[i].id)
      ensures var items := AfterRound(s, now).queue.items;
              && i < |items| && items[i].id == s.queue.items[i].id
              && Deserved(items[i], s.workers[slot], s.channels[slot], s.tales[slot], s.honest)
    {
      RoundIsFairTo(s, now, i, slot);
    }
  }

  /** In every run whose rounds are guarded, no round, guarded or not, blames an item for what
      its worker did before; and every item it marks complete was stored whole by an honest
      server. */
  lemma NoItemIsMisjudged(config: TusConfig, workers: nat, honest: bool, steps: seq<Step>, s: System, now: Millis)
    requires Run(config, Fresh(workers, honest), steps, s) && Suspended(s)
    ensures Sized(s) && Fair(s, now) && s.honest == honest
  {
    FreshIsGood(workers, honest);
    RunKeepsGood(config, Fresh(workers, honest), steps, s);
    RoundIsFair(s, now);
  }
}
