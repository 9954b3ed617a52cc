/** What the guard of a round, the stamp in `start` and the slots of removed items are for: the
    guard is exactly what keeps later rounds fair, and without the other two an item is judged
    by an upload that was never its own, or no longer is. */
module QueueRaceNeeds {
  import opened Wrappers
  import opened UploadTypes
  import opened RunMonitor
  import opened Queue
  import opened QueueRace
  import QueueLaws
  import Scheduler
  import Server

  const NOWHERE: Server.Resource := Server.Resource([], {})

  lemma RunCons(config: TusConfig, s: System, step: Step, rest: seq<Step>, r: System)
    requires Possible(config, s, step) && Run(config, QueueRace.After(s, step), rest, r)
    ensures Run(config, s, [step] + rest, r)
  {
    assert ([step] + rest)[1..] == rest;
  }

  /** Only worker `i` has moved. */
  ghost predicate OthersKeep(s: System, r: System, i: nat) {
    && Sized(s) && Sized(r) && |r.workers| == |s.workers| && i < |s.workers|
    && r.queue == s.queue && r.honest == s.honest
    && forall j | 0 <= j < |s.workers| && j != i :: r.workers[j] == s.workers[j]
  }

  /** The worker creates the upload behind `job`, its signal says Idle, and it has taken no
      Abort since its `Start`. */
  ghost predicate Betrayed(r: System, i: nat, job: Job) {
    && i < |r.workers| == |r.tales|
    && r.workers[i].stage.Creating? && r.workers[i].run.job == job && r.workers[i].signal.status.Idle?
    && !r.tales[i].aborted
  }

  ghost predicate CanBetray(config: TusConfig, s: System, i: nat, job: Job) {
    exists steps, r :: Run(config, s, steps, r) && OthersKeep(s, r, i) && Betrayed(r, i, job)
  }

  lemma StepFirst(config: TusConfig, s: System, i: nat, step: Step, job: Job)
    requires Possible(config, s, step) && OthersKeep(s, QueueRace.After(s, step), i)
    requires CanBetray(config, QueueRace.After(s, step), i, job)
    ensures CanBetray(config, s, i, job)
  {
    var steps, r :| Run(config, QueueRace.After(s, step), steps, r)
                    && OthersKeep(QueueRace.After(s, step), r, i) && Betrayed(r, i, job);
    RunCons(config, s, step, steps, r);
    assert Run(config, s, [step] + steps, r) && OthersKeep(s, r, i);
  }

  /** A run begins under an idle signal. */
  lemma BeginIdly(config: TusConfig, s: System, i: nat, job: Job)
    requires Sized(s) && i < |s.workers| && s.workers[i].stage == Starting(job) && s.workers[i].signal.status.Idle?
    requires !s.tales[i].aborted
    ensures CanBetray(config, s, i, job)
  {
    var begin := Work(i, Began(job, ""), NOWHERE);
    var b := QueueRace.After(s, begin);
    assert b.workers[i] == NextBegan(s.workers[i], job, "");
    assert Run(config, b, [], b) && OthersKeep(b, b, i) && Betrayed(b, i, job);
    StepFirst(config, s, i, begin, job);
  }

  /** A parked worker whose signal says Idle takes the `Start` and creates the upload so. */
  lemma StartIdly(config: TusConfig, s: System, i: nat, job: Job)
    requires Sized(s) && i < |s.workers| && s.workers[i].stage.Waiting? && s.workers[i].signal.status.Idle?
    requires s.channels[i] == [Start(job)]
    ensures CanBetray(config, s, i, job)
  {
    var take := Work(i, Took(Start(job)), NOWHERE);
    BeginIdly(config, QueueRace.After(s, take), i, job);
    StepFirst(config, s, i, take, job);
  }

  /** A parked worker has read one command and written what it owes for it. */
  ghost function Read(s: System, i: nat): System
    requires Sized(s) && i < |s.workers|
    requires s.channels[i] != []
  {
    var a := QueueRace.After(s, Work(i, Took(s.channels[i][0]), NOWHERE));
    if a.workers[i].stage.Owing? then QueueRace.After(a, Work(i, Wrote(a.workers[i].stage.update), NOWHERE)) else a
  }

  /** Outside a run a command other than Start is read at once, and an idle signal stays idle. */
  lemma ReadOne(s: System, i: nat)
    requires Sized(s) && i < |s.workers| && s.workers[i].stage.Waiting?
    requires s.channels[i] != [] && !s.channels[i][0].Start?
    ensures var r := Read(s, i);
            && OthersKeep(s, r, i) && r.workers[i].stage.Waiting? && r.channels[i] == s.channels[i][1..]
            && (s.channels[i][0].Abort? || s.workers[i].signal.status.Idle? ==> r.workers[i].signal.status.Idle?)
  {
    var a := QueueRace.After(s, Work(i, Took(s.channels[i][0]), NOWHERE));
    assert a.workers[i] == NextTook(s.workers[i], s.channels[i][0]);
    if a.workers[i].stage.Owing? {
      assert Read(s, i).workers[i] == NextWrote(a.workers[i], a.workers[i].stage.update);
    }
  }

  lemma ReadFirst(config: TusConfig, s: System, i: nat, job: Job)
    requires Sized(s) && i < |s.workers| && s.workers[i].stage.Waiting?
    requires s.channels[i] != [] && !s.channels[i][0].Start? && CanBetray(config, Read(s, i), i, job)
    ensures CanBetray(config, s, i, job)
  {
    var take := Work(i, Took(s.channels[i][0]), NOWHERE);
    var a := QueueRace.After(s, take);
    assert a.workers[i].stage == StageTook(s.workers[i], s.channels[i][0]);
    if a.workers[i].stage.Owing? {
      StepFirst(config, a, i, Work(i, Wrote(a.workers[i].stage.update), NOWHERE), job);
    }
    StepFirst(config, s, i, take, job);
  }

  /** A parked worker reads its channel up to the `Start`; an Abort on the way, or an idle
      signal to begin with, leaves the signal idle. */
  lemma {:induction false} ReadUpToStart(config: TusConfig, s: System, i: nat, before: seq<Command>, job: Job)
    requires Sized(s) && i < |s.workers| && s.workers[i].stage.Waiting?
    requires s.channels[i] == before + [Start(job)] && NoStarts(before)
    requires Abort in before || s.workers[i].signal.status.Idle?
    ensures CanBetray(config, s, i, job)
    decreases |before|
  {
    if before == [] {
      assert s.channels[i] == [Start(job)];
      StartIdly(config, s, i, job);
    } else {
      assert before == [before[0]] + before[1..];
      assert s.channels[i][1..] == before[1..] + [Start(job)];
      ReadOne(s, i);
      ReadUpToStart(config, Read(s, i), i, before[1..], job);
      ReadFirst(config, s, i, job);
    }
  }

  /** A worker that creates an upload under an idle signal gets it marked aborted. */
  lemma BetrayalIsUnfair(s: System, r: System, i: nat, job: Job, later: Millis)
    requires Sized(s) && QueueLaws.Inv(s.queue) && OthersKeep(s, r, i) && Betrayed(r, i, job)
    requires exists j | 0 <= j < |s.queue.items| :: s.queue.slots[i] == Some(s.queue.items[j].id)
    ensures !Fair(r, later)
  {
    var j :| 0 <= j < |s.queue.items| && s.queue.slots[i] == Some(s.queue.items[j].id);
    QueueLaws.SlotOfIs(r.queue.slots, i);
    assert Some(r.queue.items[j].id) in r.queue.slots;
    QueueLaws.TickItem(r.queue, Signals(r.workers), later, j);
    assert AfterRound(r, later).queue.items[j].status.Aborted?;
  }

  // ---------------------------------------------------------------- the guard

  /** Every round after this one, however the workers, the user and guarded rounds go on in
      between, will be fair. */
  ghost predicate StaysFair(config: TusConfig, s: System) {
    forall steps, r, later :: Run(config, s, steps, r) && Suspended(r) ==> Sized(r) && Fair(r, later)
  }

  /** A slot that gets an item: its worker is stamped and the `Start` ends its channel. */
  lemma DealtStart(s: System, now: Millis, i: nat)
    requires Sized(s) && QueueLaws.Inv(s.queue) && i < |s.workers| && Deals(s, now, i)
    ensures var r := AfterRound(s, now);
            && Sized(r) && QueueLaws.Inv(r.queue) && r.workers[i] == s.workers[i].(signal := STAMPED)
            && exists j | 0 <= j < |r.queue.items| ::
                 && r.queue.slots[i] == Some(r.queue.items[j].id)
                 && r.channels[i] == s.channels[i] + [Start(Scheduler.JobOf(r.queue.items[j]))]
  {
    RoundSlots(s, now, i);
    RoundKeepsInv(s, now);
  }

  /** In a good system such a worker is parked, done, and has no other `Start` to read. */
  lemma DealtSlot(s: System, now: Millis, i: nat)
    requires Good(s) && Suspended(s) && i < |s.workers| && Deals(s, now, i)
    ensures s.workers[i].stage.Waiting? && WorkerDone(s.workers[i].signal.status) && NoStarts(s.channels[i])
  {
    assert AtAwait(s.workers[i]);
    if s.queue.slots[i].Some? {
      DoneIsTruthful(s, i);
    }
  }

  /** Every worker but this one is suspended. */
  ghost predicate Suspends(t: System, i: nat) {
    i < |t.workers| && forall j | 0 <= j < |t.workers| && j != i :: AtAwait(t.workers[j])
  }

  lemma Unfair(config: TusConfig, t: System, i: nat, job: Job)
    requires Sized(t) && QueueLaws.Inv(t.queue) && Suspends(t, i) && CanBetray(config, t, i, job)
    requires exists j | 0 <= j < |t.queue.items| :: t.queue.slots[i] == Some(t.queue.items[j].id)
    ensures !StaysFair(config, t)
  {
    var steps, r :| Run(config, t, steps, r) && OthersKeep(t, r, i) && Betrayed(r, i, job);
    assert Suspended(r);
    BetrayalIsUnfair(t, r, i, job, 0.0);
  }

  lemma RoundStaysSuspended(s: System, now: Millis)
    requires Sized(s) && QueueLaws.Inv(s.queue) && Suspended(s)
    ensures Suspended(AfterRound(s, now)) && Sized(AfterRound(s, now))
  {
    var r := AfterRound(s, now);
    forall i | 0 <= i < |s.workers| ensures AtAwait(r.workers[i]) {
      RoundSlots(s, now, i);
      assert AtAwait(s.workers[i]);
    }
  }

  /** An Abort unread at a round that deals to its slot is charged to the new item. */
  lemma UnguardedIsUnfair(config: TusConfig, s: System, now: Millis, i: nat)
    requires Good(s) && Suspended(s) && i < |s.workers| && Deals(s, now, i) && Abort in s.channels[i]
    ensures !StaysFair(config, AfterRound(s, now))
  {
    DealtSlot(s, now, i);
    DealtStart(s, now, i);
    RoundStaysSuspended(s, now);
    var t := AfterRound(s, now);
    var j :| 0 <= j < |t.queue.items| && t.queue.slots[i] == Some(t.queue.items[j].id)
             && t.channels[i] == s.channels[i] + [Start(Scheduler.JobOf(t.queue.items[j]))];
    var job := Scheduler.JobOf(t.queue.items[j]);
    ReadUpToStart(config, t, i, s.channels[i], job);
    Unfair(config, t, i, job);
  }

  lemma GuardedStaysFair(config: TusConfig, s: System, now: Millis)
    requires Good(s) && Suspended(s) && Guarded(s, now)
    ensures StaysFair(config, AfterRound(s, now))
  {
    RoundKeepsGood(s, now);
    var t := AfterRound(s, now);
    forall steps, r | Run(config, t, steps, r) && Suspended(r) ensures Good(r) {
      RunKeepsGood(config, t, steps, r);
    }
    forall r, later | Good(r) && Suspended(r) ensures Fair(r, later) {
      RoundIsFair(r, later);
    }
  }

  /** A round leaves nothing that a later round could get wrong if and only if no worker that
      it gives an item to has an Abort unread. */
  lemma GuardIsExact(config: TusConfig, s: System, now: Millis)
    requires Good(s) && Suspended(s)
    ensures Sized(AfterRound(s, now)) && (Guarded(s, now) <==> StaysFair(config, AfterRound(s, now)))
  {
    RoundStaysSuspended(s, now);
    if Guarded(s, now) {
      GuardedStaysFair(config, s, now);
    } else {
      var i :| 0 <= i < |s.workers| && Deals(s, now, i) && Abort in s.channels[i];
      UnguardedIsUnfair(config, s, now, i);
    }
  }

  // ---------------------------------------------------------------- the stamp

  /** The round as it would be without the stamp: the workers keep their signals. */
  ghost function Unstamped(s: System, now: Millis): System
    requires Sized(s)
  {
    AfterRound(s, now).(workers := s.workers)
  }

  lemma UndealtStays(s: System, now: Millis)
    requires Good(s) && Suspended(s) && forall i | 0 <= i < |s.workers| :: !Deals(s, now, i)
    ensures Good(Unstamped(s, now)) && Suspended(Unstamped(s, now))
  {
    RoundKeepsGood(s, now);
    var r := AfterRound(s, now);
    assert r.queue == Tick(s.queue, Signals(s.workers), now).0;
    forall i | 0 <= i < |s.workers| ensures r.workers[i] == s.workers[i] {
      RoundSlots(s, now, i);
      assert !Deals(s, now, i);
    }
    assert r.workers == s.workers;
  }

  /** An item is judged although its `Start` is unread. */
  lemma EarlyIsUnfair(t: System, i: nat, j: nat, later: Millis)
    requires Sized(t) && QueueLaws.Inv(t.queue) && i < |t.workers| && j < |t.queue.items|
    requires t.queue.slots[i] == Some(t.queue.items[j].id)
    requires WorkerDone(t.workers[i].signal.status) && !NoStarts(t.channels[i])
    ensures !Fair(t, later)
  {
    QueueLaws.SlotOfIs(t.queue.slots, i);
    assert Some(t.queue.items[j].id) in t.queue.slots;
    QueueLaws.TickItem(t.queue, Signals(t.workers), later, j);
    assert IsTerminal(AfterRound(t, later).queue.items[j].status);
  }

  /** A worker that shows how an earlier run ended has an item finished before it starts. */
  lemma UnstampedIsUnfair(s: System, now: Millis, i: nat, later: Millis)
    requires Good(s) && Suspended(s) && i < |s.workers| && Deals(s, now, i)
    ensures Sized(Unstamped(s, now)) && !Fair(Unstamped(s, now), later)
  {
    DealtSlot(s, now, i);
    DealtStart(s, now, i);
    var t := Unstamped(s, now);
    var j :| 0 <= j < |t.queue.items| && t.queue.slots[i] == Some(t.queue.items[j].id)
             && t.channels[i] == s.channels[i] + [Start(Scheduler.JobOf(t.queue.items[j]))];
    assert t.channels[i][|s.channels[i]|].Start?;
    EarlyIsUnfair(t, i, j, later);
  }

  /** Without the stamp in `start` the next round is fair if and only if this one gives no item
      to any worker, whether the items are new or retried. */
  lemma StampIsNeeded(s: System, now: Millis, later: Millis)
    requires Good(s) && Suspended(s)
    ensures var t := Unstamped(s, now);
            Sized(t) && (Fair(t, later) <==> forall i | 0 <= i < |s.workers| :: !Deals(s, now, i))
  {
    if i :| 0 <= i < |s.workers| && Deals(s, now, i) {
      UnstampedIsUnfair(s, now, i, later);
    } else {
      UndealtStays(s, now);
      RoundIsFair(Unstamped(s, now), later);
    }
  }

  // ---------------------------------------------------------------- the slot of a removed item

  /** Only worker `i` has moved, and it has read nothing. */
  ghost predicate Onward(t: System, r: System, i: nat) {
    OthersKeep(t, r, i) && r.channels == t.channels && r.tales[i].aborted == t.tales[i].aborted
  }

  /** A worker that leaves its run has removed its row, if it must. */
  ghost function Dropped(t: System, i: nat): System
    requires Sized(t) && i < |t.workers|
  {
    var w := t.workers[i];
    if w.run.created || w.Resuming() then QueueRace.After(t, Work(i, Cleared, NOWHERE)) else t
  }

  lemma DropOne(config: TusConfig, t: System, i: nat, job: Job)
    requires Sized(t) && i < |t.workers| && Interrupted(t.workers[i].stage)
    ensures var r := Dropped(t, i);
            && Onward(t, r, i) && r.workers[i].stage == t.workers[i].stage
            && (r.workers[i].run.created || r.workers[i].Resuming() ==> r.workers[i].run.cleared)
    ensures CanBetray(config, Dropped(t, i), i, job) ==> CanBetray(config, t, i, job)
  {
    var w, drop := t.workers[i], Work(i, Cleared, NOWHERE);
    if CanBetray(config, Dropped(t, i), i, job) && (w.run.created || w.Resuming()) {
      StepFirst(config, t, i, drop, job);
    }
  }

  /** It has reset its state. */
  ghost function Cleaned(t: System, i: nat): System
    requires Sized(t) && i < |t.workers|
  {
    QueueRace.After(t, Work(i, Wrote(ResetIdle), NOWHERE))
  }

  lemma CleanOne(config: TusConfig, t: System, i: nat, job: Job)
    requires Sized(t) && i < |t.workers| && Interrupted(t.workers[i].stage)
    ensures var w, r := t.workers[i], Cleaned(t, i);
            && Onward(t, r, i) && r.workers[i].stage == w.stage
            && r.workers[i].run == w.run.(idle := true) && r.workers[i].signal.status.Idle?
    ensures CanBetray(config, Cleaned(t, i), i, job) ==> CanBetray(config, t, i, job)
  {
    var reset := Work(i, Wrote(ResetIdle), NOWHERE);
    assert Cleaned(t, i).workers[i] == NextWrote(t.workers[i], ResetIdle);
    if CanBetray(config, Cleaned(t, i), i, job) {
      StepFirst(config, t, i, reset, job);
    }
  }

  /** The worker has left its run. */
  ghost function Left(t: System, i: nat): System
    requires Sized(t) && i < |t.workers| && t.workers[i].stage.Leaving?
  {
    QueueRace.After(Cleaned(Dropped(t, i), i), Work(i, Exited(t.workers[i].stage.outcome), NOWHERE))
  }

  lemma LeaveOne(config: TusConfig, t: System, i: nat, job: Job)
    requires Sized(t) && i < |t.workers| && Interrupted(t.workers[i].stage)
    ensures var r, outcome := Left(t, i), t.workers[i].stage.outcome;
            && Onward(t, r, i) && r.workers[i].signal.status.Idle?
            && r.workers[i].stage == (if outcome.Restart? then Starting(outcome.job) else Waiting)
    ensures CanBetray(config, Left(t, i), i, job) ==> CanBetray(config, t, i, job)
  {
    DropOne(config, t, i, job);
    var a := Dropped(t, i);
    CleanOne(config, a, i, job);
    var b := Cleaned(a, i);
    var leave := Work(i, Exited(t.workers[i].stage.outcome), NOWHERE);
    assert Left(t, i).workers[i] == NextExited(b.workers[i], t.workers[i].stage.outcome);
    if CanBetray(config, Left(t, i), i, job) {
      StepFirst(config, b, i, leave, job);
    }
  }

  /** A worker in a run has noted a Pause or Resume, and shows it if its upload is shown. */
  ghost function Heeded(t: System, i: nat): System
    requires Sized(t) && i < |t.workers| && t.channels[i] != []
  {
    var a := QueueRace.After(t, Work(i, Took(t.channels[i][0]), NOWHERE));
    if a.workers[i].stage.Running?
    then QueueRace.After(a, Work(i, Wrote(SetStatus(Mirror(a.workers[i].paused))), NOWHERE)) else a
  }

  ghost predicate InRun(t: System, i: nat) {
    && Sized(t) && i < |t.workers| && AtAwait(t.workers[i])
    && (t.workers[i].stage.Creating? || t.workers[i].stage.Running?)
  }

  lemma HeedOne(config: TusConfig, t: System, i: nat, job: Job)
    requires InRun(t, i) && t.channels[i] != [] && (t.channels[i][0].Pause? || t.channels[i][0].Resume?)
    ensures var r := Heeded(t, i); OthersKeep(t, r, i) && InRun(r, i) && r.channels[i] == t.channels[i][1..]
    ensures CanBetray(config, Heeded(t, i), i, job) ==> CanBetray(config, t, i, job)
  {
    var cmd := t.channels[i][0];
    var take := Work(i, Took(cmd), NOWHERE);
    var a := QueueRace.After(t, take);
    assert a.workers[i] == NextTook(t.workers[i], cmd);
    var tell := Work(i, Wrote(SetStatus(Mirror(a.workers[i].paused))), NOWHERE);
    if a.workers[i].stage.Running? {
      assert Heeded(t, i).workers[i] == NextWrote(a.workers[i], SetStatus(Mirror(a.workers[i].paused)));
    }
    if CanBetray(config, Heeded(t, i), i, job) {
      if a.workers[i].stage.Running? {
        StepFirst(config, a, i, tell, job);
      }
      StepFirst(config, t, i, take, job);
    }
  }

  /** A worker in a run takes the next item's `Start`: it resets its state, and creates that
      upload under an idle signal. */
  lemma CutByStart(config: TusConfig, t: System, i: nat, job: Job)
    requires InRun(t, i) && t.channels[i] == [Start(job)]
    ensures CanBetray(config, t, i, job)
  {
    var take := Work(i, Took(Start(job)), NOWHERE);
    var a := QueueRace.After(t, take);
    assert a.workers[i] == NextTook(t.workers[i], Start(job));
    LeaveOne(config, a, i, job);
    BeginIdly(config, Left(a, i), i, job);
    StepFirst(config, t, i, take, job);
  }

  /** Whatever the worker of a run finds in its channel before the next item's `Start`, it
      creates that upload under an idle signal. */
  lemma {:induction false} RunIsCut(config: TusConfig, t: System, i: nat, before: seq<Command>, job: Job)
    requires InRun(t, i) && t.channels[i] == before + [Start(job)] && NoStarts(before)
    ensures CanBetray(config, t, i, job)
    decreases |before|
  {
    if before == [] {
      assert t.channels[i] == [Start(job)];
      CutByStart(config, t, i, job);
    } else {
      assert before == [before[0]] + before[1..];
      assert t.channels[i][1..] == before[1..] + [Start(job)];
      if before[0].Abort? {
        var take := Work(i, Took(Abort), NOWHERE);
        var a := QueueRace.After(t, take);
        assert a.workers[i] == NextTook(t.workers[i], Abort);
        LeaveOne(config, a, i, job);
        ReadUpToStart(config, Left(a, i), i, before[1..], job);
        StepFirst(config, t, i, take, job);
      } else {
        HeedOne(config, t, i, job);
        RunIsCut(config, Heeded(t, i), i, before[1..], job);
      }
    }
  }

  /** A parked worker that has not read its `Start` yet begins that run first. */
  lemma {:induction false} ParkedIsCut(config: TusConfig, t: System, i: nat, items: seq<Item>, id: nat,
                                       before: seq<Command>, job: Job)
    requires Sized(t) && i < |t.workers| && t.workers[i].stage.Waiting?
    requires t.channels[i] == before + [Start(job)] && Waits(items, id, before)
    ensures CanBetray(config, t, i, job)
    decreases |before|
  {
    assert before == [before[0]] + before[1..];
    assert t.channels[i][1..] == before[1..] + [Start(job)];
    if before[0].Start? {
      var own := before[0].job;
      var take, begin := Work(i, Took(Start(own)), NOWHERE), Work(i, Began(own, ""), NOWHERE);
      var a := QueueRace.After(t, take);
      assert a.workers[i] == NextTook(t.workers[i], Start(own));
      var b := QueueRace.After(a, begin);
      assert b.workers[i] == NextBegan(a.workers[i], own, "");
      RunIsCut(config, b, i, before[1..], job);
      StepFirst(config, a, i, begin, job);
      StepFirst(config, t, i, take, job);
    } else {
      ReadOne(t, i);
      ParkedIsCut(config, Read(t, i), i, items, id, before[1..], job);
      ReadFirst(config, t, i, job);
    }
  }

  /** Slot `i` holds an item that was removed from the list, and its worker is not done. */
  ghost predicate Orphaned(s: System, i: nat) {
    && Sized(s) && i < |s.workers| && s.queue.slots[i].Some? && !WorkerDone(s.workers[i].signal.status)
    && forall j | 0 <= j < |s.queue.items| :: s.queue.items[j].id != s.queue.slots[i].value
  }

  ghost function Freed(s: System, i: nat): System
    requires i < |s.queue.slots|
  {
    s.(queue := s.queue.(slots := s.queue.slots[i := None]))
  }

  lemma FreedKeepsInv(s: System, i: nat)
    requires QueueLaws.Inv(s.queue) && Orphaned(s, i)
    ensures QueueLaws.Inv(Freed(s, i).queue)
  {
    var slots := Freed(s, i).queue.slots;
    forall item | item in s.queue.items && Some(item.id) in s.queue.slots ensures Some(item.id) in slots {
      var k :| 0 <= k < |s.queue.slots| && s.queue.slots[k] == Some(item.id);
      assert slots[k] == Some(item.id);
    }
  }

  /** The slot of a removed item must stay taken until its worker is done, as it does: were it
      free when a round gives it an item, some later round would be unfair to that item. */
  lemma OrphanSlotIsNeeded(config: TusConfig, s: System, i: nat, now: Millis)
    requires Good(s) && Suspended(s) && Orphaned(s, i)
    ensures !Deals(s, now, i)
    ensures Sized(Freed(s, i)) &&
      (Deals(Freed(s, i), now, i) ==> !StaysFair(config, AfterRound(Freed(s, i), now)))
  {
    RoundSlots(s, now, i);
    var early := Freed(s, i);
    if Deals(early, now, i) {
      FreedKeepsInv(s, i);
      DealtStart(early, now, i);
      RoundStaysSuspended(early, now);
      var t := AfterRound(early, now);
      var j :| 0 <= j < |t.queue.items| && t.queue.slots[i] == Some(t.queue.items[j].id)
               && t.channels[i] == s.channels[i] + [Start(Scheduler.JobOf(t.queue.items[j]))];
      var job := Scheduler.JobOf(t.queue.items[j]);
      assert AtAwait(s.workers[i]) && AtAwait(t.workers[i]);
      var id := s.queue.slots[i].value;
      if Handed(s.queue.items, id, s.workers[i], s.channels[i]) {
        ParkedIsCut(config, t, i, s.queue.items, id, s.channels[i], job);
      } else {
        RunIsCut(config, t, i, s.channels[i], job);
      }
      Unfair(config, t, i, job);
    }
  }

  // ---------------------------------------------------------------- examples

  lemma OneItemRound(s: System, item: Item, now: Millis)
    requires Sized(s) && QueueLaws.Inv(s.queue) && s.queue.items == [item] && s.queue.slots == [None]
    requires item.status.Queued?
    ensures var r := AfterRound(s, now);
            && Sized(r) && QueueLaws.Inv(r.queue) && r.queue.slots == [Some(item.id)]
            && |r.queue.items| == 1 && r.queue.items[0].id == item.id && r.queue.nextId == s.queue.nextId
            && Deals(s, now, 0)
            && r.workers == [s.workers[0].(signal := STAMPED)] && r.tales == s.tales
            && r.channels == [s.channels[0] + [Start(Scheduler.JobOf(item))]]
  {
    QueueLaws.OpKeepsInv(s.queue, SchedulerTick(Signals(s.workers), now));
    var mid := ReconcileSlots(s.queue, Signals(s.workers), now, 1);
    assert ReconcileSlots(s.queue, Signals(s.workers), now, 0) == s.queue;
    assert mid == s.queue;
    assert FillSlots(mid, now, 0) == (mid, []);
    var (after, starts) := FillSlots(mid, now, 1);
    assert starts == [TickStart(0, item.id)] && starts[..0] == [];
    assert Find(after.items, item.id) == Some(0);
    assert Scheduler.Launched(after.items, [], s.channels) == s.channels;
  }

  ghost predicate Reached(config: TusConfig, workers: nat, honest: bool, s: System) {
    exists steps :: Run(config, Fresh(workers, honest), steps, s)
  }

  lemma {:induction false} RunLast(config: TusConfig, s: System, steps: seq<Step>, r: System, step: Step)
    requires Run(config, s, steps, r) && Possible(config, r, step)
    ensures Run(config, s, steps + [step], QueueRace.After(r, step))
    decreases steps
  {
    if steps == [] {
      RunCons(config, s, step, [], QueueRace.After(r, step));
      assert steps + [step] == [step] + [];
    } else {
      var next := QueueRace.After(s, steps[0]);
      RunLast(config, next, steps[1..], r, step);
      RunCons(config, s, steps[0], steps[1..] + [step], QueueRace.After(r, step));
      assert steps + [step] == [steps[0]] + (steps[1..] + [step]);
    }
  }

  lemma ReachStep(config: TusConfig, workers: nat, honest: bool, s: System, step: Step)
    requires Reached(config, workers, honest, s) && Possible(config, s, step)
    ensures Reached(config, workers, honest, QueueRace.After(s, step))
  {
    var steps :| Run(config, Fresh(workers, honest), steps, s);
    RunLast(config, Fresh(workers, honest), steps, s, step);
  }

  lemma ReachedIsGood(config: TusConfig, workers: nat, honest: bool, s: System)
    requires Reached(config, workers, honest, s)
    ensures Good(s)
  {
    var steps :| Run(config, Fresh(workers, honest), steps, s);
    FreshIsGood(workers, honest);
    RunKeepsGood(config, Fresh(workers, honest), steps, s);
  }

  lemma FreshIsReached(config: TusConfig, workers: nat, honest: bool)
    ensures Reached(config, workers, honest, Fresh(workers, honest)) && Sized(Fresh(workers, honest))
  {
    assert Run(config, Fresh(workers, honest), [], Fresh(workers, honest));
  }

  /** A fresh queue with one worker after `abort_all` and then one `add`: the next round is not
      guarded, so some later round is unfair. */
  lemma AbortAllThenAdd(config: TusConfig, honest: bool, file: File, options: StartOptions, now: Millis)
    ensures exists s ::
      && Reached(config, 1, honest, s) && Good(s) && Suspended(s)
      && !Guarded(s, now) && !StaysFair(config, AfterRound(s, now))
  {
    var initial := Fresh(1, honest);
    FreshIsReached(config, 1, honest);
    ReachStep(config, 1, honest, initial, Send(0, Abort));
    var first := QueueRace.After(initial, Send(0, Abort));
    assert initial.channels[0] == [] && first.channels[0] == [Abort];
    ReachStep(config, 1, honest, first, Operate(Add(file, options)));
    var s := QueueRace.After(first, Operate(Add(file, options)));
    ReachedIsGood(config, 1, honest, s);
    OneItemRound(s, NewItem(0, file, options), now);
    assert s.channels[0] == [Abort];
    GuardIsExact(config, s, now);
  }

  /** One worker that creates the upload of the one item, and nothing to read. */
  ghost predicate FirstUnderWay(s: System, job: Job) {
    && Sized(s) && QueueLaws.Inv(s.queue) && |s.workers| == 1 && s.channels[0] == []
    && |s.queue.items| == 1 && s.queue.items[0].id == 0 && IsActive(s.queue.items[0].status)
    && s.queue.slots == [Some(0)] && s.queue.nextId == 1
    && s.workers[0].stage.Creating? && s.workers[0].run == RunFacts(job, "", "", 0, false, false, false)
  }

  /** Such a state occurs: `add`, a round, the worker starts. */
  lemma FirstStarts(config: TusConfig, honest: bool, file: File, options: StartOptions, now: Millis) returns (s: System)
    ensures Reached(config, 1, honest, s) && FirstUnderWay(s, Job(file, options, 0))
  {
    var item := NewItem(0, file, options);
    var job := Scheduler.JobOf(item);
    FreshIsReached(config, 1, honest);
    ReachStep(config, 1, honest, Fresh(1, honest), Operate(Add(file, options)));
    var a := QueueRace.After(Fresh(1, honest), Operate(Add(file, options)));
    ReachedIsGood(config, 1, honest, a);
    assert a.queue.items == [item] && a.channels[0] == [];
    OneItemRound(a, item, now);
    DealtItem(a, now, item);
    ReachStep(config, 1, honest, a, Round(now));
    s := PickUp(config, honest, AfterRound(a, now), job);
  }

  /** The worker takes the one `Start` and creates its upload. */
  lemma PickUp(config: TusConfig, honest: bool, b: System, job: Job) returns (s: System)
    requires Reached(config, 1, honest, b) && Sized(b) && |b.workers| == 1 && b.workers[0].stage.Waiting?
    requires b.channels[0] == [Start(job)]
    ensures Reached(config, 1, honest, s) && Sized(s) && s.queue == b.queue && |s.workers| == 1 && s.channels[0] == []
    ensures s.workers[0].stage.Creating? && s.workers[0].run == RunFacts(job, "", "", 0, false, false, false)
  {
    var take, begin := Work(0, Took(Start(job)), NOWHERE), Work(0, Began(job, ""), NOWHERE);
    ReachStep(config, 1, honest, b, take);
    var c := QueueRace.After(b, take);
    assert c.workers[0] == NextTook(b.workers[0], Start(job));
    ReachStep(config, 1, honest, c, begin);
    s := QueueRace.After(c, begin);
    assert s.workers[0] == NextBegan(c.workers[0], job, "");
  }

  lemma DealtItem(s: System, now: Millis, item: Item)
    requires Sized(s) && QueueLaws.Inv(s.queue) && s.queue.items == [item] && s.queue.slots == [None]
    requires item.status.Queued?
    ensures Sized(AfterRound(s, now)) && |AfterRound(s, now).queue.items| == 1
    ensures IsActive(AfterRound(s, now).queue.items[0].status)
  {
    OneItemRound(s, item, now);
    var r := AfterRound(s, now).queue;
    assert r.slots[0] == Some(r.items[0].id);
  }

  lemma RemoveThenAdd(config: TusConfig, honest: bool, c: System, job: Job, next: File, options: StartOptions)
    returns (s: System)
    requires Reached(config, 1, honest, c) && FirstUnderWay(c, job)
    ensures Reached(config, 1, honest, s) && Sized(s) && s.queue == State([NewItem(1, next, options)], [Some(0)], 2)
    ensures s.workers == c.workers && |s.workers| == 1
  {
    ReachStep(config, 1, honest, c, Operate(RemoveItem(0)));
    var d := QueueRace.After(c, Operate(RemoveItem(0)));
    assert Filter(KeepOthers(0), c.queue.items[..0]) == [] && c.queue.items[..0] == [];
    assert d.queue.items == [];
    ReachStep(config, 1, honest, d, Send(0, Abort));
    var e := QueueRace.After(d, Send(0, Abort));
    ReachStep(config, 1, honest, e, Operate(Add(next, options)));
    s := QueueRace.After(e, Operate(Add(next, options)));
    assert s.queue.items == [NewItem(1, next, options)];
  }

  /** `remove_item` and another `add` leave an orphaned slot, and freeing it early would give it
      to the new item. */
  lemma OrphansOccur(config: TusConfig, honest: bool, removed: File, next: File, options: StartOptions, now: Millis)
    ensures exists s ::
      && Reached(config, 1, honest, s) && Good(s) && Suspended(s) && Orphaned(s, 0)
      && Sized(Freed(s, 0)) && Deals(Freed(s, 0), now, 0) && !StaysFair(config, AfterRound(Freed(s, 0), now))
  {
    var c := FirstStarts(config, honest, removed, options, now);
    var s := RemoveThenAdd(config, honest, c, Job(removed, options, 0), next, options);
    ReachedIsGood(config, 1, honest, s);
    assert SlotOk(s.queue.items, s.queue.slots[0], s.workers[0], s.channels[0], s.tales[0]);
    FreedKeepsInv(s, 0);
    OneItemRound(Freed(s, 0), NewItem(1, next, options), now);
    OrphanSlotIsNeeded(config, s, 0, now);
  }

  /** A round frees the slot of the one worker, whose upload failed. */
  lemma FailedRound(s: System, now: Millis)
    requires Sized(s) && QueueLaws.Inv(s.queue) && |s.queue.items| == 1
    requires s.queue.slots == [Some(s.queue.items[0].id)] && s.workers[0].signal.status.Error?
    ensures Sized(AfterRound(s, now)) && !Deals(s, now, 0)
    ensures AfterRound(s, now) == s.(queue := State([Reconciled(s.queue.items[0], s.workers[0].signal, now)], [None],
                                                    s.queue.nextId))
  {
    var item := s.queue.items[0];
    var mid := ReconcileSlots(s.queue, Signals(s.workers), now, 1);
    assert ReconcileSlots(s.queue, Signals(s.workers), now, 0) == s.queue;
    assert Find(s.queue.items, item.id) == Some(0);
    assert mid == State([Reconciled(item, s.workers[0].signal, now)], [None], s.queue.nextId);
    assert FirstQueued(mid.items, 0).None?;
    assert FillSlots(mid, now, 0) == (mid, []) && FillSlot(mid, now, 0) == (mid, []);
    var none: seq<TickStart> := [];
    assert none + none == none && FillSlots(mid, now, 1) == (mid, none);
    assert AfterRound(s, now).workers == s.workers;
  }

  /** The first upload fails; the worker reports it and waits. */
  lemma FirstFails(config: TusConfig, honest: bool, c: System, job: Job) returns (s: System)
    requires Reached(config, 1, honest, c) && FirstUnderWay(c, job)
    ensures Reached(config, 1, honest, s) && Sized(s) && s.queue == c.queue && |s.workers| == 1 && s.channels[0] == []
    ensures s.workers[0].stage.Waiting? && s.workers[0].run.job == job && s.workers[0].signal.status.Error?
  {
    var fail := Work(0, Exited(Failed(InvalidRequest)), NOWHERE);
    ReachStep(config, 1, honest, c, fail);
    var d := QueueRace.After(c, fail);
    assert d.workers[0] == NextExited(c.workers[0], Failed(InvalidRequest));
    s := Reports(config, honest, d, InvalidRequest);
  }

  lemma Reports(config: TusConfig, honest: bool, d: System, error: TusError) returns (s: System)
    requires Reached(config, 1, honest, d) && Sized(d) && |d.workers| == 1 && d.workers[0].stage == Owing(Fail(error))
    ensures Reached(config, 1, honest, s) && Sized(s) && s.queue == d.queue && s.channels == d.channels
    ensures |s.workers| == 1 && s.workers[0].stage.Waiting? && s.workers[0].run.job == d.workers[0].run.job
    ensures s.workers[0].signal.status.Error?
  {
    var report := Work(0, Wrote(Fail(error)), NOWHERE);
    ReachStep(config, 1, honest, d, report);
    s := QueueRace.After(d, report);
    assert s.workers[0] == NextWrote(d.workers[0], Fail(error));
  }

  /** The next round marks the item failed, and it is retried. */
  lemma FailedIsRetried(config: TusConfig, honest: bool, e: System, now: Millis) returns (s: System, item: Item)
    requires Reached(config, 1, honest, e) && Sized(e) && QueueLaws.Inv(e.queue) && |e.workers| == 1
    requires e.channels[0] == [] && e.workers[0].stage.Waiting? && e.workers[0].signal.status.Error?
    requires |e.queue.items| == 1 && e.queue.items[0].id == 0 && e.queue.slots == [Some(0)]
    ensures Reached(config, 1, honest, s) && s == e.(queue := State([item], [None], e.queue.nextId))
    ensures item.status.Queued? && item.id == 0
  {
    FailedRound(e, now);
    ReachStep(config, 1, honest, e, Round(now));
    s, item := RetriesFirst(config, honest, AfterRound(e, now));
  }

  lemma RetriesFirst(config: TusConfig, honest: bool, f: System) returns (s: System, item: Item)
    requires Reached(config, 1, honest, f) && Sized(f) && f.queue.slots == [None]
    requires |f.queue.items| == 1 && f.queue.items[0].id == 0 && IsTerminal(f.queue.items[0].status)
    ensures Reached(config, 1, honest, s) && s == f.(queue := f.queue.(items := [item]))
    ensures item.status.Queued? && item.id == 0
  {
    item := Retried(f.queue.items[0]);
    assert Find(f.queue.items, 0) == Some(0);
    ReachStep(config, 1, honest, f, Operate(RetryItem(0)));
    s := QueueRace.After(f, Operate(RetryItem(0)));
    assert s.queue.items == [item];
  }

  /** The stamp matters for a retried item too: its worker still shows how its earlier upload
      failed, and without the stamp the retried item would be marked failed at once. */
  lemma RetryNeedsStamp(config: TusConfig, honest: bool, file: File, options: StartOptions, now: Millis, later: Millis)
    ensures exists s ::
      && Reached(config, 1, honest, s) && Good(s) && Suspended(s) && |s.workers| == 1 && Deals(s, now, 0)
      && |s.queue.items| == 1 && s.workers[0].run.job.ticket == s.queue.items[0].id
      && Sized(Unstamped(s, now)) && !Fair(Unstamped(s, now), later)
  {
    var c := FirstStarts(config, honest, file, options, now);
    var e := FirstFails(config, honest, c, Job(file, options, 0));
    var s, item := FailedIsRetried(config, honest, e, now);
    ReachedIsGood(config, 1, honest, s);
    OneItemRound(s, item, now);
    UnstampedIsUnfair(s, now, 0, later);
  }
}
