/** What every conforming history guarantees, whatever commands, replies and delays produced it. */
module RunLaws {
  import opened Wrappers
  import opened UploadTypes
  import opened RunMonitor
  import MatchKey
  import Persistence
  import Server

  // ---------------------------------------------------------------- the invariant

  /** Progress shown never exceeds a known total. */
  ghost predicate WithinTotal(m: Monitor) {
    m.signal.bytesTotal.Some? ==> m.signal.bytesTotal.value == m.Size() && m.signal.bytesUploaded <= m.Size()
  }

  /** Where the store stands: what it last accepted in this run, and how old that is. */
  ghost predicate SaveSound(m: Monitor) {
    && m.save.persisted <= m.run.offset
    && (!m.save.unchecked && !m.save.due ==> m.run.offset - m.save.persisted < Threshold(m.Size()))
    && (!m.save.refused && !m.run.cleared ==>
          m.save.saved.Some? && m.save.saved.value.bytesUploaded == m.save.persisted)
    && (m.run.cleared ==> m.run.offset == m.Size() && !m.save.unchecked && !m.save.due)
  }

  ghost predicate StageSound(m: Monitor) {
    match m.stage
    case Starting(_) => !m.paused
    case Creating =>
      && (m.run.cleared ==> m.Resuming())
      && !m.run.created && !m.run.idle && m.save.stamp.None? && m.save.saved.None?
      && m.tries.patches == m.tries.heads == m.tries.rests == 0 && !m.save.unchecked && !m.save.due
    case Running =>
      && m.run.created && !m.run.idle && m.run.offset <= m.Size()
      && (if m.save.stamp.Some? then SaveSound(m)
          else !m.run.cleared && m.save.saved.None? && !m.save.unchecked && !m.save.due)
    case Leaving(outcome) =>
      && (outcome.Done? ==> m.signal.status == Complete && m.signal.bytesUploaded == m.Size() && m.run.cleared)
      && (Interrupted(m.stage) && m.run.idle ==> IsReset(m.signal))
      && (outcome.Failed? ==>
            m.run.created && !m.run.cleared && m.run.offset <= m.Size() && m.save.stamp.Some? && SaveSound(m)
            && !m.save.unchecked && !m.save.due)
    case Owing(u) => u.ClearIdle? || u.SetStatus? || u.Fail?
    case Waiting => true
  }

  ghost predicate Sound(config: TusConfig, m: Monitor) {
    && m.tries.patches <= config.maxRetries + 1 && m.tries.heads <= config.maxRetries + 1
    && (m.run.created ==> WithinTotal(m))
    && StageSound(m)
  }

  lemma TakingIdly(config: TusConfig, m: Monitor, cmd: Command)
    requires Sound(config, m) && m.stage.Waiting?
    ensures Sound(config, NextTook(m, cmd))
  {
    assert StageTook(m, cmd).Starting? ==> cmd.Start?;
  }

  lemma TakingInRun(config: TusConfig, m: Monitor, cmd: Command)
    requires Sound(config, m) && (m.stage.Creating? || m.stage.Running?)
    ensures Sound(config, NextTook(m, cmd))
  {
    assert NextTook(m, cmd).stage ==
           if cmd.Start? then Leaving(Restart(cmd.job)) else if cmd.Abort? then Leaving(Aborted) else m.stage;
  }

  lemma TakingKeepsSound(config: TusConfig, m: Monitor, cmd: Command)
    requires Sound(config, m) && AtAwait(m)
    ensures Sound(config, NextTook(m, cmd))
  {
    if m.stage.Waiting? {
      TakingIdly(config, m, cmd);
    } else {
      TakingInRun(config, m, cmd);
    }
  }

  lemma BindingKeepsSound(config: TusConfig, m: Monitor, u: Update)
    requires Sound(config, m) && MayWrite(m, u) && m.stage.Creating?
    ensures Sound(config, NextWrote(m, u))
  {
  }

  lemma ShowingKeepsSound(config: TusConfig, m: Monitor, u: Update)
    requires Sound(config, m) && MayWrite(m, u) && m.stage.Running?
    ensures Sound(config, NextWrote(m, u))
  {
    match u
    case SetStatus(_) =>
    case Progress(_) =>
    case Finish(_) =>
  }

  lemma LeavingKeepsSound(config: TusConfig, m: Monitor, u: Update)
    requires Sound(config, m) && MayWrite(m, u) && (m.stage.Leaving? || m.stage.Owing?)
    ensures Sound(config, NextWrote(m, u))
  {
  }

  lemma WritingKeepsSound(config: TusConfig, m: Monitor, u: Update)
    requires Sound(config, m) && MayWrite(m, u)
    ensures Sound(config, NextWrote(m, u))
  {
    match m.stage
    case Creating => BindingKeepsSound(config, m, u);
    case Running => ShowingKeepsSound(config, m, u);
    case _ => LeavingKeepsSound(config, m, u);
  }

  lemma AskingKeepsSound(config: TusConfig, m: Monitor, request: Request)
    requires Sound(config, m) && MayAsk(config, m, request)
    ensures Sound(config, NextAsked(m, request))
  {
  }

  lemma ClockKeepsSound(config: TusConfig, m: Monitor, now: Millis)
    requires Sound(config, m) && m.stage.Running? && m.save.unchecked
    ensures Sound(config, NextClock(m, now))
  {
  }

  lemma StoringKeepsSound(config: TusConfig, m: Monitor, entry: Persistence.ResumableEntry, at: Millis, ok: bool)
    requires Sound(config, m) && MayStore(config, m, entry, at)
    ensures Sound(config, NextStored(m, entry, at, ok))
  {
  }

  lemma ExitingKeepsSound(config: TusConfig, m: Monitor, outcome: Outcome)
    requires Sound(config, m) && MayExit(config, m, outcome)
    ensures Sound(config, NextExited(m, outcome))
  {
  }

  lemma DenyingKeepsSound(config: TusConfig, m: Monitor, error: NetError)
    requires Sound(config, m) && m.stage.Running? && AtAwait(m)
    ensures Sound(config, NextDenied(m, error))
  {
  }

  lemma BeginningKeepsSound(config: TusConfig, m: Monitor, job: Job, key: string)
    requires Sound(config, m)
    ensures Sound(config, NextBegan(m, job, key))
  {
  }

  /** Events that change one mark of the automaton, or none. */
  lemma MarkingKeepsSound(config: TusConfig, m: Monitor, e: Event)
    requires Sound(config, m) && Allowed(config, m, e)
    requires e.Stamped? || e.HungUp? || e.Cleared? || e.Rested? || e.Looked? || e.Forgot?
    ensures Sound(config, Next(m, e))
  {
    match e
    case Stamped => assert Next(m, e) == m.(signal := STAMPED);
    case HungUp => assert Next(m, e) == m.(stage := Leaving(Aborted));
    case Cleared =>
    case Rested(_) =>
    case Looked =>
    case Forgot =>
  }

  lemma {:induction false} StepKeepsSound(config: TusConfig, m: Monitor, e: Event)
    requires Sound(config, m) && Allowed(config, m, e)
    ensures Sound(config, Next(m, e))
  {
    match e
    case Took(cmd) => TakingKeepsSound(config, m, cmd);
    case Wrote(u) => WritingKeepsSound(config, m, u);
    case Asked(request) => AskingKeepsSound(config, m, request);
    case Clock(now) => ClockKeepsSound(config, m, now);
    case Stored(entry, at, ok) => StoringKeepsSound(config, m, entry, at, ok);
    case Exited(outcome) => ExitingKeepsSound(config, m, outcome);
    case Denied(error) => DenyingKeepsSound(config, m, error);
    case Began(job, key) => BeginningKeepsSound(config, m, job, key);
    case _ => MarkingKeepsSound(config, m, e);
  }

  lemma {:induction false} ConformingIsSound(config: TusConfig, h: History)
    requires Conforms(config, h)
    ensures Sound(config, After(h))
  {
    match h
    case Blank =>
    case Then(past, event) =>
      ConformingIsSound(config, past);
      StepKeepsSound(config, After(past), event);
  }

  // ---------------------------------------------------------------- requests

  /** Every PATCH carries a non-empty slice of the file at the acknowledged offset, as long as
      the chunk size except at the file's end, and none is sent while the upload is held. */
  lemma PatchCarriesSlice(config: TusConfig, h: History, offset: nat, body: Bytes)
    requires Conforms(config, Then(h, Asked(Patch(offset, body))))
    ensures var m := After(h);
            && offset == m.run.offset && body != [] && !m.paused
            && Server.IsSlice(m.run.job.file.content, Server.Patch(offset, body))
            && |body| <= (if config.chunkSize == 0 then 1 else config.chunkSize)
            && (|body| < config.chunkSize ==> offset + |body| == |m.run.job.file.content|)
  {
  }

  /** A new run, a new upload, a new acknowledged offset or a pause ends a stretch of requests. */
  predicate EndsStretch(e: Event) {
    e.Began? || (e.Took? && e.cmd.Pause?) || (e.Wrote? && (e.update.Progress? || e.update.Bind?))
  }

  /** What a history shows about the current stretch. */
  datatype Stretch = Stretch(patches: nat, heads: nat, failures: nat, rests: nat, looked: bool)

  const NEW_STRETCH: Stretch := Stretch(0, 0, 0, 0, false)

  function StretchStep(s: Stretch, e: Event): Stretch {
    if EndsStretch(e) then NEW_STRETCH
    else match e
         case Asked(request) =>
           s.(patches := if request.Patch? then s.patches + 1 else s.patches,
              heads := if request.RecoveryHead? then s.heads + 1 else s.heads)
         case Denied(_) => s.(failures := s.failures + 1)
         case Rested(_) => s.(rests := s.rests + 1)
         case Looked => s.(looked := true)
         case Took(_) => s.(looked := true)
         case _ => s
  }

  function StretchOf(h: History): Stretch {
    match h
    case Blank => NEW_STRETCH
    case Then(past, e) => StretchStep(StretchOf(past), e)
  }

  lemma CountersStep(m: Monitor, e: Event, s: Stretch)
    requires s.patches <= m.tries.patches && s.heads <= m.tries.heads
    ensures var r := StretchStep(s, e); r.patches <= Next(m, e).tries.patches && r.heads <= Next(m, e).tries.heads
  {
    match e
    case Took(cmd) => assert Next(m, e) == NextTook(m, cmd);
    case Wrote(u) => assert Next(m, e) == NextWrote(m, u);
    case Denied(error) => assert Next(m, e) == NextDenied(m, error);
    case _ =>
  }

  lemma {:induction false} CountersCount(config: TusConfig, h: History)
    requires Conforms(config, h)
    ensures StretchOf(h).patches <= After(h).tries.patches && StretchOf(h).heads <= After(h).tries.heads
  {
    match h
    case Blank =>
    case Then(past, event) =>
      CountersCount(config, past);
      CountersStep(After(past), event, StretchOf(past));
  }

  /** One stretch issues at most `maxRetries + 1` PATCHes and as many recovery HEADs. */
  lemma RequestBudget(config: TusConfig, h: History)
    requires Conforms(config, h)
    ensures StretchOf(h).patches <= config.maxRetries + 1
    ensures StretchOf(h).heads <= config.maxRetries + 1
  {
    CountersCount(config, h);
    ConformingIsSound(config, h);
  }

  /** In an upload under way the automaton counts what the history shows. */
  ghost predicate Counts(m: Monitor, s: Stretch) {
    m.stage.Creating? || m.stage.Running? ==>
      m.tries.patches == s.patches && m.tries.heads == s.heads
      && m.tries.failures == s.failures && m.tries.rests == s.rests && m.tries.looked == s.looked
  }

  lemma CountsTook(m: Monitor, cmd: Command, s: Stretch)
    requires AtAwait(m) && Counts(m, s)
    ensures Counts(NextTook(m, cmd), StretchStep(s, Took(cmd)))
  {
    var next := NextTook(m, cmd);
    if next.stage.Creating? || next.stage.Running? {
      assert next.stage == m.stage;
    }
  }

  lemma CountsWrote(m: Monitor, u: Update, s: Stretch)
    requires MayWrite(m, u) && Counts(m, s)
    ensures Counts(NextWrote(m, u), StretchStep(s, Wrote(u)))
  {
    match m.stage
    case Creating =>
    case Running =>
    case Owing(_) =>
    case Leaving(_) =>
  }

  lemma CountsStep(config: TusConfig, m: Monitor, e: Event, s: Stretch)
    requires Allowed(config, m, e) && Counts(m, s)
    ensures Counts(Next(m, e), StretchStep(s, e))
  {
    match e
    case Took(cmd) => CountsTook(m, cmd, s);
    case Wrote(u) => CountsWrote(m, u, s);
    case Exited(outcome) => assert !NextExited(m, outcome).stage.Creating? && !NextExited(m, outcome).stage.Running?;
    case Stored(entry, at, ok) => assert NextStored(m, entry, at, ok).tries == m.tries;
    case Clock(now) => assert NextClock(m, now).tries == m.tries;
    case Denied(error) => assert NextDenied(m, error).tries.patches == m.tries.patches;
    case _ =>
  }

  lemma {:induction false} CountersAgree(config: TusConfig, h: History)
    requires Conforms(config, h)
    ensures Counts(After(h), StretchOf(h))
  {
    match h
    case Blank =>
    case Then(past, event) =>
      CountersAgree(config, past);
      CountsStep(config, After(past), event, StretchOf(past));
  }

  /** No PATCH is repeated blindly: within one stretch as many recovery HEADs as PATCHes have
      gone out before each PATCH, so the first goes out at once and each later one only after
      the server was asked where it stands; and no such HEAD goes out before a PATCH. */
  lemma NoBlindRetry(config: TusConfig, h: History, request: Request)
    requires Conforms(config, Then(h, Asked(request)))
    ensures var s := StretchOf(h);
            && (request.Patch? ==> s.patches <= s.heads && s.patches <= config.maxRetries)
            && (request.RecoveryHead? ==> s.patches > 0 && s.heads <= config.maxRetries)
  {
    CountersAgree(config, h);
  }

  /** A PATCH never follows a failed request directly: a HEAD has been answered in between. */
  lemma NoPatchAfterFailure(config: TusConfig, h: History, error: NetError, next: Event)
    requires Conforms(config, Then(Then(h, Denied(error)), next))
    ensures !(next.Asked? && next.request.Patch?)
  {
    assert After(Then(h, Denied(error))) == NextDenied(After(h), error);
  }

  /** After a new upload, new progress or a pause the channel is looked at before the next
      PATCH. */
  lemma LookBeforePatch(config: TusConfig, h: History, offset: nat, body: Bytes)
    requires Conforms(config, Then(h, Asked(Patch(offset, body))))
    ensures StretchOf(h).looked
  {
    CountersAgree(config, h);
  }

  /** Failures that may pass: an error of the server, a timeout, a conflict, a rate limit, and
      what the transport itself calls retryable. */
  predicate Transient(e: NetError) {
    e == TransportFailure(true) || (e.UnexpectedResponse? && (e.status in {408, 409, 429} || e.status >= 500))
  }

  /** Any other failure ends the run at once and is its result. */
  lemma FatalFailureEndsRun(config: TusConfig, h: History, error: NetError, next: Event)
    requires Conforms(config, Then(Then(h, Denied(error)), next)) && !Transient(error)
    ensures next == Exited(Failed(if error.UnexpectedResponse? then TusError.Server(error.status) else Transport))
  {
    assert After(Then(h, Denied(error))) == NextDenied(After(h), error);
  }

  /** A run that ends over a transient failure has met more failures in this stretch than it
      has retries. */
  lemma TransientFailureIsRetried(config: TusConfig, h: History, error: NetError, outcome: Outcome)
    requires Conforms(config, Then(Then(h, Denied(error)), Exited(outcome))) && Transient(error)
    ensures outcome == Failed(ToTusError(error)) && StretchOf(Then(h, Denied(error))).failures > config.maxRetries
  {
    CountersAgree(config, Then(h, Denied(error)));
    assert After(Then(h, Denied(error))) == NextDenied(After(h), error);
  }

  /** Every repeated request of a stretch has been waited for: no recovery HEAD but the first
      after a PATCH, and no PATCH after a recovery HEAD, goes out before another wait began. */
  lemma RetriesAreWaitedFor(config: TusConfig, h: History, request: Request)
    requires Conforms(config, Then(h, Asked(request))) && (request.Patch? || request.RecoveryHead?)
    ensures StretchOf(h).rests == StretchOf(h).heads
  {
    CountersAgree(config, h);
  }

  /** The longest wait is the configured delay before the first retry and doubles with each of
      the next eight, up to 32 bits. */
  lemma LongestWaitDoubles(config: TusConfig, attempt: nat)
    ensures LongestWait(config, 0) == if config.retryDelayMs < 0xffff_ffff then config.retryDelayMs else 0xffff_ffff
    ensures attempt >= 8 ==> LongestWait(config, attempt + 1) == LongestWait(config, attempt)
    ensures attempt < 8 ==>
      LongestWait(config, attempt + 1) ==
      if 2 * LongestWait(config, attempt) < 0xffff_ffff then 2 * LongestWait(config, attempt) else 0xffff_ffff
  {
    var last := Min(attempt, 8);
    assert config.retryDelayMs * MatchKey.Pow2(0) == config.retryDelayMs;
    if attempt < 8 {
      var p := MatchKey.Pow2(last);
      assert MatchKey.Pow2(attempt + 1) == 2 * p;
      assert config.retryDelayMs * (2 * p) == 2 * (config.retryDelayMs * p);
    }
  }

  /** No wait of a stretch exceeds the longest one for its place among them. */
  lemma WaitsAreBounded(config: TusConfig, h: History, delay: nat)
    requires Conforms(config, Then(h, Rested(delay)))
    ensures StretchOf(h).rests < StretchOf(h).heads && delay <= LongestWait(config, StretchOf(h).rests)
  {
    CountersAgree(config, h);
  }

  /** A POST carries the whole file or nothing, and the whole only of a file of at most the
      configured size. */
  lemma BodyRidesOnPost(config: TusConfig, h: History, payload: Bytes)
    requires Conforms(config, Then(h, Asked(CreateWithBody(payload))))
    ensures payload == After(h).run.job.file.content && 0 < |payload| <= config.creationWithUploadThreshold
  {
  }

  /** The latest request of the current run, unless the capabilities were forgotten since. */
  function LatestAsked(h: History): Option<Request> {
    match h
    case Blank => None
    case Then(past, e) =>
      if e.Asked? then Some(e.request) else if e.Began? || e.Forgot? then None else LatestAsked(past)
  }

  lemma AskedStep(m: Monitor, e: Event)
    ensures Next(m, e).tries.asked ==
            if e.Asked? then Some(e.request) else if e.Began? || e.Forgot? then None else m.tries.asked
  {
    match e
    case Took(cmd) => assert Next(m, e) == NextTook(m, cmd);
    case Wrote(u) => assert Next(m, e) == NextWrote(m, u);
    case _ =>
  }

  lemma {:induction false} AskedAgrees(h: History)
    ensures After(h).tries.asked == LatestAsked(h)
  {
    match h
    case Blank =>
    case Then(past, event) =>
      AskedAgrees(past);
      AskedStep(After(past), event);
  }

  /** After a POST with the body, a plain POST follows only once the cached capabilities that
      suggested it are forgotten. */
  lemma ForgetsBeforePlainPost(config: TusConfig, h: History)
    requires Conforms(config, Then(h, Asked(Create)))
    ensures !(LatestAsked(h).Some? && LatestAsked(h).value.CreateWithBody?)
  {
    AskedAgrees(h);
  }

  // ---------------------------------------------------------------- commands

  function Starts(commands: seq<Command>): seq<Job> {
    if commands == [] then [] else
      var last := commands[|commands| - 1];
      Starts(commands[..|commands| - 1]) + (if last.Start? then [last.job] else [])
  }

  /** The runs that began, in order. */
  function Begun(h: History): seq<Job> {
    match h
    case Blank => []
    case Then(past, e) => Begun(past) + (if e.Began? then [e.job] else [])
  }

  /** A `Start` that was taken and whose run is about to begin. */
  function Due(s: Stage): Option<Job> {
    if s.Starting? then Some(s.job)
    else if s.Leaving? && s.outcome.Restart? then Some(s.outcome.job)
    else None
  }

  function AsSeq(job: Option<Job>): seq<Job> {
    if job.Some? then [job.value] else []
  }

  lemma StartsAppend(commands: seq<Command>, cmd: Command)
    ensures Starts(commands + [cmd]) == Starts(commands) + (if cmd.Start? then [cmd.job] else [])
  {
    assert (commands + [cmd])[..|commands|] == commands;
  }

  lemma DueStep(config: TusConfig, m: Monitor, e: Event)
    requires Allowed(config, m, e)
    ensures var before, after := Due(m.stage), Due(Next(m, e).stage);
            if e.Took? && e.cmd.Start? then before == None && after == Some(e.cmd.job)
            else if e.Began? then before == Some(e.job) && after == None
            else after == before
  {
    match e
    case Took(cmd) => assert Due(StageTook(m, cmd)) == if cmd.Start? then Some(cmd.job) else None;
    case Wrote(u) => assert Due(StageWrote(m, u)) == Due(m.stage);
    case Exited(outcome) =>
      assert Due(NextExited(m, outcome).stage) == if outcome.Restart? then Some(outcome.job) else None;
    case _ =>
  }

  /** The runs are exactly the `Start` commands taken, in channel order. */
  lemma {:induction false} RunsAreStarts(config: TusConfig, h: History)
    requires Conforms(config, h)
    ensures Starts(Taken(h)) == Begun(h) + AsSeq(Due(After(h).stage))
  {
    match h
    case Blank =>
    case Then(past, event) =>
      RunsAreStarts(config, past);
      DueStep(config, After(past), event);
      NextDue(Taken(past), Begun(past), Due(After(past).stage), event, Due(After(h).stage));
  }

  lemma NextDue(taken: seq<Command>, begun: seq<Job>, before: Option<Job>, e: Event, after: Option<Job>)
    requires Starts(taken) == begun + AsSeq(before)
    requires if e.Took? && e.cmd.Start? then before == None && after == Some(e.cmd.job)
             else if e.Began? then before == Some(e.job) && after == None
             else after == before
    ensures Starts(taken + (if e.Took? then [e.cmd] else [])) ==
            begun + (if e.Began? then [e.job] else []) + AsSeq(after)
  {
    if e.Took? {
      StartsAppend(taken, e.cmd);
    } else {
      assert taken + [] == taken;
    }
  }

  /** The last Pause or Resume taken in the current run was a Pause. */
  function HeldInRun(h: History): bool {
    match h
    case Blank => false
    case Then(past, e) => HoldStep(HeldInRun(past), e)
  }

  function HoldStep(held: bool, e: Event): bool {
    if e.Began? then false
    else if e.Took? && (e.cmd.Pause? || e.cmd.Resume?) then e.cmd.Pause?
    else held
  }

  /** The last status that an upload wrote for itself. */
  function LastStatus(h: History): UploadStatus {
    match h
    case Blank => Idle
    case Then(past, e) => StatusStep(LastStatus(past), e)
  }

  function StatusStep(status: UploadStatus, e: Event): UploadStatus {
    if e.Wrote? && (e.update.Bind? || e.update.SetStatus?) then e.update.status else status
  }

  ghost predicate Mirrors(m: Monitor, held: bool, status: UploadStatus) {
    && (m.stage.Creating? || m.stage.Running? ==> m.paused == held)
    && (m.stage.Running? ==> m.shown == status)
  }

  lemma MirrorTook(m: Monitor, cmd: Command, held: bool, status: UploadStatus)
    requires AtAwait(m) && Mirrors(m, held, status)
    ensures Mirrors(NextTook(m, cmd), HoldStep(held, Took(cmd)), status)
  {
    var next := NextTook(m, cmd);
    assert next.shown == m.shown && next.stage == StageTook(m, cmd);
    if next.stage.Creating? || next.stage.Running? {
      assert next.stage == m.stage;
    }
  }

  lemma MirrorWrote(m: Monitor, u: Update, held: bool, status: UploadStatus)
    requires MayWrite(m, u) && Mirrors(m, held, status)
    ensures Mirrors(NextWrote(m, u), held, StatusStep(status, Wrote(u)))
  {
    match m.stage
    case Creating =>
    case Running =>
    case Owing(_) =>
    case Leaving(_) =>
  }

  lemma MirrorStep(config: TusConfig, m: Monitor, e: Event, held: bool, status: UploadStatus)
    requires Sound(config, m) && Allowed(config, m, e) && Mirrors(m, held, status)
    ensures Mirrors(Next(m, e), HoldStep(held, e), StatusStep(status, e))
  {
    match e
    case Took(cmd) => MirrorTook(m, cmd, held, status);
    case Wrote(u) => MirrorWrote(m, u, held, status);
    case Exited(outcome) => assert !NextExited(m, outcome).stage.Creating? && !NextExited(m, outcome).stage.Running?;
    case Began(job, key) =>
    case Asked(request) => assert NextAsked(m, request).stage == m.stage;
    case Clock(now) => assert NextClock(m, now).stage == m.stage;
    case Denied(error) => assert NextDenied(m, error).stage == m.stage || NextDenied(m, error).stage.Leaving?;
    case Rested(delay) =>
    case Looked =>
    case Forgot =>
    case Stored(entry, at, ok) => assert NextStored(m, entry, at, ok).stage == m.stage;
    case Stamped =>
    case HungUp =>
    case Cleared =>
  }

  lemma {:induction false} PausedMeansHeld(config: TusConfig, h: History)
    requires Conforms(config, h)
    ensures Mirrors(After(h), HeldInRun(h), LastStatus(h))
  {
    match h
    case Blank =>
    case Then(past, event) =>
      PausedMeansHeld(config, past);
      ConformingIsSound(config, past);
      MirrorStep(config, After(past), event, HeldInRun(past), LastStatus(past));
  }

  /** Points where an upload under way lets go of the processor: it sends a request, or looks
      for a command. */
  predicate Yields(e: Event) {
    e.Took? || e.HungUp? || (e.Asked? && (e.request.Patch? || e.request.RecoveryHead?))
  }

  /** Whenever an upload under way looks for a command or sends a request, the status it last
      wrote says whether it is held; and it sends nothing while it is held. */
  lemma StatusMirrorsPause(config: TusConfig, h: History, e: Event)
    requires Conforms(config, Then(h, e)) && After(h).stage.Running? && Yields(e)
    ensures LastStatus(h) == (if HeldInRun(h) then UploadStatus.Paused else Uploading)
    ensures e.Asked? ==> !HeldInRun(h)
  {
    PausedMeansHeld(config, h);
  }

  // ---------------------------------------------------------------- endings

  /** An Abort, a Start or the loss of all senders during a run leaves it nothing to do but remove
      its entry, reset its state and end, aborted or for the new start. */
  lemma InterruptionEndsRun(config: TusConfig, h: History, cause: Event, e: Event)
    requires Conforms(config, Then(Then(h, cause), e)) && (After(h).stage.Creating? || After(h).stage.Running?)
    requires cause.HungUp? || (cause.Took? && (cause.cmd.Abort? || cause.cmd.Start?))
    ensures e.Cleared? || e == Wrote(ResetIdle)
            || e == Exited(if cause.Took? && cause.cmd.Start? then Restart(cause.cmd.job) else Aborted)
  {
    if cause.Took? {
      assert After(Then(h, cause)) == NextTook(After(h), cause.cmd);
    }
  }

  /** What the current run has done so far, read off its events: whether it showed its upload
      and removed its entry, the first creation time it used, the last entry the store accepted,
      and whether the last write was refused. */
  datatype Deeds = Deeds(
    bound: bool, cleared: bool, stamp: Option<Millis>, accepted: Option<Persistence.ResumableEntry>, refused: bool)

  const NOTHING_DONE: Deeds := Deeds(false, false, None, None, false)

  function DeedsStep(d: Deeds, e: Event): Deeds {
    if e.Began? then NOTHING_DONE
    else Deeds(d.bound || (e.Wrote? && e.update.Bind?),
               d.cleared || e.Cleared?,
               if e.Stored? && d.stamp.None? then Some(e.entry.storedAt) else d.stamp,
               if e.Stored? && e.ok then Some(e.entry) else d.accepted,
               if e.Stored? then !e.ok else d.refused)
  }

  function DeedsInRun(h: History): Deeds {
    match h
    case Blank => NOTHING_DONE
    case Then(past, e) => DeedsStep(DeedsInRun(past), e)
  }

  predicate Underway(s: Stage) {
    s.Creating? || s.Running? || s.Leaving?
  }

  ghost predicate Tells(m: Monitor, d: Deeds) {
    && m.run.created == d.bound && m.run.cleared == d.cleared && m.save.stamp == d.stamp && m.save.refused == d.refused
    && m.save.saved == (if d.cleared then None else d.accepted)
  }

  lemma DeedsTellWrote(config: TusConfig, m: Monitor, u: Update, d: Deeds)
    requires Sound(config, m) && MayWrite(m, u) && Underway(m.stage) && Tells(m, d)
    ensures Tells(NextWrote(m, u), DeedsStep(d, Wrote(u)))
  {
  }

  lemma DeedsTellStored(config: TusConfig, m: Monitor, entry: Persistence.ResumableEntry, at: Millis, ok: bool,
                        d: Deeds)
    requires Sound(config, m) && MayStore(config, m, entry, at) && Tells(m, d)
    ensures Tells(NextStored(m, entry, at, ok), DeedsStep(d, Stored(entry, at, ok)))
  {
  }

  /** Events that neither show, store nor remove anything leave the deeds alone. */
  lemma DeedsTellOther(config: TusConfig, m: Monitor, e: Event, d: Deeds)
    requires Tells(m, d) && Allowed(config, m, e)
    requires !e.Began? && !e.Wrote? && !e.Stored? && !e.Cleared?
    ensures Tells(Next(m, e), DeedsStep(d, e))
  {
    match e
    case Took(cmd) => assert Tells(NextTook(m, cmd), d);
    case Asked(request) => assert Tells(NextAsked(m, request), d);
    case Clock(now) => assert Tells(NextClock(m, now), d);
    case Denied(error) => assert Tells(NextDenied(m, error), d);
    case Exited(outcome) => assert Tells(NextExited(m, outcome), d);
    case _ =>
  }

  lemma OnlyBeganEnters(m: Monitor, e: Event, config: TusConfig)
    requires Allowed(config, m, e) && !Underway(m.stage) && !e.Began?
    ensures !Underway(Next(m, e).stage)
  {
    match e
    case Took(cmd) => assert m.stage.Waiting? && !Underway(StageTook(m, cmd));
    case Wrote(u) => assert m.stage.Owing? && StageWrote(m, u).Waiting?;
    case _ =>
  }

  lemma DeedsTellStep(config: TusConfig, m: Monitor, e: Event, d: Deeds)
    requires Sound(config, m) && Allowed(config, m, e) && (Underway(m.stage) ==> Tells(m, d))
    ensures Underway(Next(m, e).stage) ==> Tells(Next(m, e), DeedsStep(d, e))
  {
    if e.Began? {
      assert Tells(NextBegan(m, e.job, e.key), NOTHING_DONE);
    } else if !Underway(m.stage) {
      OnlyBeganEnters(m, e, config);
    } else if e.Wrote? {
      DeedsTellWrote(config, m, e.update, d);
    } else if e.Stored? {
      DeedsTellStored(config, m, e.entry, e.at, e.ok, d);
    } else if !e.Cleared? {
      DeedsTellOther(config, m, e, d);
    }
  }

  lemma {:induction false} DeedsTell(config: TusConfig, h: History)
    requires Conforms(config, h) && Underway(After(h).stage)
    ensures Tells(After(h), DeedsInRun(h))
  {
    DeedsTellOrIdle(config, h);
  }

  lemma {:induction false} DeedsTellOrIdle(config: TusConfig, h: History)
    requires Conforms(config, h)
    ensures Underway(After(h).stage) ==> Tells(After(h), DeedsInRun(h))
  {
    match h
    case Blank =>
    case Then(past, event) =>
      DeedsTellOrIdle(config, past);
      ConformingIsSound(config, past);
      DeedsTellStep(config, After(past), event, DeedsInRun(past));
  }

  /** What each outcome leaves behind. */
  lemma ExitContract(config: TusConfig, h: History, outcome: Outcome)
    requires Conforms(config, Then(h, Exited(outcome)))
    ensures var m, d := After(h), DeedsInRun(h);
            match outcome
            case Done => m.signal.status == Complete && m.signal.bytesUploaded == m.Size() && d.cleared
            case Failed(e) =>
              d.cleared ==> m.Resuming() && !d.bound && e.Server? && e.status in {400, 404, 410}
            case _ =>
              && m.signal == UploadState(Idle, 0, None, None, m.signal.error)
              && (d.bound || m.Resuming() ==> d.cleared)
  {
    ConformingIsSound(config, h);
    DeedsTell(config, h);
  }

  /** A run that fails after it showed its upload leaves in place the last entry that the store
      accepted; if the last write was accepted, there is one and it is nearly up to date. */
  lemma FailureKeepsEntry(config: TusConfig, h: History, error: TusError)
    requires Conforms(config, Then(h, Exited(Failed(error)))) && DeedsInRun(h).bound
    ensures var m, d := After(Then(h, Exited(Failed(error)))), DeedsInRun(h);
            && m.save.saved == d.accepted
            && (!d.refused ==>
                  && d.accepted.Some? && d.accepted.value.bytesUploaded <= m.run.offset
                  && m.run.offset - d.accepted.value.bytesUploaded < Max(1, m.Size() / 20))
  {
    ConformingIsSound(config, h);
    DeedsTell(config, h);
  }

  /** Every write of the stored entry names this file, its upload and the acknowledged offset,
      and all rewrites keep its creation time. */
  lemma CreationTimeIsKept(config: TusConfig, h: History, entry: Persistence.ResumableEntry, at: Millis, ok: bool)
    requires Conforms(config, Then(h, Stored(entry, at, ok)))
    ensures DeedsInRun(h).stamp.Some? ==> entry.storedAt == DeedsInRun(h).stamp.value
    ensures var run, file := After(h).run, After(h).run.job.file;
            entry == Persistence.ResumableEntry(run.key, config.endpoint, file.name, |file.content|, file.modified,
                                                run.url, run.offset, entry.storedAt)
  {
    DeedsTell(config, h);
  }

  /** Whenever an upload under way looks for a command or sends a request, the last entry the
      store accepted in this run is behind by less than the threshold, unless the store refused
      the last write. */
  lemma UnsavedProgressIsSmall(config: TusConfig, h: History, e: Event)
    requires Conforms(config, Then(h, e)) && After(h).stage.Running? && Yields(e)
    ensures var m, d := After(h), DeedsInRun(h);
            || d.refused
            || (&& d.accepted.Some? && m.save.saved == d.accepted && d.accepted.value.bytesUploaded <= m.run.offset
                && m.run.offset - d.accepted.value.bytesUploaded < Max(1, m.Size() / 20))
  {
    ConformingIsSound(config, h);
    DeedsTell(config, h);
  }

  /** From the first shown upload on, no update of its run, completion included, shows more
      bytes than a known total. */
  lemma ProgressWithinTotal(config: TusConfig, h: History)
    requires Conforms(config, h) && After(h).run.created
    ensures var s := After(h).signal; s.bytesTotal.Some? ==> s.bytesUploaded <= s.bytesTotal.value
  {
    ConformingIsSound(config, h);
  }
}
