/** The upload engine: the outer command loop, one upload run with its nested retry and
    recovery loops, and the helpers that race a request against the command channel. */
module Engine {
  import opened Wrappers
  import opened UploadTypes
  import opened Persistence
  import opened RunMonitor
  import opened World
  import RunLaws
  import Server

  // ---------------------------------------------------------------- checks on server answers

  function ValidateServerOffset(offset: nat, fileSize: nat): Option<TusError> {
    if offset > fileSize then Some(Transport) else None
  }

  function ValidateResumeInfo(info: UploadInfo, fileSize: nat): Option<TusError> {
    if info.length.Some? && info.length.value != fileSize then Some(Transport)
    else ValidateServerOffset(info.offset, fileSize)
  }

  function ValidatePatchOffset(previous: nat, next: nat, fileSize: nat): Option<TusError> {
    if ValidateServerOffset(next, fileSize).Some? then ValidateServerOffset(next, fileSize)
    else if next <= previous then Some(Transport)
    else None
  }

  // ---------------------------------------------------------------- the states between calls

  /** Where an uploading run stands: the locals that its loops share. `offset` is what the server
      has acknowledged, the last three record what has been saved for a later session. */
  datatype Place = Place(
    job: Job, key: string, url: string, offset: nat, stamp: Millis, persisted: nat, persistedAt: Millis)

  /** The row that a run at `at` writes. */
  function EntryAt(config: TusConfig, at: Place): ResumableEntry {
    ResumableEntry(at.key, config.endpoint, at.job.file.name, |at.job.file.content|, at.job.file.modified,
                   at.url, at.offset, at.stamp)
  }

  /** The run is still resolving its URL. */
  ghost predicate InCreation(w: World, job: Job, key: string, paused: bool)
    reads w, w.storage
  {
    var m := w.monitor;
    && w.Valid() && w.Kept() && w.conforms
    && m.stage.Creating? && m.run.job == job && m.run.key == key && m.paused == paused
    && !m.run.created && !m.run.cleared && !m.run.idle && m.save.stamp.None? && m.save.saved.None?
    && m.tries.patches == m.tries.heads == 0 && !m.save.unchecked && !m.save.due
  }

  /** The stored bytes begin the file, if the server is honest. */
  ghost predicate Trusted(w: World, content: Bytes)
    reads w
  {
    w.honest ==> Server.Faithful(content, w.resource)
  }

  /** The stored bytes justify the client's offset, if the server is honest. */
  ghost predicate Backed(w: World, content: Bytes, offset: nat)
    reads w
  {
    w.honest ==> Server.Faithful(content, w.resource) && offset <= |w.resource.stored|
  }

  /** The monitor agrees with the run's locals, and nothing is outstanding. */
  ghost predicate RunTracks(run: RunFacts, at: Place) {
    && run == RunFacts(at.job, at.key, at.url, at.offset, true, false, false)
    && at.persisted <= at.offset <= |at.job.file.content|
  }

  ghost predicate SaveTracks(save: SaveFacts, at: Place) {
    && save.stamp == Some(at.stamp) && save.persisted == at.persisted && save.persistedAt == at.persistedAt
    && !save.unchecked && !save.due
  }

  ghost predicate Tracks(m: Monitor, at: Place) {
    m.stage.Running? && RunTracks(m.run, at) && SaveTracks(m.save, at)
  }

  /** The run is uploading, at `offset`, with nothing outstanding. */
  ghost predicate InUpload(w: World, at: Place, paused: bool)
    reads w, w.storage
  {
    && w.Valid() && w.Kept() && w.conforms
    && Tracks(w.monitor, at) && w.monitor.paused == paused && w.monitor.shown == Mirror(paused)
    && Backed(w, at.job.file.content, at.offset)
  }

  /** The run has learnt that it must stop. */
  ghost predicate Stopping(w: World, job: Job, key: string, created: bool, outcome: Outcome)
    reads w, w.storage
  {
    var m := w.monitor;
    && w.Valid() && w.Kept() && w.conforms
    && m.stage == Leaving(outcome) && Interrupted(m.stage)
    && m.run.job == job && m.run.key == key && m.run.created == created && !m.run.cleared && !m.run.idle
    && (created ==> Trusted(w, job.file.content))
  }

  /** The run may end with `outcome`, and what that outcome promises holds. */
  ghost predicate Ready(w: World, job: Job, key: string, outcome: Outcome)
    reads w, w.storage
  {
    && w.Valid() && w.Kept() && w.conforms
    && w.monitor.run.job == job && MayExit(w.config, w.monitor, outcome)
    && (w.monitor.run.created ==> Trusted(w, job.file.content))
    && match outcome
       case Done =>
         && w.state.status == Complete && w.state.bytesUploaded == |job.file.content|
         && StorageKey(key) !in w.storage.rows
         && (w.honest ==> w.resource.stored == job.file.content)
       case Failed(_) => true
       case _ => Withdrawn(w, job, key)
  }

  // ---------------------------------------------------------------- races with the channel

  /** How waiting for a request or a timer ended. */
  datatype Race = Proceed | Abandon | Hold | Switch(job: Job)

  /** A command that ends the run is on its way. */
  predicate WillCut(pending: seq<Command>) {
    exists i | 0 <= i < |pending| :: pending[i].Abort? || pending[i].Start?
  }

  lemma CutRemains(pending: seq<Command>)
    requires pending != []
    ensures WillCut(pending) ==> pending[0].Abort? || pending[0].Start? || WillCut(pending[1..])
  {
    if i :| 0 <= i < |pending| && (pending[i].Abort? || pending[i].Start?) {
      assert i > 0 ==> pending[1..][i - 1] == pending[i];
    }
  }

  /** The requests that an interrupted creation got out before it was dropped. */
  ghost method Attempt(w: World, job: Job, key: string, paused: bool)
    requires InCreation(w, job, key, paused)
    modifies w`strays, w`history, w`monitor, w`conforms
    ensures InCreation(w, job, key, paused)
    ensures old(w.StraysBegin()) ==> w.StraysBegin()
  {
    var left: nat := *;
    while left > 0
      invariant InCreation(w, job, key, paused)
      invariant old(w.StraysBegin()) ==> w.StraysBegin()
    {
      var request: Request := *;
      if MayAsk(w.config, w.monitor, request) {
        w.GoOut(request);
      }
      left := left - 1;
    }
  }

  /** What an interrupting command makes of the run. */
  function OutcomeOf(cmd: Command): Outcome
    requires cmd.Abort? || cmd.Start?
  {
    if cmd.Abort? then Aborted else Restart(cmd.job)
  }

  /** Exactly one command was taken. */
  twostate predicate TookOne(w: World)
    reads w
  {
    old(w.pending) != [] && w.pending == old(w.pending)[1..]
  }

  /** Takes a command while the URL is being resolved. */
  method TakeEarly(w: World, ghost job: Job, ghost key: string, ghost held: bool) returns (cmd: Command)
    requires InCreation(w, job, key, held) && w.pending != []
    modifies w`pending, w`history, w`monitor, w`conforms
    ensures cmd == old(w.pending)[0] && TookOne(w)
    ensures match cmd
            case Pause => InCreation(w, job, key, true) && w.monitor.tries.asked == old(w.monitor.tries.asked)
            case Resume => InCreation(w, job, key, false) && w.monitor.tries.asked == old(w.monitor.tries.asked)
            case _ => Stopping(w, job, key, false, OutcomeOf(cmd))
  {
    cmd := w.Take();
  }

  /** The worker waits while the URL is being resolved. */
  method SuspendEarly(w: World, ghost job: Job, ghost key: string, ghost held: bool)
    requires InCreation(w, job, key, held)
    modifies w`state, w`readings, w`history, w`monitor, w`conforms, w.storage`rows
    ensures InCreation(w, job, key, held) && w.monitor.tries == old(w.monitor.tries)
  {
    w.Suspend();
  }

  /** Waits for a creation request. Pausing and resuming are noted, not acted upon; a closed
      channel cannot interrupt. A request that a command cuts short may have gone out. */
  method RacePreLoop(w: World, ghost job: Job, ghost key: string, held: bool) returns (race: Race, paused: bool)
    requires InCreation(w, job, key, held) && w.monitor.tries.asked.None?
    modifies w`pending, w`state, w`readings, w`strays, w`history, w`monitor, w`conforms, w.storage`rows
    ensures |w.pending| <= |old(w.pending)|
    ensures old(w.pending) == [] ==> race == Proceed && paused == held
    ensures old(w.StraysBegin()) ==> w.StraysBegin()
    ensures match race
            case Proceed => InCreation(w, job, key, paused) && w.monitor.tries.asked.None?
            case Abandon => Stopping(w, job, key, false, Aborted)
            case Hold => false
            case Switch(next) => Stopping(w, job, key, false, Restart(next)) && |w.pending| < |old(w.pending)|
  {
    paused := held;
    var cut := false;
    while true
      invariant InCreation(w, job, key, paused)
      invariant |w.pending| <= |old(w.pending)| && (old(w.pending) == [] ==> paused == held)
      invariant cut ==> WillCut(w.pending)
      invariant !cut ==> w.monitor.tries.asked.None?
      invariant old(w.StraysBegin()) ==> w.StraysBegin()
      decreases |w.pending|
    {
      SuspendEarly(w, job, key, paused);
      var ready: bool := *;
      if !cut && (ready || w.pending == []) {
        return Proceed, paused;
      }
      var goesOut: bool := *;
      if goesOut && WillCut(w.pending) {
        cut := true;
        Attempt(w, job, key, paused);
      }
      ghost var before := w.pending;
      var cmd := TakeEarly(w, job, key, paused);
      CutRemains(before);
      match cmd {
        case Abort => return Abandon, paused;
        case Start(next) => return Switch(next), paused;
        case Pause => paused := true;
        case Resume => paused := false;
      }
    }
  }

  /** No request of the current stretch is out. */
  predicate Unspent(t: Tries) {
    t.patches == t.heads == t.rests == t.failures == 0 && t.denied.None?
  }

  predicate Spent(t: Tries, patches: nat, heads: nat, rests: nat, failures: nat) {
    t.patches == patches && t.heads == heads && t.rests == rests && t.failures == failures && t.looked
  }

  /** The latest request has been answered, and its failure, if it failed, is not known yet. */
  predicate Fresh(t: Tries) {
    t.denied.None? && t.asked.Some? && (t.asked.value.Patch? || t.asked.value.RecoveryHead?)
  }

  /** The run is uploading and no request of the current stretch is out. */
  ghost predicate AtHead(w: World, at: Place, paused: bool)
    reads w, w.storage
  {
    InUpload(w, at, paused) && Unspent(w.monitor.tries)
  }

  /** The run is uploading and some requests of the current stretch are out. */
  ghost predicate InStretch(w: World, at: Place, patches: nat, heads: nat, rests: nat, failures: nat)
    reads w, w.storage
  {
    InUpload(w, at, false) && Spent(w.monitor.tries, patches, heads, rests, failures)
  }

  /** A Pause or Resume was taken but is not shown yet. */
  ghost predicate Noted(w: World, at: Place, paused: bool)
    reads w, w.storage
  {
    && w.Valid() && w.Kept() && w.conforms
    && Tracks(w.monitor, at) && w.monitor.paused == paused
    && Backed(w, at.job.file.content, at.offset)
  }

  /** A Pause was taken but is not shown yet. */
  ghost predicate Holding(w: World, at: Place)
    reads w, w.storage
  {
    Noted(w, at, true) && Unspent(w.monitor.tries)
  }

  /** An upload that was held or not has just taken `cmd`. A Pause ends the stretch. */
  ghost predicate Heard(w: World, at: Place, held: bool, tries: Tries, cmd: Command)
    reads w, w.storage
  {
    match cmd
    case Pause => Holding(w, at) && w.monitor.shown == Mirror(held)
    case Resume =>
      Noted(w, at, false) && w.monitor.tries == tries.(looked := true) && w.monitor.shown == Mirror(held)
    case _ => Stopping(w, at.job, at.key, true, OutcomeOf(cmd))
  }

  /** Looks for a command without waiting. */
  method Listen(w: World, at: Place, ghost held: bool, ghost tries: Tries) returns (poll: Poll)
    requires InUpload(w, at, held) && w.monitor.tries == tries
    modifies w`pending, w`history, w`monitor, w`conforms
    ensures match poll
            case Silent => w.pending == old(w.pending) && InUpload(w, at, held) && w.monitor.tries == tries
            case Gone => w.pending == old(w.pending) == [] && !w.smooth && Stopping(w, at.job, at.key, true, Aborted)
            case Got(cmd) => TookOne(w) && Heard(w, at, held, tries, cmd)
  {
    poll := w.TryNext();
  }

  /** Waits for a command. */
  method Await(w: World, at: Place, ghost held: bool, ghost tries: Tries) returns (poll: Poll)
    requires InUpload(w, at, held) && w.monitor.tries == tries
    modifies w`pending, w`state, w`readings, w`history, w`monitor, w`conforms, w.storage`rows
    ensures match poll
            case Silent =>
              w.pending == old(w.pending) == [] && InUpload(w, at, held) && w.monitor.tries == tries
            case Gone =>
              && w.pending == old(w.pending) == [] && w.closes && Stopping(w, at.job, at.key, true, Aborted)
            case Got(cmd) => TookOne(w) && Heard(w, at, held, tries, cmd)
  {
    w.Suspend();
    poll := w.NextCommand();
    if poll.Gone? {
      w.HangUp();
    }
  }

  /** A command has ended a race. */
  ghost predicate Interrupts(w: World, at: Place, race: Race)
    reads w, w.storage
  {
    match race
    case Proceed => false
    case Abandon => Stopping(w, at.job, at.key, true, Aborted)
    case Hold => Holding(w, at)
    case Switch(next) => Stopping(w, at.job, at.key, true, Restart(next))
  }

  /** What a race may have done to the channel. */
  twostate predicate RaceTook(w: World, race: Race)
    reads w
  {
    |w.pending| <= |old(w.pending)| && (race.Hold? || race.Switch? ==> |w.pending| < |old(w.pending)|)
  }

  /** What the answer to a recovery HEAD is worth. */
  ghost predicate Answers(w: World, at: Place, reply: Result<UploadInfo, NetError>)
    reads w
  {
    && (reply.Ok? ==> Backed(w, at.job.file.content, reply.value.offset))
    && (w.smooth ==>
          if reply.Ok? then !Unusable(reply.value, at.offset, |at.job.file.content|) else w.Bearable(reply.error))
  }

  /** Asks the server where it stands. */
  method AskWhere(w: World, at: Place, ghost patches: nat, ghost heads: nat, ghost failures: nat)
    returns (reply: Result<UploadInfo, NetError>)
    requires InStretch(w, at, patches, heads, heads, failures)
    requires 0 < patches && heads <= w.config.maxRetries
    modifies w`state, w`readings, w`resource, w`history, w`monitor, w`conforms, w.storage`rows
    ensures InStretch(w, at, patches, heads + 1, heads, failures) && Fresh(w.monitor.tries)
    ensures Answers(w, at, reply)
  {
    ghost var before := w.resource;
    reply := w.AskRecoveryHead(at.job.file.content, at.offset);
    if w.honest {
      Server.ReachesFaithful(at.job.file.content, before, w.resource);
    }
  }

  /** Asks the server where it stands, ready to be interrupted before the answer. */
  method RaceRecovery(w: World, at: Place, ghost patches: nat, ghost heads: nat, ghost failures: nat)
    returns (race: Race, reply: Result<UploadInfo, NetError>)
    requires InStretch(w, at, patches, heads, heads, failures)
    requires 0 < patches && heads <= w.config.maxRetries
    modifies w`pending, w`state, w`readings, w`resource, w`history, w`monitor, w`conforms, w.storage`rows
    ensures RaceTook(w, race)
    ensures w.smooth && old(w.pending) == [] ==> race.Proceed?
    ensures race.Proceed? ==>
      && InStretch(w, at, patches, heads + 1, heads, failures) && Fresh(w.monitor.tries)
      && Answers(w, at, reply)
    ensures !race.Proceed? ==> Interrupts(w, at, race)
  {
    reply := AskWhere(w, at, patches, heads, failures);
    while true
      invariant InStretch(w, at, patches, heads + 1, heads, failures) && Fresh(w.monitor.tries)
      invariant Answers(w, at, reply)
      invariant |w.pending| <= |old(w.pending)|
      decreases |w.pending|
    {
      w.Suspend();
      var poll := Listen(w, at, false, w.monitor.tries);
      match poll {
        case Silent => return Proceed, reply;
        case Gone => return Abandon, reply;
        case Got(cmd) =>
          match cmd {
            case Abort => return Abandon, reply;
            case Start(next) => return Switch(next), reply;
            case Pause => return Hold, reply;
            case Resume =>
          }
      }
    }
  }

  /** Sleeps before a retry unless a command comes first. */
  method WaitRetryBackoff(w: World, delay: nat, at: Place, ghost patches: nat, ghost heads: nat, ghost failures: nat)
    returns (race: Race)
    requires 0 < heads && InStretch(w, at, patches, heads, heads - 1, failures)
    requires delay <= LongestWait(w.config, heads - 1)
    modifies w`pending, w`state, w`readings, w`history, w`monitor, w`conforms, w.storage`rows
    ensures RaceTook(w, race)
    ensures w.smooth && old(w.pending) == [] ==> race.Proceed?
    ensures race.Proceed? ==>
      InStretch(w, at, patches, heads, heads, failures) && w.monitor.tries.denied == old(w.monitor.tries.denied)
    ensures !race.Proceed? ==> Interrupts(w, at, race)
  {
    w.Rest(delay);
    w.Suspend();
    var poll := Listen(w, at, false, w.monitor.tries);
    match poll {
      case Silent => return Proceed;
      case Gone => return Abandon;
      case Got(cmd) =>
        match cmd {
          case Abort => return Abandon;
          case Start(next) => return Switch(next);
          case Pause => return Hold;
          case Resume => return Proceed;
        }
    }
  }

  /** Full jitter: `draw` of the longest wait for this attempt. */
  method JitteredRetryDelay(config: TusConfig, attempt: nat) returns (delay: nat, ghost draw: real)
    ensures 0.0 <= draw < 1.0
    ensures delay == (draw * LongestWait(config, attempt) as real).Floor && delay <= LongestWait(config, attempt)
  {
    var random: real := *;
    if !(0.0 <= random < 1.0) {
      random := 0.0;
    }
    var base := LongestWait(config, attempt);
    ScaledDown(random, base);
    delay, draw := (random * base as real).Floor, random;
  }

  lemma ScaledDown(r: real, n: nat)
    requires 0.0 <= r < 1.0
    ensures 0 <= (r * n as real).Floor <= n
  {
    var x := n as real;
    assert 0.0 <= r * x <= 1.0 * x;
  }

  /** Stops the run: the stored entry goes (unless none can exist yet) and the state resets. */
  method Leave(w: World, job: Job, key: string, outcome: Outcome, created: bool)
    requires Stopping(w, job, key, created, outcome)
    modifies w`state, w`faults, w`history, w`monitor, w`conforms, w.storage
    ensures Ready(w, job, key, outcome)
  {
    if created || job.options.existingUrl.Some? {
      w.RemoveRow(key);
    }
    w.Write(ResetIdle);
  }

  /** Shows a pause that interrupted a retry. */
  method ShowPause(w: World, at: Place)
    requires Holding(w, at)
    modifies w`state, w`faults, w`history, w`monitor, w`conforms
    ensures AtHead(w, at, true)
  {
    w.Write(SetStatus(UploadStatus.Paused));
  }

  // ---------------------------------------------------------------- one chunk

  /** How the attempt to send one chunk ended. */
  datatype ChunkResult = Advanced(offset: nat) | Held | Left(outcome: Outcome) | Broken(error: TusError)

  /** How the search for the server's offset ended. */
  datatype Recovery = Found(info: UploadInfo) | Stopped(result: ChunkResult)

  /** The chunk's bytes go out. Whatever the answer, they are the right ones. */
  method SendPatch(w: World, body: Bytes, at: Place, ghost patches: nat, ghost heads: nat, ghost failures: nat)
    returns (reply: Result<nat, NetError>)
    requires InStretch(w, at, patches, heads, heads, failures) && w.monitor.tries.denied.None?
    requires at.offset < |at.job.file.content| && body == Chunk(w.config, at.job.file.content, at.offset)
    requires patches <= heads && patches <= w.config.maxRetries
    modifies w`state, w`readings, w`resource, w`history, w`monitor, w`conforms, w.storage`rows
    ensures InStretch(w, at, patches + 1, heads, heads, failures) && Fresh(w.monitor.tries)
    ensures reply.Ok? ==> Backed(w, at.job.file.content, reply.value)
    ensures w.smooth ==>
      if reply.Ok? then at.offset < reply.value <= at.offset + |body| else w.Bearable(reply.error)
  {
    ghost var p := Server.Patch(at.offset, body);
    ghost var before := w.resource.(sent := w.resource.sent + {p});
    ChunkIsSlice(w.config, at.job.file.content, at.offset);
    reply := w.AskPatch(at.offset, body);
    if w.honest {
      Server.ReachesFaithful(at.job.file.content, before, w.resource);
    }
  }

  /** The latest request failed, and it was one failure too many or one that cannot pass. */
  ghost predicate GaveUp(w: World, error: TusError)
    reads w
  {
    var t := w.monitor.tries;
    t.denied.Some? && error == ToTusError(t.denied.value)
    && (t.failures > w.config.maxRetries || !RunLaws.Transient(t.denied.value))
  }

  /** The worker learns that its request failed. A failure not worth a retry ends the run, and
      so may one that exceeds the retries. */
  method LearnFailure(w: World, at: Place, ghost patches: nat, ghost heads: nat, ghost rests: nat,
                      ghost failures: nat, e: NetError)
    requires InStretch(w, at, patches, heads, rests, failures) && Fresh(w.monitor.tries)
    modifies w`faults, w`history, w`monitor, w`conforms
    ensures w.faults == old(w.faults) + 1
    ensures IsRetryable(e) ==> InStretch(w, at, patches, heads, rests, failures + 1)
    ensures !IsRetryable(e) || failures >= w.config.maxRetries ==>
      Ready(w, at.job, at.key, Failed(ToTusError(e))) && GaveUp(w, ToTusError(e))
  {
    w.Learn(e);
  }

  lemma ChunkIsSlice(config: TusConfig, content: Bytes, offset: nat)
    requires offset < |content|
    ensures Chunk(config, content, offset) != []
    ensures Server.IsSlice(content, Server.Patch(offset, Chunk(config, content, offset)))
  {
  }

  /** A recovery HEAD failed: waits before the next one, unless the run must end. */
  method WaitForHead(w: World, at: Place, ghost patches: nat, attempt: nat, e: NetError)
    returns (broken: bool, race: Race)
    requires InStretch(w, at, patches, attempt + 1, attempt, attempt + 1) && Fresh(w.monitor.tries)
    requires attempt <= w.config.maxRetries
    modifies w`pending, w`state, w`readings, w`faults, w`history, w`monitor, w`conforms, w.storage`rows
    ensures RaceTook(w, race)
    ensures broken == (attempt >= w.config.maxRetries || !IsRetryable(e))
    ensures if broken then Ready(w, at.job, at.key, Failed(ToTusError(e))) && GaveUp(w, ToTusError(e))
            else if race.Proceed? then InStretch(w, at, patches, attempt + 1, attempt + 1, attempt + 2)
            else Interrupts(w, at, race)
    ensures w.smooth && old(w.pending) == [] ==> race.Proceed?
  {
    LearnFailure(w, at, patches, attempt + 1, attempt, attempt + 1, e);
    broken, race := attempt >= w.config.maxRetries || !IsRetryable(e), Proceed;
    if !broken {
      var delay, draw := JitteredRetryDelay(w.config, attempt);
      race := WaitRetryBackoff(w, delay, at, patches, attempt + 1, attempt + 2);
    }
  }

  /** The recovery loop: HEAD until the server answers, spending retries on failures. */
  method RecoverHead(w: World, at: Place, ghost patches: nat, start: nat)
    returns (r: Recovery, attempt: nat)
    requires InStretch(w, at, patches, start, start, start + 1)
    requires 0 < patches && start < w.config.maxRetries
    modifies w`pending, w`state, w`readings, w`resource, w`faults, w`history, w`monitor, w`conforms, w.storage
    ensures start <= attempt <= w.config.maxRetries
    ensures |w.pending| <= |old(w.pending)|
    ensures w.smooth && old(w.pending) == [] ==> r.Found?
    ensures match r
            case Found(info) =>
              && InStretch(w, at, patches, attempt + 1, attempt, attempt + 1) && Fresh(w.monitor.tries)
              && Answers(w, at, Ok(info))
            case Stopped(Held) => AtHead(w, at, true) && |w.pending| < |old(w.pending)|
            case Stopped(Broken(e)) => Ready(w, at.job, at.key, Failed(e)) && GaveUp(w, e)
            case Stopped(Left(outcome)) =>
              Ready(w, at.job, at.key, outcome) && (outcome.Restart? ==> |w.pending| < |old(w.pending)|)
              && (outcome.Aborted? || outcome.Restart?)
            case Stopped(Advanced(_)) => false
  {
    attempt := start;
    while true
      invariant start <= attempt <= w.config.maxRetries
      invariant InStretch(w, at, patches, attempt, attempt, attempt + 1)
      invariant |w.pending| <= |old(w.pending)|
      decreases w.config.maxRetries - attempt
    {
      var race, reply := RaceRecovery(w, at, patches, attempt, attempt + 1);
      match race {
        case Proceed =>
          if reply.Ok? {
            return Found(reply.value), attempt;
          }
          var broken;
          broken, race := WaitForHead(w, at, patches, attempt, reply.error);
          if broken {
            return Stopped(Broken(ToTusError(reply.error))), attempt;
          }
          attempt := attempt + 1;
        case _ =>
      }
      match race {
        case Proceed =>
        case _ =>
          var result := StopRetrying(w, at, race);
          return Stopped(result), attempt;
      }
    }
  }

  /** What a command makes of a retry that it interrupts. */
  method StopRetrying(w: World, at: Place, race: Race) returns (r: ChunkResult)
    requires Interrupts(w, at, race)
    modifies w`state, w`faults, w`history, w`monitor, w`conforms, w.storage
    ensures ChunkDone(w, at, r)
    ensures r == match race
                 case Abandon => Left(Aborted)
                 case Switch(next) => Left(Restart(next))
                 case _ => Held
  {
    match race {
      case Abandon =>
        Leave(w, at.job, at.key, Aborted, true);
        r := Left(Aborted);
      case Switch(next) =>
        Leave(w, at.job, at.key, Restart(next), true);
        r := Left(Restart(next));
      case Hold =>
        ShowPause(w, at);
        r := Held;
    }
  }

  /** What the end of a chunk attempt leaves behind. */
  ghost predicate ChunkDone(w: World, at: Place, r: ChunkResult)
    reads w, w.storage
  {
    match r
    case Advanced(next) =>
      && InUpload(w, at, false) && w.monitor.tries.patches > 0
      && at.offset < next <= |at.job.file.content| && Backed(w, at.job.file.content, next)
    case Held => AtHead(w, at, true)
    case Broken(e) =>
      Ready(w, at.job, at.key, Failed(e)) && (GaveUp(w, e) || e == BlobRead || e == Transport)
    case Left(outcome) => Ready(w, at.job, at.key, outcome) && (outcome.Aborted? || outcome.Restart?)
  }

  /** What a chunk attempt may have done to the channel. */
  twostate predicate ChunkTook(w: World, r: ChunkResult)
    reads w
  {
    && |w.pending| <= |old(w.pending)|
    && (r.Held? || (r.Left? && r.outcome.Restart?) ==> |w.pending| < |old(w.pending)|)
  }

  /** The bytes of the next chunk, or a failed read. */
  method ReadChunk(w: World, at: Place, ghost patches: nat, ghost heads: nat, ghost rests: nat, ghost failures: nat)
    returns (read: Result<Bytes, TusError>)
    requires InStretch(w, at, patches, heads, rests, failures) && w.monitor.tries.denied.None?
    requires at.offset < |at.job.file.content|
    modifies w`state, w`readings, w`history, w`monitor, w`conforms, w.storage`rows
    ensures InStretch(w, at, patches, heads, rests, failures) && w.monitor.tries == old(w.monitor.tries)
    ensures read.Ok? ==> read.value == Chunk(w.config, at.job.file.content, at.offset)
    ensures read.Err? ==> !w.smooth && read.error == BlobRead && Ready(w, at.job, at.key, Failed(read.error))
  {
    var end := Min(at.offset + Max(w.config.chunkSize, 1), |at.job.file.content|);
    read := w.ReadBlob(at.job.file, at.offset, end);
  }

  /** The server has not moved: waits for another attempt. The first attempt gave its bytes
      away; they are read again. */
  method RetrySame(w: World, at: Place, ghost patches: nat, start: nat, bytes: Bytes)
    returns (again: bool, r: ChunkResult, attempt: nat, current: Bytes)
    requires InStretch(w, at, patches, start + 1, start, start + 1) && w.monitor.tries.denied.None?
    requires 0 < patches && start <= w.config.maxRetries && at.offset < |at.job.file.content|
    requires bytes == [] || bytes == Chunk(w.config, at.job.file.content, at.offset)
    modifies w`pending, w`state, w`readings, w`faults, w`history, w`monitor, w`conforms, w.storage
    ensures |w.pending| <= |old(w.pending)|
    ensures w.smooth && old(w.pending) == [] ==> again
    ensures again ==>
              && attempt == start + 1 && InStretch(w, at, patches, attempt, attempt, attempt)
              && w.monitor.tries.denied.None?
              && current == Chunk(w.config, at.job.file.content, at.offset)
    ensures !again ==> !r.Advanced? && ChunkDone(w, at, r) && ChunkTook(w, r)
  {
    again, r, attempt, current := false, Held, start, bytes;
    if current == [] {
      var read := ReadChunk(w, at, patches, start + 1, start, start + 1);
      if read.Err? {
        r := Broken(read.error);
        return;
      }
      current := read.value;
    }
    var delay, draw := JitteredRetryDelay(w.config, attempt);
    attempt := attempt + 1;
    var race := WaitRetryBackoff(w, delay, at, patches, attempt, attempt);
    match race {
      case Proceed => again := true;
      case _ => r := StopRetrying(w, at, race);
    }
  }

  /** After a failed PATCH: finds out where the server stands. An unusable answer ends the run,
      progress is taken over, and if the server has not moved the same bytes go out again.
      `told` is the server's answer, if one came. */
  method PrepareRetry(w: World, at: Place, ghost patches: nat, start: nat, bytes: Bytes)
    returns (again: bool, r: ChunkResult, attempt: nat, current: Bytes, ghost told: Option<UploadInfo>)
    requires InStretch(w, at, patches, start, start, start + 1)
    requires 0 < patches && start < w.config.maxRetries && at.offset < |at.job.file.content|
    requires bytes == [] || bytes == Chunk(w.config, at.job.file.content, at.offset)
    modifies w`pending, w`state, w`readings, w`resource, w`faults, w`history, w`monitor, w`conforms, w.storage
    ensures |w.pending| <= |old(w.pending)|
    ensures w.smooth && old(w.pending) == [] ==> again || r.Advanced?
    ensures again ==>
              && start < attempt <= w.config.maxRetries + 1
              && InStretch(w, at, patches, attempt, attempt, attempt) && w.monitor.tries.denied.None?
              && current == Chunk(w.config, at.job.file.content, at.offset)
    ensures !again ==> ChunkDone(w, at, r) && ChunkTook(w, r)
    ensures match told
            case None => !again && !r.Advanced?
            case Some(info) =>
              var size := |at.job.file.content|;
              if info.length.Some? && info.length.value != size then !again && r == Broken(Transport)
              else if info.offset < at.offset || info.offset > size then !again && r == Broken(Transport)
              else if info.offset > at.offset then !again && r == Advanced(info.offset)
              else again || !r.Advanced?
  {
    again, r, current, told := false, Held, bytes, None;
    var size := |at.job.file.content|;
    var recovery;
    recovery, attempt := RecoverHead(w, at, patches, start);
    if recovery.Stopped? {
      r := recovery.result;
      return;
    }
    var remote := recovery.info;
    told := Some(remote);
    var mismatch := ValidateResumeInfo(remote, size);
    if mismatch.Some? {
      r := Broken(mismatch.value);
      return;
    }
    if remote.offset < at.offset {
      r := Broken(Transport);
      return;
    }
    if remote.offset > at.offset {
      r := Advanced(remote.offset);
      return;
    }
    again, r, attempt, current := RetrySame(w, at, patches, attempt, bytes);
  }

  /** One PATCH and the verdict on its answer, `told`: a valid offset, the end of the run, or
      another attempt. */
  method TryPatch(w: World, payload: Bytes, at: Place, ghost patches: nat, attempt: nat)
    returns (again: bool, r: ChunkResult, ghost told: Result<nat, NetError>)
    requires InStretch(w, at, patches, attempt, attempt, attempt) && w.monitor.tries.denied.None?
    requires at.offset < |at.job.file.content| && payload == Chunk(w.config, at.job.file.content, at.offset)
    requires patches <= attempt && patches <= w.config.maxRetries
    modifies w`state, w`readings, w`resource, w`faults, w`history, w`monitor, w`conforms, w.storage`rows
    ensures again ==> InStretch(w, at, patches + 1, attempt, attempt, attempt + 1) && attempt < w.config.maxRetries
    ensures !again ==> ChunkDone(w, at, r) && (r.Advanced? || r.Broken?)
    ensures match told
            case Ok(next) =>
              !again && r == if at.offset < next <= |at.job.file.content| then Advanced(next) else Broken(Transport)
            case Err(e) => again <==> attempt < w.config.maxRetries && RunLaws.Transient(e)
    ensures w.smooth ==> again || r.Advanced?
  {
    again, r := false, Held;
    var reply := SendPatch(w, payload, at, patches, attempt, attempt);
    told := reply;
    match reply {
      case Ok(next) =>
        var invalid := ValidatePatchOffset(at.offset, next, |at.job.file.content|);
        r := if invalid.Some? then Broken(invalid.value) else Advanced(next);
      case Err(e) =>
        LearnFailure(w, at, patches + 1, attempt, attempt, attempt, e);
        again := attempt < w.config.maxRetries && IsRetryable(e);
        r := Broken(ToTusError(e));
    }
  }

  /** The retry loop: sends one chunk until the server has moved past the offset, a command
      interferes, or the retries are spent. */
  method SendChunk(w: World, at: Place)
    returns (r: ChunkResult)
    requires AtHead(w, at, false) && w.monitor.tries.looked
    requires at.offset < |at.job.file.content|
    modifies w`pending, w`state, w`readings, w`resource, w`faults, w`history, w`monitor, w`conforms, w.storage
    ensures ChunkDone(w, at, r) && ChunkTook(w, r)
    ensures w.smooth && old(w.pending) == [] ==> r.Advanced?
  {
    var read := ReadChunk(w, at, 0, 0, 0, 0);
    if read.Err? {
      return Broken(read.error);
    }
    var attempt, current := 0, read.value;
    ghost var patches := 0;
    while true
      invariant patches <= attempt <= w.config.maxRetries + 1 && patches <= w.config.maxRetries
      invariant InStretch(w, at, patches, attempt, attempt, attempt) && w.monitor.tries.denied.None?
      invariant current == Chunk(w.config, at.job.file.content, at.offset)
      invariant |w.pending| <= |old(w.pending)|
      decreases w.config.maxRetries + 1 - attempt
    {
      var payload := current;
      if attempt == 0 {
        current := [];
      }
      var again;
      ghost var answer;
      again, r, answer := TryPatch(w, payload, at, patches, attempt);
      if !again {
        return;
      }
      patches := patches + 1;
      ghost var told;
      again, r, attempt, current, told := PrepareRetry(w, at, patches, attempt, current);
      if !again {
        return;
      }
    }
  }

  // ---------------------------------------------------------------- resolving the URL

  /** Resuming: HEAD on the known URL. A resource the server has forgotten is forgotten here too.
      `told` is the server's answer, if one came. */
  method ResumeExisting(w: World, job: Job, key: string, paused: bool, url: string)
    returns (r: Result<Created, TusError>, ghost told: Option<Result<UploadInfo, NetError>>)
    requires InCreation(w, job, key, paused) && job.options.existingUrl == Some(url)
    modifies w`state, w`readings, w`resource, w`history, w`monitor, w`conforms, w.storage
    ensures r.Ok? ==> InCreation(w, job, key, paused) && Backed(w, job.file.content, r.value.offset)
    ensures r.Err? ==> Ready(w, job, key, Failed(r.error))
    ensures match told
            case None => r == Err(InvalidRequest) && !w.smooth
            case Some(Ok(info)) =>
              if info.length.Some? && info.length.value != |job.file.content| then r == Err(Transport)
              else if info.offset > |job.file.content| then r == Err(Transport)
              else r == Ok(Created(url, info.offset))
            case Some(Err(e)) =>
              && r == Err(ToTusError(e)) && !w.smooth
              && (e.UnexpectedResponse? && (e.status == 400 || e.status == 404 || e.status == 410) ==>
                    StorageKey(key) !in w.storage.rows)
    ensures w.smooth ==> r.Ok?
  {
    told := None;
    var valid := w.ValidRequest();
    if !valid {
      return Err(InvalidRequest), None;
    }
    var reply := w.AskResumeHead(job.file.content);
    told := Some(reply);
    if reply.Ok? {
      var mismatch := ValidateResumeInfo(reply.value, |job.file.content|);
      r := if mismatch.Some? then Err(mismatch.value) else Ok(Created(url, reply.value.offset));
      return;
    }
    r := ForgetIfGone(w, job, key, paused, reply.error);
  }

  /** A URL that the server says is bad, unknown or gone is not worth keeping. */
  method ForgetIfGone(w: World, job: Job, key: string, ghost paused: bool, e: NetError)
    returns (r: Result<Created, TusError>)
    requires InCreation(w, job, key, paused) && job.options.existingUrl.Some?
    modifies w`history, w`monitor, w`conforms, w.storage
    ensures r == Err(ToTusError(e)) && Ready(w, job, key, Failed(r.error))
    ensures w.storage.rows ==
            if e.UnexpectedResponse? && (e.status == 400 || e.status == 404 || e.status == 410)
            then old(w.storage.rows) - {StorageKey(key)} else old(w.storage.rows)
  {
    if e.UnexpectedResponse? && (e.status == 400 || e.status == 410 || e.status == 404) {
      w.RemoveRow(key);
      return Err(Server(e.status));
    }
    r := Err(ToTusError(e));
  }

  /** Capabilities may vary by token or header, so such requests bypass the cache. */
  predicate BypassesCache(config: TusConfig, options: StartOptions) {
    config.bearerToken || options.specificHeaders
  }

  /** The server has said that it takes no file of this size. */
  predicate TooLarge(caps: Capabilities, size: nat) {
    caps.maxSize.Some? && size > caps.maxSize.value
  }

  /** No creation request has gone out: nothing has, or a question about capabilities only. */
  predicate NothingPosted(t: Tries) {
    t.asked.None? || t.asked.value.Options?
  }

  method CreatePlain(w: World, job: Job, ghost key: string, ghost paused: bool) returns (r: Result<Created, TusError>)
    requires InCreation(w, job, key, paused) && job.options.existingUrl.None? && NothingPosted(w.monitor.tries)
    modifies w`state, w`readings, w`resource, w`history, w`monitor, w`conforms, w.storage`rows
    ensures w.monitor.tries.asked == Some(Create)
    ensures r.Ok? ==>
      && InCreation(w, job, key, paused) && r.value.offset == 0 && w.resource == Server.Resource([], {})
      && Backed(w, job.file.content, r.value.offset)
    ensures r.Err? ==> Ready(w, job, key, Failed(r.error))
    ensures w.smooth ==> r.Ok?
  {
    var reply := w.AskCreate();
    match reply
    case Ok(created) => r := Ok(Created(created.url, 0));
    case Err(e) => r := Err(ToTusError(e));
  }

  /** Statuses that say the server will not take a body with the POST. */
  predicate RefusesBody(e: NetError) {
    e.UnexpectedResponse? && (e.status == 405 || e.status == 412 || e.status == 415 || e.status == 501)
  }

  /** What the server can do: from the cache while fresh, otherwise by asking. */
  method LearnCapabilities(w: World, job: Job, ghost key: string, ghost paused: bool)
    returns (caps: Result<Capabilities, NetError>)
    requires InCreation(w, job, key, paused) && job.options.existingUrl.None? && w.monitor.tries.asked.None?
    modifies w`state, w`readings, w`known, w`history, w`monitor, w`conforms, w.storage`rows
    ensures InCreation(w, job, key, paused) && NothingPosted(w.monitor.tries)
    ensures if w.config.bearerToken || job.options.specificHeaders then w.monitor.tries.asked == Some(Options)
            else caps.Ok? ==> w.known == Some(caps.value)
    ensures w.smooth && caps.Ok? ==> caps.value.maxSize.None?
  {
    var bypass := BypassesCache(w.config, job.options);
    if !bypass {
      var cached := w.PeekCapabilities();
      if cached.Some? {
        return Ok(cached.value);
      }
    }
    caps := w.AskOptions();
    if !bypass && caps.Ok? {
      w.known := Some(caps.value);
    }
  }

  /** The server refused what the cache said it could do. */
  method DropCapabilities(w: World, ghost job: Job, ghost key: string, ghost paused: bool)
    requires InCreation(w, job, key, paused)
    requires w.monitor.tries.asked.Some? && w.monitor.tries.asked.value.CreateWithBody?
    modifies w`known, w`history, w`monitor, w`conforms
    ensures InCreation(w, job, key, paused) && w.monitor.tries.asked.None? && w.known == None
  {
    w.Forget();
  }

  /** POST with the whole file. When the server refuses the body, what was known about it is
      dropped and plain creation follows. */
  method PostBody(w: World, job: Job, ghost key: string, ghost paused: bool)
    returns (r: Result<Created, TusError>, ghost told: Option<Result<Created, NetError>>)
    requires InCreation(w, job, key, paused) && job.options.existingUrl.None? && NothingPosted(w.monitor.tries)
    requires w.config.UseCreationWithUpload(|job.file.content|)
    modifies w`state, w`readings, w`resource, w`known, w`history, w`monitor, w`conforms, w.storage`rows
    ensures r.Ok? ==> InCreation(w, job, key, paused) && Backed(w, job.file.content, r.value.offset)
    ensures r.Err? ==> Ready(w, job, key, Failed(r.error))
    ensures match told
            case None => r == Err(BlobRead) && !w.smooth && NothingPosted(w.monitor.tries)
            case Some(Ok(created)) =>
              r == Ok(created) && w.monitor.tries.asked == Some(Request.CreateWithBody(job.file.content))
            case Some(Err(e)) =>
              if e.UnexpectedResponse? && e.status in {405, 412, 415, 501} then
                w.monitor.tries.asked == Some(Create) && w.known == None
              else r == Err(ToTusError(e))
    ensures w.monitor.tries.asked == Some(Create) && r.Ok? ==>
      r.value.offset == 0 && w.resource == Server.Resource([], {})
    ensures told.None? || told.value.Ok? || !RefusesBody(told.value.error) ==> w.known == old(w.known)
    ensures w.smooth ==> r.Ok? && r.value.offset <= |job.file.content|
  {
    told := None;
    var read := w.ReadBlob(job.file, 0, |job.file.content|);
    if read.Err? {
      return Err(read.error), None;
    }
    assert read.value == job.file.content;
    var reply := w.AskCreateWithBody(read.value);
    told := Some(reply);
    match reply {
      case Ok(created) => r := Ok(created);
      case Err(e) =>
        if RefusesBody(e) {
          DropCapabilities(w, job, key, paused);
          r := CreatePlain(w, job, key, paused);
        } else {
          r := Err(ToTusError(e));
        }
    }
  }

  /** Creation of an upload that may ride on the POST: with the body where the server offers it,
      plain otherwise, and not at all when the file is too large. `caps` is what the server says
      it can do, `told` the answer to the POST with the body. */
  method CreateWithBody(w: World, job: Job, ghost key: string, ghost paused: bool)
    returns (r: Result<Created, TusError>, ghost caps: Result<Capabilities, NetError>,
             ghost told: Option<Result<Created, NetError>>)
    requires InCreation(w, job, key, paused) && job.options.existingUrl.None? && w.monitor.tries.asked.None?
    requires w.config.UseCreationWithUpload(|job.file.content|)
    modifies w`state, w`readings, w`resource, w`known, w`history, w`monitor, w`conforms, w.storage`rows
    ensures r.Ok? ==> InCreation(w, job, key, paused) && Backed(w, job.file.content, r.value.offset)
    ensures r.Err? ==> Ready(w, job, key, Failed(r.error))
    ensures told.None? || told.value.Ok? || !RefusesBody(told.value.error) ==>
      !w.config.bearerToken && !job.options.specificHeaders && caps.Ok? ==> w.known == Some(caps.value)
    ensures
      var size := |job.file.content|;
      if caps.Ok? && caps.value.maxSize.Some? && size > caps.value.maxSize.value then
        told.None? && r == Err(FileTooLarge(size, caps.value.maxSize.value)) && NothingPosted(w.monitor.tries)
      else if caps.Ok? && caps.value.creationWithUpload then
        match told
        case None => r == Err(BlobRead) && NothingPosted(w.monitor.tries)
        case Some(Ok(created)) => r == Ok(created)
        case Some(Err(e)) =>
          if e.UnexpectedResponse? && e.status in {405, 412, 415, 501} then
            w.monitor.tries.asked == Some(Create) && w.known == None
          else r == Err(ToTusError(e))
      else
        told.None? && w.monitor.tries.asked == Some(Create)
    ensures w.monitor.tries.asked == Some(Create) && r.Ok? ==>
      r.value.offset == 0 && w.resource == Server.Resource([], {})
    ensures w.smooth ==> r.Ok? && r.value.offset <= |job.file.content|
  {
    told := None;
    var size := |job.file.content|;
    var options := LearnCapabilities(w, job, key, paused);
    caps := options;
    if options.Ok? && TooLarge(options.value, size) {
      r := Err(FileTooLarge(size, options.value.maxSize.value));
    } else if options.Ok? && options.value.creationWithUpload {
      r, told := PostBody(w, job, key, paused);
    } else {
      r := CreatePlain(w, job, key, paused);
    }
  }

  /** Plain creation, refusing a file that a cached limit already rules out. */
  method CreateEmpty(w: World, job: Job, ghost key: string, ghost paused: bool) returns (r: Result<Created, TusError>)
    requires InCreation(w, job, key, paused) && job.options.existingUrl.None? && w.monitor.tries.asked.None?
    modifies w`state, w`readings, w`resource, w`known, w`history, w`monitor, w`conforms, w.storage`rows
    ensures r.Ok? ==>
      && InCreation(w, job, key, paused) && r.value.offset == 0 && w.resource == Server.Resource([], {})
      && Backed(w, job.file.content, r.value.offset)
    ensures r.Err? ==> Ready(w, job, key, Failed(r.error))
    ensures
      var known := if w.config.bearerToken || job.options.specificHeaders then None else w.known;
      if known.Some? && known.value.maxSize.Some? && |job.file.content| > known.value.maxSize.value then
        && r == Err(FileTooLarge(|job.file.content|, known.value.maxSize.value))
        && w.monitor.tries.asked.None?
      else
        w.monitor.tries.asked == Some(Create)
    ensures w.smooth ==> r.Ok?
  {
    if !BypassesCache(w.config, job.options) {
      var cached := w.PeekCapabilities();
      if cached.Some? && TooLarge(cached.value, |job.file.content|) {
        return Err(FileTooLarge(|job.file.content|, cached.value.maxSize.value));
      }
    }
    r := CreatePlain(w, job, key, paused);
  }

  // ---------------------------------------------------------------- one run

  /** How `RunUpload` stopped: with an outcome, or waiting for a command that never comes. */
  datatype Exit = Returned(outcome: Outcome) | Parked

  /** The run is paused for good. */
  ghost predicate IsParked(w: World, job: Job)
    reads w, w.storage
  {
    && w.AtRest() && w.monitor.stage.Running? && w.monitor.run.job == job && w.monitor.paused && w.pending == []
    && Backed(w, job.file.content, w.monitor.run.offset)
  }

  /** The run is over and its outcome's promises hold. */
  ghost predicate Ended(w: World, job: Job, key: string, outcome: Outcome)
    reads w, w.storage
  {
    var m := w.monitor;
    && w.Valid() && w.Kept() && w.conforms
    && m.run.job == job && (m.run.created ==> Trusted(w, job.file.content))
    && match outcome
       case Done =>
         && m.stage.Waiting?
         && w.state.status == Complete && w.state.bytesUploaded == |job.file.content|
         && StorageKey(key) !in w.storage.rows
         && (w.honest ==> w.resource.stored == job.file.content)
       case Failed(e) =>
         && m.stage == Owing(Fail(e))
         && (w.alone && m.run.created && (w.storage.Generous() || !m.save.refused) ==> w.Safeguarded())
       case Aborted => m.stage.Waiting? && Withdrawn(w, job, key)
       case Restart(next) => m.stage == Starting(next) && !m.paused && Withdrawn(w, job, key)
  }

  /** The state is reset and, if one could exist, the stored entry is gone. */
  ghost predicate Withdrawn(w: World, job: Job, key: string)
    reads w, w.storage
  {
    && IsReset(w.state)
    && (w.monitor.run.created || job.options.existingUrl.Some? ==> StorageKey(key) !in w.storage.rows)
  }

  /** When the upload behind `key` was first stored, or now if no entry can be offered. */
  method CreationTime(w: World, key: string) returns (stamp: Millis)
    requires w.storage.Valid()
    modifies w`readings
    ensures old(w.Kept()) ==> w.Kept()
    ensures DatesBack(w.storage.rows, w.config.endpoint, key, w.readings, stamp)
  {
    var now := w.Now();
    var earlier := w.storage.Get(w.config.endpoint, key, now);
    stamp := if earlier.Some? then earlier.value.storedAt else now;
  }

  ghost function StampAt(rows: Rows, endpoint: string, key: string, now: Millis): Millis {
    var earlier := GetEntry(rows, endpoint, key, now);
    if earlier.Some? then earlier.value.storedAt else now
  }

  /** `stamp` is when the entry on offer for the key was stored, or a reading of the clock if none
      was. */
  ghost predicate DatesBack(rows: Rows, endpoint: string, key: string, readings: set<Millis>, stamp: Millis) {
    exists now | now in readings :: stamp == StampAt(rows, endpoint, key, now)
  }

  lemma DatesBackStill(rows: Rows, endpoint: string, key: string, readings: set<Millis>, more: set<Millis>,
                       stamp: Millis)
    requires DatesBack(rows, endpoint, key, readings, stamp) && readings <= more
    ensures DatesBack(rows, endpoint, key, more, stamp)
  {
    var now :| now in readings && stamp == StampAt(rows, endpoint, key, now);
    assert now in more;
  }

  /** The row of this run says what `at` says. */
  ghost predicate RowShows(w: World, at: Place)
    reads w, w.storage
  {
    var key := StorageKey(at.key);
    key in w.storage.rows && w.storage.rows[key] == ToJson(EntryAt(w.config, at))
  }

  /** The run has shown `at` and saves it next. */
  ghost predicate Showing(w: World, at: Place, paused: bool)
    reads w, w.storage
  {
    var m := w.monitor;
    && w.Valid() && w.Kept() && w.conforms
    && m.stage.Running? && RunTracks(m.run, at) && m.paused == paused && m.shown == Mirror(paused)
    && Unspent(m.tries) && !m.save.unchecked
    && Backed(w, at.job.file.content, at.offset)
  }

  /** Stores where the run stands. */
  method PersistEntry(w: World, at: Place, ghost paused: bool)
    requires Showing(w, at, paused) && at.persisted == at.offset
    requires var save := w.monitor.save;
             save.stamp.Some? ==> save.due && save.stamp.value == at.stamp && save.checkedAt == at.persistedAt
    modifies w`readings, w`history, w`monitor, w`conforms, w.storage
    ensures AtHead(w, at, paused) && w.readings >= old(w.readings)
    ensures old(w.storage.WillAccept()) ==> RowShows(w, at)
  {
    w.Save(EntryAt(w.config, at), at.persistedAt);
  }

  /** Shows the new upload and stores it for a later session. An entry that an earlier session
      left keeps its creation time. */
  method Establish(w: World, job: Job, key: string, paused: bool, created: Created) returns (at: Place)
    requires InCreation(w, job, key, paused) && created.offset <= |job.file.content|
    requires Backed(w, job.file.content, created.offset)
    modifies w`state, w`readings, w`faults, w`history, w`monitor, w`conforms, w.storage
    ensures AtHead(w, at, paused)
    ensures at.job == job && at.key == key && at.url == created.url && at.offset == created.offset
    ensures DatesBack(old(w.storage.rows), w.config.endpoint, key, w.readings, at.stamp)
    ensures w.state == UploadState(if paused then UploadStatus.Paused else Uploading, created.offset,
                                   Some(|job.file.content|), Some(created.url), None)
    ensures old(w.storage.WillAccept()) ==> RowShows(w, at)
  {
    w.Write(Bind(Mirror(paused), created.url, |job.file.content|, created.offset));
    var shownAt := w.Now();
    var stamp := CreationTime(w, key);
    at := Place(job, key, created.url, created.offset, stamp, created.offset, shownAt);
    ghost var readings := w.readings;
    PersistEntry(w, at, paused);
    DatesBackStill(old(w.storage.rows), w.config.endpoint, key, readings, w.readings, stamp);
  }

  /** Does what a command taken between chunks or while paused says. */
  method Obey(w: World, at: Place, ghost held: bool, ghost tries: Tries, cmd: Command)
    returns (quit: Option<Outcome>, paused: bool)
    requires Heard(w, at, held, tries, cmd) && Unspent(tries)
    modifies w`state, w`faults, w`history, w`monitor, w`conforms, w.storage
    ensures quit == if cmd.Pause? || cmd.Resume? then None else Some(OutcomeOf(cmd))
    ensures match quit
            case None => AtHead(w, at, paused) && paused == cmd.Pause? && (!paused ==> w.monitor.tries.looked)
            case Some(outcome) => Ready(w, at.job, at.key, outcome)
  {
    quit, paused := None, cmd.Pause?;
    match cmd {
      case Pause => w.Write(SetStatus(UploadStatus.Paused));
      case Resume => w.Write(SetStatus(Uploading));
      case _ =>
        Leave(w, at.job, at.key, OutcomeOf(cmd), true);
        quit := Some(OutcomeOf(cmd));
    }
  }

  /** Looks for a command between chunks, and takes one at most. */
  method PollAtHead(w: World, at: Place, held: bool) returns (quit: Option<Outcome>, paused: bool)
    requires AtHead(w, at, held)
    modifies w`pending, w`state, w`faults, w`history, w`monitor, w`conforms, w.storage
    ensures w.pending == old(w.pending) || TookOne(w)
    ensures w.smooth && old(w.pending) == [] ==> quit.None? && paused == held
    ensures quit.None? ==> AtHead(w, at, paused) && (!paused ==> w.monitor.tries.looked)
    ensures quit.Some? ==> Ready(w, at.job, at.key, quit.value) && (quit.value.Aborted? || quit.value.Restart?)
    ensures quit.Some? && quit.value.Restart? ==> TookOne(w)
  {
    quit, paused := None, held;
    ghost var tries := w.monitor.tries;
    var poll := Listen(w, at, held, tries);
    match poll {
      case Silent => w.Look();
      case Gone =>
        Leave(w, at.job, at.key, Aborted, true);
        quit := Some(Aborted);
      case Got(cmd) => quit, paused := Obey(w, at, held, tries, cmd);
    }
  }

  /** Paused: takes exactly one command, or finds that none will come. */
  method WaitPaused(w: World, at: Place) returns (exit: Option<Exit>, paused: bool)
    requires AtHead(w, at, true)
    modifies w`pending, w`state, w`readings, w`faults, w`history, w`monitor, w`conforms, w.storage
    ensures if old(w.pending) != [] then TookOne(w)
            else w.pending == [] && exit.Some? && (exit.value.Parked? || (w.closes && exit.value == Returned(Aborted)))
    ensures exit.None? ==> AtHead(w, at, paused)
    ensures exit.Some? ==>
      match exit.value
      case Parked => IsParked(w, at.job)
      case Returned(outcome) =>
        && Ready(w, at.job, at.key, outcome) && (outcome.Aborted? || outcome.Restart?)
        && (outcome.Restart? ==> TookOne(w))
  {
    exit, paused := None, true;
    ghost var tries := w.monitor.tries;
    var poll := Await(w, at, true, tries);
    match poll {
      case Silent => exit := Some(Parked);
      case Gone =>
        Leave(w, at.job, at.key, Aborted, true);
        exit := Some(Returned(Aborted));
      case Got(cmd) =>
        if !cmd.Pause? {
          var quit;
          quit, paused := Obey(w, at, true, tries, cmd);
          exit := if quit.Some? then Some(Returned(quit.value)) else None;
        }
    }
  }

  /** Takes over the server's new offset and looks at the clock. */
  method Acknowledge(w: World, at: Place, offset: nat) returns (next: Place, now: Millis)
    requires InUpload(w, at, false) && w.monitor.tries.patches > 0
    requires at.offset < offset <= |at.job.file.content| && Backed(w, at.job.file.content, offset)
    modifies w`state, w`readings, w`faults, w`history, w`monitor, w`conforms
    ensures next == at.(offset := offset) && Showing(w, next, false)
    ensures w.state == old(w.state).(bytesUploaded := offset)
    ensures var save := w.monitor.save;
            save == old(w.monitor.save).(checkedAt := now, due := save.due)
            && save.due == (now - at.persistedAt > 2_000.0 || offset - at.persisted >= Threshold(|at.job.file.content|)
                            || offset == |at.job.file.content|)
  {
    next := at.(offset := offset);
    w.Write(Progress(offset));
    now := w.Tick();
  }

  /** Takes over the server's new offset; saves it when enough time or progress has passed. */
  method Advance(w: World, at: Place, offset: nat) returns (next: Place)
    requires InUpload(w, at, false) && w.monitor.tries.patches > 0
    requires at.offset < offset <= |at.job.file.content| && Backed(w, at.job.file.content, offset)
    modifies w`state, w`readings, w`faults, w`history, w`monitor, w`conforms, w.storage
    ensures AtHead(w, next, false)
    ensures next.job == at.job && next.key == at.key && next.offset == offset
    ensures w.state == old(w.state).(bytesUploaded := offset)
    ensures offset - at.persisted >= Threshold(|at.job.file.content|) || offset == |at.job.file.content| ==>
      next.persisted == offset
    ensures next.persisted == offset && old(w.storage.WillAccept()) ==> RowShows(w, next)
    ensures next.persisted != offset ==> next.persisted == at.persisted
  {
    var size := |at.job.file.content|;
    var now;
    next, now := Acknowledge(w, at, offset);
    var delta := if offset >= next.persisted then offset - next.persisted else 0;
    if now - next.persistedAt > 2_000.0 || delta >= Threshold(size) || offset == size {
      next := next.(persisted := offset, persistedAt := now);
      PersistEntry(w, next, false);
    }
  }

  /** Runs the creation request that the options call for, unless a command interrupts it. */
  method ResolveUrl(w: World, job: Job, key: string, held: bool)
    returns (created: Option<Created>, quit: Outcome, paused: bool)
    requires InCreation(w, job, key, held) && w.monitor.tries.asked.None?
    modifies w`pending, w`state, w`readings, w`resource, w`strays, w`known, w`faults
    modifies w`history, w`monitor, w`conforms, w.storage
    ensures |w.pending| <= |old(w.pending)|
    ensures w.smooth && old(w.pending) == [] ==> created.Some? && paused == held
    ensures created.Some? ==>
      && InCreation(w, job, key, paused) && created.value.offset <= |job.file.content|
      && Backed(w, job.file.content, created.value.offset)
    ensures created.None? ==> Ready(w, job, key, quit) && !quit.Done?
    ensures created.None? && quit.Restart? ==> |w.pending| < |old(w.pending)|
    ensures old(w.StraysBegin()) ==> w.StraysBegin()
  {
    created, quit := None, Aborted;
    var race;
    race, paused := RacePreLoop(w, job, key, held);
    match race {
      case Abandon =>
        Leave(w, job, key, Aborted, false);
      case Switch(next) =>
        Leave(w, job, key, Restart(next), false);
        quit := Restart(next);
      case Proceed =>
        var r, caps := RequestUrl(w, job, key, paused);
        match r {
          case Err(e) => quit := Failed(e);
          case Ok(c) => created := Some(c);
        }
    }
  }

  /** The creation request itself, and the checks on its answer. The server's capabilities are
      consulted exactly for a new upload that may ride on its POST. */
  method RequestUrl(w: World, job: Job, key: string, paused: bool)
    returns (r: Result<Created, TusError>, ghost caps: Option<Result<Capabilities, NetError>>)
    requires InCreation(w, job, key, paused) && w.monitor.tries.asked.None?
    modifies w`state, w`readings, w`resource, w`known, w`history, w`monitor, w`conforms, w.storage
    ensures caps.Some? <==>
      job.options.existingUrl.None? && 0 < |job.file.content| <= w.config.creationWithUploadThreshold
    ensures match caps
            case Some(Ok(c)) =>
              && (c.maxSize.Some? && |job.file.content| > c.maxSize.value ==>
                    r == Err(FileTooLarge(|job.file.content|, c.maxSize.value)))
            case _ => true
    ensures w.smooth ==> r.Ok?
    ensures r.Ok? ==>
      && InCreation(w, job, key, paused) && r.value.offset <= |job.file.content|
      && Backed(w, job.file.content, r.value.offset)
    ensures r.Err? ==> Ready(w, job, key, Failed(r.error))
  {
    caps := None;
    if job.options.existingUrl.Some? {
      ghost var told;
      r, told := ResumeExisting(w, job, key, paused, job.options.existingUrl.value);
    } else if w.config.UseCreationWithUpload(|job.file.content|) {
      ghost var told;
      ghost var learnt;
      r, learnt, told := CreateWithBody(w, job, key, paused);
      caps := Some(learnt);
    } else {
      r := CreateEmpty(w, job, key, paused);
    }
    if r.Ok? {
      var invalid := ValidateServerOffset(r.value.offset, |job.file.content|);
      if invalid.Some? {
        r := Err(invalid.value);
      } else {
        var valid := w.ValidRequest();
        if !valid {
          r := Err(InvalidRequest);
        }
      }
    }
  }

  /** The chunk loop: alternates between commands, pauses and chunks until the file is sent. */
  method ChunkLoop(w: World, start: Place, held: bool) returns (exit: Exit, paused: bool)
    requires AtHead(w, start, held)
    modifies w`pending, w`state, w`readings, w`resource, w`faults, w`history, w`monitor, w`conforms, w.storage
    ensures w.smooth && old(w.pending) == [] && !held ==> exit == Returned(Done)
    ensures match exit
            case Parked => IsParked(w, start.job)
            case Returned(outcome) =>
              && Ready(w, start.job, start.key, outcome) && |w.pending| <= |old(w.pending)|
              && (outcome.Restart? ==> |w.pending| < |old(w.pending)|)
  {
    var at := start;
    paused := held;
    while at.offset < |at.job.file.content|
      invariant at.job == start.job && at.key == start.key
      invariant AtHead(w, at, paused)
      invariant |w.pending| <= |old(w.pending)|
      invariant w.smooth && old(w.pending) == [] && !held ==> w.pending == [] && !paused
      decreases |w.pending|, |at.job.file.content| - at.offset
    {
      var quit;
      quit, paused := PollAtHead(w, at, paused);
      if quit.Some? {
        return Returned(quit.value), paused;
      }
      if paused {
        var stopped;
        stopped, paused := WaitPaused(w, at);
        if stopped.Some? {
          return stopped.value, paused;
        }
        continue;
      }
      var sent := SendChunk(w, at);
      match sent {
        case Advanced(offset) => at := Advance(w, at, offset);
        case Held => paused := true;
        case Broken(e) => return Returned(Failed(e)), paused;
        case Left(outcome) => return Returned(outcome), paused;
      }
    }
    FinishUpload(w, at, paused);
    exit := Returned(Done);
  }

  /** Every byte is acknowledged: nothing is left to resume. */
  method FinishUpload(w: World, at: Place, ghost paused: bool)
    requires InUpload(w, at, paused) && at.offset >= |at.job.file.content|
    modifies w`state, w`faults, w`history, w`monitor, w`conforms, w.storage
    ensures Ready(w, at.job, at.key, Done)
  {
    w.RemoveRow(at.key);
    w.Write(Finish(|at.job.file.content|));
  }

  /** Everything between a run's beginning and its outcome. */
  method RunBody(w: World, job: Job, key: string, held: bool) returns (exit: Exit)
    requires InCreation(w, job, key, held) && w.monitor.tries.asked.None?
    modifies w`pending, w`state, w`readings, w`resource, w`strays, w`known, w`faults
    modifies w`history, w`monitor, w`conforms, w.storage
    ensures w.smooth && old(w.pending) == [] && !held ==> exit == Returned(Done)
    ensures match exit
            case Parked => IsParked(w, job)
            case Returned(outcome) =>
              && Ready(w, job, key, outcome) && |w.pending| <= |old(w.pending)|
              && (outcome.Restart? ==> |w.pending| < |old(w.pending)|)
    ensures old(w.StraysBegin()) ==> w.StraysBegin()
  {
    var valid := w.ValidRequest();
    if !valid {
      return Returned(Failed(InvalidRequest));
    }
    var created, quit, paused := ResolveUrl(w, job, key, held);
    if created.None? {
      return Returned(quit);
    }
    var at := Establish(w, job, key, paused, created.value);
    exit, paused := ChunkLoop(w, at, paused);
  }

  method EndRun(w: World, job: Job, key: string, outcome: Outcome)
    requires Ready(w, job, key, outcome)
    modifies w`delivered, w`history, w`monitor, w`conforms
    ensures Ended(w, job, key, outcome)
    ensures w.honest && Delivered(old(w.delivered)) ==> Delivered(w.delivered)
  {
    w.Exit(outcome);
    if outcome.Failed? && w.monitor.run.created && w.alone {
      w.FailureIsSafeguarded(outcome.error);
    }
  }

  /** Named where a proof looks inside a match key, and only there. */
  ghost predicate Keyed(file: File) {
    true
  }

  /** One upload, from its creation request to its outcome. Its row is the one under the match
      key of its file. */
  method RunUpload(w: World, job: Job, held: bool) returns (exit: Exit)
    requires w.Valid() && w.conforms && w.monitor.stage == Starting(job) && w.monitor.paused == held
    modifies w, w.storage
    ensures w.smooth && old(w.pending) == [] && !held ==> exit == Returned(Done)
    ensures forall file {:trigger Keyed(file)} | Keyed(file) && file == job.file ::
              w.ownKey == KeyFor(w.config.endpoint, file)
    ensures match exit
            case Parked => IsParked(w, job)
            case Returned(outcome) =>
              && Ended(w, job, w.ownKey, outcome) && |w.pending| <= |old(w.pending)|
              && (outcome.Restart? ==> |w.pending| < |old(w.pending)|)
    ensures w.honest && Delivered(old(w.delivered)) ==> Delivered(w.delivered)
    ensures old(w.StraysBegin()) ==> w.StraysBegin()
  {
    var key := KeyFor(w.config.endpoint, job.file);
    exit := RunKeyed(w, job, key, held);
  }

  /** One upload under a match key that is known. */
  method RunKeyed(w: World, job: Job, key: string, held: bool) returns (exit: Exit)
    requires w.Valid() && w.conforms && w.monitor.stage == Starting(job) && w.monitor.paused == held
    modifies w, w.storage
    ensures w.ownKey == key
    ensures w.smooth && old(w.pending) == [] && !held ==> exit == Returned(Done)
    ensures match exit
            case Parked => IsParked(w, job)
            case Returned(outcome) =>
              && Ended(w, job, key, outcome) && |w.pending| <= |old(w.pending)|
              && (outcome.Restart? ==> |w.pending| < |old(w.pending)|)
    ensures w.honest && Delivered(old(w.delivered)) ==> Delivered(w.delivered)
    ensures old(w.StraysBegin()) ==> w.StraysBegin()
  {
    w.Begin(job, key);
    exit := RunBody(w, job, key, held);
    if exit.Returned? {
      EndRun(w, job, key, exit.outcome);
    }
  }

  /** Every reported completion found the whole file on the server. */
  ghost predicate Delivered(deliveries: seq<Delivery>) {
    forall i | 0 <= i < |deliveries| :: deliveries[i].stored == deliveries[i].job.file.content
  }

  /** The environment is smooth and the only command is one Start. */
  predicate OneSmoothStart(w: World, pending: seq<Command>) {
    w.smooth && !w.closes && |pending| == 1 && pending[0].Start?
  }

  /** The outer command loop. It ends when every command has been taken and none can follow,
      or when a paused upload waits for one that never comes. A single Start in a smooth
      environment completes. */
  method RunCommandLoop(w: World)
    requires w.AtRest() && w.monitor.stage.Waiting?
    modifies w, w.storage
    ensures w.Valid() && w.Kept() && w.conforms && Conforms(w.config, w.history)
    ensures w.pending == [] && Taken(w.history) == w.sent
    ensures w.monitor.stage.Waiting? || (w.monitor.stage.Running? && w.monitor.paused)
    ensures w.honest && Delivered(old(w.delivered)) ==> Delivered(w.delivered)
    ensures old(w.StraysBegin()) ==> w.StraysBegin()
    ensures OneSmoothStart(w, old(w.pending)) ==>
      w.state.status == Complete && w.state.bytesUploaded == |old(w.pending)[0].job.file.content|
  {
    while true
      invariant w.AtRest() && w.monitor.stage.Waiting?
      invariant w.honest && Delivered(old(w.delivered)) ==> Delivered(w.delivered)
      invariant old(w.StraysBegin()) ==> w.StraysBegin()
      invariant OneSmoothStart(w, old(w.pending)) ==>
        || w.pending == old(w.pending)
        || (w.pending == [] && w.state.status == Complete
            && w.state.bytesUploaded == |old(w.pending)[0].job.file.content|)
      decreases |w.pending|
    {
      var poll := AwaitIdle(w);
      if !poll.Got? {
        w.Inspect();
        return;
      }
      if poll.cmd.Start? {
        var parked := RunUntilSettled(w, poll.cmd.job);
        if parked {
          w.Inspect();
          return;
        }
      } else {
        HandleIdle(w, poll.cmd);
      }
    }
  }

  /** A command was taken outside any upload. */
  ghost predicate TookIdly(w: World, cmd: Command)
    reads w, w.storage
  {
    && w.Valid() && w.Kept() && w.conforms
    && exists before: Monitor :: before.stage.Waiting? && before.signal == w.state && w.monitor == NextTook(before, cmd)
  }

  /** Waits for a command outside any upload. */
  method AwaitIdle(w: World) returns (poll: Poll)
    requires w.AtRest() && w.monitor.stage.Waiting?
    modifies w`pending, w`state, w`readings, w`history, w`monitor, w`conforms, w.storage`rows
    ensures match poll
            case Got(cmd) =>
              && TookOne(w) && cmd == old(w.pending)[0] && TookIdly(w, cmd)
              && (cmd.Start? ==> w.monitor.stage == Starting(cmd.job) && !w.monitor.paused)
            case _ => w.AtRest() && w.monitor.stage.Waiting? && w.pending == old(w.pending) == []
    ensures old(w.pending) == [] ==> w.state == old(w.state)
  {
    w.Suspend();
    poll := w.NextCommand();
  }

  /** A command outside any upload. */
  method HandleIdle(w: World, cmd: Command)
    requires TookIdly(w, cmd) && !cmd.Start?
    modifies w`state, w`faults, w`history, w`monitor, w`conforms
    ensures w.AtRest() && w.monitor.stage.Waiting?
  {
    match cmd {
      case Abort => w.Write(ClearIdle);
      case Pause =>
        if w.state.status == Uploading {
          w.Write(SetStatus(UploadStatus.Paused));
        }
      case Resume =>
        if w.state.status == UploadStatus.Paused {
          w.Write(SetStatus(Uploading));
        }
    }
  }

  method ReportFailure(w: World, ghost job: Job, e: TusError)
    requires Ended(w, job, w.ownKey, Failed(e))
    modifies w`state, w`faults, w`history, w`monitor, w`conforms
    ensures w.AtRest() && w.monitor.stage.Waiting?
    ensures w.state == old(w.state).(status := UploadStatus.Error, error := Some(e))
  {
    w.Write(Fail(e));
  }

  /** Runs an upload and, while a new `Start` displaces it, the next one. */
  method RunUntilSettled(w: World, first: Job) returns (parked: bool)
    requires w.Valid() && w.conforms && w.monitor.stage == Starting(first) && !w.monitor.paused
    modifies w, w.storage
    ensures w.Valid() && w.Kept() && w.conforms
    ensures !parked ==> w.monitor.stage.Waiting? && |w.pending| <= |old(w.pending)|
    ensures parked ==> w.pending == [] && w.monitor.stage.Running? && w.monitor.paused
    ensures w.honest && Delivered(old(w.delivered)) ==> Delivered(w.delivered)
    ensures old(w.StraysBegin()) ==> w.StraysBegin()
    ensures w.smooth && old(w.pending) == [] ==>
      !parked && w.pending == [] && w.state.status == Complete && w.state.bytesUploaded == |first.file.content|
  {
    var job := first;
    while true
      invariant w.Valid() && w.conforms && w.monitor.stage == Starting(job) && !w.monitor.paused
      invariant |w.pending| <= |old(w.pending)| && (old(w.pending) == [] ==> job == first)
      invariant w.honest && Delivered(old(w.delivered)) ==> Delivered(w.delivered)
      invariant old(w.StraysBegin()) ==> w.StraysBegin()
      decreases |w.pending|
    {
      var exit := RunUpload(w, job, false);
      match exit {
        case Parked => return true;
        case Returned(outcome) =>
          match outcome {
            case Restart(next) => job := next;
            case Failed(e) =>
              ReportFailure(w, job, e);
              return false;
            case _ => return false;
          }
      }
    }
  }
}
