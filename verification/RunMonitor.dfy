/** The protocol that one upload worker must follow, as an automaton over the events an
    observer could see: commands taken from the channel, requests sent, state updates, rows
    stored and removed, and runs beginning and ending. `Allowed` says which event may come
    next; what a conforming worker guarantees is proved about the automaton alone. */
module RunMonitor {
  import opened Wrappers
  import opened UploadTypes
  import opened Persistence
  import MatchKey

  datatype Outcome = Done | Aborted | Restart(job: Job) | Failed(error: TusError)

  datatype Request =
    | Options
    | Create
    | CreateWithBody(payload: Bytes)
    | ResumeHead
    | RecoveryHead
    | Patch(offset: nat, body: Bytes)

  /** The state updates a worker makes. */
  datatype Update =
    | Bind(status: UploadStatus, url: string, total: nat, bytes: nat)
    | SetStatus(status: UploadStatus)
    | Progress(bytes: nat)
    | ResetIdle
    | Finish(bytes: nat)
    | ClearIdle
    | Fail(error: TusError)

  function Apply(u: Update, s: UploadState): UploadState {
    match u
    case Bind(status, url, total, bytes) => UploadState(status, bytes, Some(total), Some(url), None)
    case SetStatus(status) => s.(status := status)
    case Progress(bytes) => s.(bytesUploaded := bytes)
    case ResetIdle => UploadState(Idle, 0, None, None, s.error)
    case Finish(bytes) => s.(status := Complete, bytesUploaded := bytes)
    case ClearIdle => UploadState(Idle, 0, None, None, None)
    case Fail(e) => s.(status := UploadStatus.Error, error := Some(e))
  }

  predicate IsReset(s: UploadState) {
    s.status == Idle && s.bytesUploaded == 0 && s.bytesTotal.None? && s.uploadUrl.None?
  }

  /** What `start` writes before it sends its command. */
  const STAMPED: UploadState := UploadState(Uploading, 0, None, None, None)

  /** `Denied` is the failure of the latest PATCH or recovery HEAD, `Rested` the wait that begins
      before a retry, `Looked` a look at an empty channel between chunks, and `Forgot` the end of
      the cached capabilities of the server. */
  datatype Event =
    | Stamped
    | Took(cmd: Command)
    | HungUp
    | Began(job: Job, key: string)
    | Asked(request: Request)
    | Wrote(update: Update)
    | Clock(now: Millis)
    | Stored(entry: ResumableEntry, at: Millis, ok: bool)
    | Cleared
    | Denied(error: NetError)
    | Rested(delay: nat)
    | Looked
    | Forgot
    | Exited(outcome: Outcome)

  /** Where the worker is. `Owing` must write an update and `Starting` must begin a run before
      anything else; `Leaving` has learnt how its run ends. */
  datatype Stage =
    | Waiting
    | Owing(update: Update)
    | Starting(job: Job)
    | Creating
    | Running
    | Leaving(outcome: Outcome)

  /** The latest run: what it uploads and where it stands. */
  datatype RunFacts = RunFacts(
    job: Job,
    key: string,
    url: string,
    offset: nat,
    created: bool,
    cleared: bool,
    idle: bool)

  /** What the latest run has done to save its progress. `persisted` and `persistedAt` follow
      every attempt, `saved` only what the store accepted. */
  datatype SaveFacts = SaveFacts(
    stamp: Option<Millis>,
    persisted: nat,
    persistedAt: Millis,
    checkedAt: Millis,
    unchecked: bool,
    due: bool,
    saved: Option<ResumableEntry>,
    refused: bool)

  const UNSAVED: SaveFacts := SaveFacts(None, 0, 0.0, 0.0, false, false, None, false)

  /** The requests of the current stretch, which ends with progress or a pause: how many went
      out and failed and how often a retry was waited for, the failure of the latest, whether the
      channel was looked at, and the latest request. */
  datatype Tries = Tries(
    patches: nat,
    heads: nat,
    failures: nat,
    rests: nat,
    denied: Option<NetError>,
    looked: bool,
    asked: Option<Request>)

  const UNTRIED: Tries := Tries(0, 0, 0, 0, None, false, None)

  datatype Monitor = Monitor(
    stage: Stage,
    signal: UploadState,
    paused: bool,
    shown: UploadStatus,
    tries: Tries,
    run: RunFacts,
    save: SaveFacts)
  {
    function Size(): nat {
      |run.job.file.content|
    }

    predicate Resuming() {
      run.job.options.existingUrl.Some?
    }
  }

  function Mirror(paused: bool): UploadStatus {
    if paused then UploadStatus.Paused else Uploading
  }

  function Min(a: int, b: int): int {
    if a < b then a else b
  }

  function Max(a: int, b: int): int {
    if a < b then b else a
  }

  /** The part of the file that one request carries. */
  function Chunk(config: TusConfig, content: Bytes, offset: nat): Bytes
    requires offset <= |content|
  {
    content[offset..Min(offset + Max(config.chunkSize, 1), |content|)]
  }

  /** The longest wait before retry number `attempt`: it doubles and saturates at 32 bits. */
  function LongestWait(config: TusConfig, attempt: nat): nat {
    Min(config.retryDelayMs * MatchKey.Pow2(Min(attempt, 8)), 0xffff_ffff)
  }

  /** Progress that must not stay unsaved: five percent of the file, at least one byte. */
  function Threshold(size: nat): nat {
    Max(size / 20, 1)
  }

  /** Nothing is left to do before the next suspension point of a running upload. */
  predicate Settled(m: Monitor) {
    m.save.stamp.Some? && !m.save.unchecked && !m.save.due && m.shown == Mirror(m.paused)
  }

  /** Points where the worker may be suspended. Between removing its entry and showing that it
      is complete it may not. */
  predicate AtAwait(m: Monitor) {
    m.stage.Waiting? || m.stage.Creating? || (m.stage.Running? && Settled(m) && !m.run.cleared)
  }

  predicate Interrupted(s: Stage) {
    s.Leaving? && (s.outcome.Aborted? || s.outcome.Restart?)
  }

  predicate MayAsk(config: TusConfig, m: Monitor, request: Request) {
    match request
    case Options => m.stage.Creating? && !m.Resuming() && m.tries.asked.None?
    case Create =>
      m.stage.Creating? && !m.Resuming() && !(m.tries.asked.Some? && m.tries.asked.value.CreateWithBody?)
    case CreateWithBody(payload) =>
      m.stage.Creating? && !m.Resuming() && config.UseCreationWithUpload(m.Size()) && payload == m.run.job.file.content
    case ResumeHead => m.stage.Creating? && m.Resuming()
    case RecoveryHead =>
      m.stage.Running? && AtAwait(m) && !m.paused && m.tries.patches > 0
      && m.tries.heads <= config.maxRetries && m.tries.rests == m.tries.heads
    case Patch(offset, body) =>
      m.stage.Running? && AtAwait(m) && !m.paused && m.tries.looked && m.tries.denied.None?
      && m.tries.patches <= config.maxRetries && m.tries.patches <= m.tries.heads && m.tries.rests == m.tries.heads
      && offset == m.run.offset < m.Size() && body == Chunk(config, m.run.job.file.content, offset)
  }

  predicate MayWrite(m: Monitor, u: Update) {
    match m.stage
    case Owing(v) => u == v
    case Creating =>
      u.Bind? && !m.run.cleared && u.status == Mirror(m.paused) && u.total == m.Size() && u.bytes <= m.Size()
    case Running =>
      (match u
       case SetStatus(status) => status == Mirror(m.paused)
       case Progress(bytes) => Settled(m) && !m.paused && m.tries.patches > 0 && m.run.offset < bytes <= m.Size()
       case Finish(bytes) => Settled(m) && m.run.cleared && m.run.offset == bytes == m.Size()
       case _ => false)
    case Leaving(_) => Interrupted(m.stage) && u == ResetIdle
    case _ => false
  }

  predicate MayStore(config: TusConfig, m: Monitor, e: ResumableEntry, at: Millis) {
    && m.stage.Running?
    && (m.save.stamp.Some? ==> m.save.due && e.storedAt == m.save.stamp.value && at == m.save.checkedAt)
    && e.matchKey == m.run.key && e.endpoint == config.endpoint
    && e.filename == m.run.job.file.name && e.fileSize == m.Size() && e.lastModified == m.run.job.file.modified
    && e.uploadUrl == m.run.url && e.bytesUploaded == m.run.offset
  }

  predicate IsGone(e: TusError) {
    e.Server? && (e.status == 400 || e.status == 404 || e.status == 410)
  }

  /** A running upload gives up over a request that failed once too often, or over an answer or
      a file that is of no use. */
  predicate MayGiveUp(config: TusConfig, tries: Tries, error: TusError) {
    match tries.denied
    case Some(e) => tries.failures > config.maxRetries && error == ToTusError(e)
    case None => error == Transport || error == BlobRead
  }

  predicate MayExit(config: TusConfig, m: Monitor, outcome: Outcome) {
    match m.stage
    case Creating => outcome.Failed? && (m.run.cleared ==> IsGone(outcome.error))
    case Running => outcome.Failed? && AtAwait(m) && MayGiveUp(config, m.tries, outcome.error)
    case Leaving(known) =>
      outcome == known && (Interrupted(m.stage) ==> m.run.idle && (m.run.created || m.Resuming() ==> m.run.cleared))
    case _ => false
  }

  /** The event may come next. */
  predicate Allowed(config: TusConfig, m: Monitor, e: Event) {
    match e
    case Stamped => AtAwait(m)
    case Took(_) => AtAwait(m)
    case HungUp => m.stage.Running? && AtAwait(m)
    case Began(job, _) => m.stage == Starting(job)
    case Asked(request) => MayAsk(config, m, request)
    case Wrote(u) => MayWrite(m, u)
    case Clock(_) => m.stage.Running? && m.save.unchecked
    case Stored(entry, at, _) => MayStore(config, m, entry, at)
    case Cleared =>
      || (m.stage.Creating? && m.Resuming())
      || (m.stage.Running? && Settled(m) && m.run.offset == m.Size())
      || (Interrupted(m.stage) && (m.run.created || m.Resuming()))
    case Denied(_) =>
      m.stage.Running? && AtAwait(m) && m.tries.asked.Some? && m.tries.denied.None?
      && (m.tries.asked.value.Patch? || m.tries.asked.value.RecoveryHead?)
    case Rested(delay) =>
      m.stage.Running? && AtAwait(m) && m.tries.rests < m.tries.heads && delay <= LongestWait(config, m.tries.rests)
    case Looked => m.stage.Running? && AtAwait(m)
    case Forgot => m.stage.Creating? && m.tries.asked.Some? && m.tries.asked.value.CreateWithBody?
    case Exited(outcome) => MayExit(config, m, outcome)
  }

  function StageTook(m: Monitor, cmd: Command): Stage {
    if m.stage.Waiting? then
      match cmd
      case Start(job) => Starting(job)
      case Abort => Owing(ClearIdle)
      case Pause => if m.signal.status == Uploading then Owing(SetStatus(UploadStatus.Paused)) else Waiting
      case Resume => if m.signal.status == UploadStatus.Paused then Owing(SetStatus(Uploading)) else Waiting
    else
      match cmd
      case Start(job) => Leaving(Restart(job))
      case Abort => Leaving(Aborted)
      case _ => m.stage
  }

  /** A new stretch of requests. */
  function Renewed(t: Tries): Tries {
    t.(patches := 0, heads := 0, failures := 0, rests := 0, denied := None, looked := false)
  }

  /** A pause ends the current stretch of requests. */
  function NextTook(m: Monitor, cmd: Command): Monitor {
    var inRun := !m.stage.Waiting?;
    m.(stage := StageTook(m, cmd),
       paused := if inRun then cmd.Pause? || (m.paused && !cmd.Resume?) else m.paused && !cmd.Start?,
       tries := if inRun && cmd.Pause? then Renewed(m.tries) else m.tries.(looked := true))
  }

  function StageWrote(m: Monitor, u: Update): Stage {
    if m.stage.Owing? then Waiting
    else if m.stage.Creating? && u.Bind? then Running
    else if m.stage.Running? && u.Finish? then Leaving(Done)
    else m.stage
  }

  function NextWrote(m: Monitor, u: Update): Monitor {
    var binds := m.stage.Creating? && u.Bind?;
    var advances := m.stage.Running? && u.Progress?;
    m.(stage := StageWrote(m, u),
       signal := Apply(u, m.signal),
       shown := if binds || (m.stage.Running? && u.SetStatus?) then u.status else m.shown,
       tries := if binds || advances then Renewed(m.tries) else m.tries,
       run := m.run.(created := m.run.created || binds,
                     idle := m.run.idle || m.stage.Leaving?,
                     url := if binds then u.url else m.run.url,
                     offset := if binds || advances then u.bytes else m.run.offset),
       save := m.save.(unchecked := m.save.unchecked || advances))
  }

  function NextExited(m: Monitor, outcome: Outcome): Monitor {
    m.(stage := (match outcome
                 case Restart(job) => Starting(job)
                 case Failed(e) => Owing(Fail(e))
                 case _ => Waiting),
       paused := m.paused && !outcome.Restart?)
  }

  function NextBegan(m: Monitor, job: Job, key: string): Monitor {
    m.(stage := Creating, tries := UNTRIED,
       run := RunFacts(job, key, "", 0, false, false, false),
       save := m.save.(stamp := None, unchecked := false, due := false, saved := None, refused := false))
  }

  function NextAsked(m: Monitor, request: Request): Monitor {
    m.(tries := m.tries.(
         asked := Some(request),
         denied := None,
         patches := if request.Patch? then m.tries.patches + 1 else m.tries.patches,
         heads := if request.RecoveryHead? then m.tries.heads + 1 else m.tries.heads))
  }

  /** A failure that is not worth a retry ends the run. */
  function NextDenied(m: Monitor, e: NetError): Monitor {
    m.(stage := if IsRetryable(e) then m.stage else Leaving(Failed(ToTusError(e))),
       tries := m.tries.(failures := m.tries.failures + 1, denied := Some(e)))
  }

  /** Progress is saved when two seconds have passed, when enough of it is unsaved, and at the
      end. */
  function NextClock(m: Monitor, now: Millis): Monitor {
    m.(save := m.save.(
         unchecked := false,
         checkedAt := now,
         due := now - m.save.persistedAt > 2_000.0
                || m.run.offset - m.save.persisted >= Threshold(m.Size())
                || m.run.offset == m.Size()))
  }

  function NextStored(m: Monitor, entry: ResumableEntry, at: Millis, ok: bool): Monitor {
    m.(save := m.save.(
         stamp := Some(entry.storedAt),
         persisted := m.run.offset,
         persistedAt := at,
         due := false,
         saved := if ok then Some(entry) else m.save.saved,
         refused := !ok))
  }

  /** The automaton's state after the event. */
  function Next(m: Monitor, e: Event): Monitor {
    match e
    case Stamped => m.(signal := STAMPED)
    case Took(cmd) => NextTook(m, cmd)
    case HungUp => m.(stage := Leaving(Aborted))
    case Began(job, key) => NextBegan(m, job, key)
    case Asked(request) => NextAsked(m, request)
    case Wrote(u) => NextWrote(m, u)
    case Clock(now) => NextClock(m, now)
    case Stored(entry, at, ok) => NextStored(m, entry, at, ok)
    case Cleared => m.(run := m.run.(cleared := true), save := m.save.(saved := None))
    case Denied(error) => NextDenied(m, error)
    case Rested(_) => m.(tries := m.tries.(rests := m.tries.rests + 1))
    case Looked => m.(tries := m.tries.(looked := true))
    case Forgot => m.(tries := m.tries.(asked := None))
    case Exited(outcome) => NextExited(m, outcome)
  }

  const NO_JOB: Job := Job(File("", [], MatchKey.NotFinite), StartOptions(None, false), 0)

  const INITIAL: Monitor :=
    Monitor(Waiting, UploadState(Idle, 0, None, None, None), false, Idle, UNTRIED,
            RunFacts(NO_JOB, "", "", 0, false, false, false), UNSAVED)

  /** A worker's events so far, oldest first. */
  datatype History = Blank | Then(past: History, event: Event)

  function After(h: History): Monitor {
    match h
    case Blank => INITIAL
    case Then(past, event) => Next(After(past), event)
  }

  /** Every event was allowed when it happened. */
  predicate Conforms(config: TusConfig, h: History) {
    match h
    case Blank => true
    case Then(past, event) => Conforms(config, past) && Allowed(config, After(past), event)
  }

  /** The commands taken, in order. */
  function Taken(h: History): seq<Command> {
    match h
    case Blank => []
    case Then(past, event) => Taken(past) + (if event.Took? then [event.cmd] else [])
  }
}
