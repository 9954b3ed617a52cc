/** When an upload under way saves its progress: exactly when enough time or progress has passed,
    and at the end. */
module SaveLaws {
  import opened Wrappers
  import opened UploadTypes
  import opened RunMonitor
  import opened RunLaws
  import Persistence

  /** The bytes and the time of the last save that the current run attempted, and the clock
      reading since the latest progress, if there was one. */
  datatype SaveLog = SaveLog(saved: Option<(nat, Millis)>, clock: Option<Millis>)

  function LogStep(log: SaveLog, e: Event): SaveLog {
    match e
    case Began(_, _) => SaveLog(None, None)
    case Stored(entry, at, _) => log.(saved := Some((entry.bytesUploaded, at)))
    case Clock(now) => log.(clock := Some(now))
    case Wrote(u) => if u.Bind? || u.Progress? then log.(clock := None) else log
    case _ => log
  }

  function LogOf(h: History): SaveLog {
    match h
    case Blank => SaveLog(None, None)
    case Then(past, e) => LogStep(LogOf(past), e)
  }

  /** More than two seconds since the last save, five percent of the file and at least one byte
      since then, or the end. */
  predicate SaveIsDue(saved: (nat, Millis), now: Millis, offset: nat, size: nat) {
    now - saved.1 > 2_000.0 || offset - saved.0 >= Max(1, size / 20) || offset == size
  }

  /** The automaton's bookkeeping is what the history shows. */
  ghost predicate Keeps(m: Monitor, log: SaveLog) {
    && (m.stage.Creating? ==> log.saved.None?)
    && (m.stage.Running? ==>
          if m.save.stamp.None? then log.saved.None?
          else
            && log.saved == Some((m.save.persisted, m.save.persistedAt))
            && (if m.save.unchecked then log.clock.None? && !m.save.due
                else if log.clock.None? then m.save.persisted == m.run.offset && !m.save.due
                else if m.save.due then log.clock == Some(m.save.checkedAt)
                     && SaveIsDue(log.saved.value, log.clock.value, m.run.offset, m.Size())
                else m.save.persisted == m.run.offset
                     || !SaveIsDue(log.saved.value, log.clock.value, m.run.offset, m.Size())))
  }

  lemma KeepsTook(m: Monitor, cmd: Command, log: SaveLog)
    requires AtAwait(m) && Keeps(m, log)
    ensures Keeps(NextTook(m, cmd), log)
  {
    var next := NextTook(m, cmd);
    assert next.save == m.save && next.run == m.run && next.stage == StageTook(m, cmd);
    if next.stage.Creating? || next.stage.Running? {
      assert next.stage == m.stage;
    }
  }

  lemma KeepsWrote(config: TusConfig, m: Monitor, u: Update, log: SaveLog)
    requires Sound(config, m) && MayWrite(m, u) && Keeps(m, log)
    ensures Keeps(NextWrote(m, u), LogStep(log, Wrote(u)))
  {
    match m.stage
    case Creating =>
    case Running =>
    case Owing(_) =>
    case Leaving(_) =>
  }

  lemma KeepsClock(config: TusConfig, m: Monitor, now: Millis, log: SaveLog)
    requires Sound(config, m) && m.stage.Running? && m.save.unchecked && Keeps(m, log)
    ensures Keeps(NextClock(m, now), LogStep(log, Clock(now)))
  {
  }

  lemma KeepsStored(config: TusConfig, m: Monitor, entry: Persistence.ResumableEntry, at: Millis, ok: bool,
                    log: SaveLog)
    requires Sound(config, m) && MayStore(config, m, entry, at) && Keeps(m, log)
    ensures Keeps(NextStored(m, entry, at, ok), LogStep(log, Stored(entry, at, ok)))
  {
  }

  lemma KeepsStep(config: TusConfig, m: Monitor, e: Event, log: SaveLog)
    requires Sound(config, m) && Allowed(config, m, e) && Keeps(m, log)
    ensures Keeps(Next(m, e), LogStep(log, e))
  {
    match e
    case Took(cmd) => KeepsTook(m, cmd, log);
    case Wrote(u) => KeepsWrote(config, m, u, log);
    case Clock(now) => KeepsClock(config, m, now, log);
    case Stored(entry, at, ok) => KeepsStored(config, m, entry, at, ok, log);
    case Exited(outcome) => assert !NextExited(m, outcome).stage.Creating? && !NextExited(m, outcome).stage.Running?;
    case Asked(request) => assert NextAsked(m, request).save == m.save;
    case Denied(error) => assert NextDenied(m, error).save == m.save;
    case Began(job, key) =>
    case Stamped =>
    case HungUp =>
    case Cleared =>
    case Rested(delay) =>
    case Looked =>
    case Forgot =>
  }

  lemma {:induction false} KeepsAlways(config: TusConfig, h: History)
    requires Conforms(config, h)
    ensures Keeps(After(h), LogOf(h))
  {
    match h
    case Blank =>
    case Then(past, event) =>
      KeepsAlways(config, past);
      ConformingIsSound(config, past);
      KeepsStep(config, After(past), event, LogOf(past));
  }

  /** Saves are throttled: after the first of a run, a save follows a look at the clock since the
      latest progress, is dated by it, and was due then. */
  lemma SavesAreDue(config: TusConfig, h: History, entry: Persistence.ResumableEntry, at: Millis, ok: bool)
    requires Conforms(config, Then(h, Stored(entry, at, ok))) && LogOf(h).saved.Some?
    ensures LogOf(h).clock == Some(at)
    ensures SaveIsDue(LogOf(h).saved.value, at, entry.bytesUploaded, entry.fileSize)
  {
    KeepsAlways(config, h);
  }

  /** What is due is saved: whenever an upload under way looks for a command or sends a request,
      it has attempted a save of the acknowledged offset, or the clock was read since the latest
      progress and no save was due. */
  lemma DueIsSaved(config: TusConfig, h: History, e: Event)
    requires Conforms(config, Then(h, e)) && After(h).stage.Running? && Yields(e)
    ensures var m, log := After(h), LogOf(h);
            && log.saved.Some?
            && (log.saved.value.0 == m.run.offset
                || (log.clock.Some? && !SaveIsDue(log.saved.value, log.clock.value, m.run.offset, m.Size())))
  {
    KeepsAlways(config, h);
  }
}
