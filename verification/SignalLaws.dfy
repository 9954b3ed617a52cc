/** What the state signal shows to its observers, read off the events of a conforming worker. */
module SignalLaws {
  import opened Wrappers
  import opened UploadTypes
  import opened RunMonitor
  import opened RunLaws

  // ---------------------------------------------------------------- an upload under way

  /** A `start` call has stamped the signal since the run showed its upload. */
  function StampedSinceBind(h: History): bool {
    match h
    case Blank => false
    case Then(past, e) => BindStep(StampedSinceBind(past), e)
  }

  function BindStep(stamped: bool, e: Event): bool {
    if e.Wrote? && e.update.Bind? then false else stamped || e.Stamped?
  }

  /** A `start` call has stamped the signal since the run last showed its bytes. */
  function StampedSinceBytes(h: History): bool {
    match h
    case Blank => false
    case Then(past, e) => BytesStep(StampedSinceBytes(past), e)
  }

  function BytesStep(stamped: bool, e: Event): bool {
    if e.Wrote? && (e.update.Bind? || e.update.Progress?) then false else stamped || e.Stamped?
  }

  /** What an upload under way shows, unless it was stamped over. */
  ghost predicate Shows(m: Monitor, sinceBind: bool, sinceBytes: bool) {
    m.stage.Running? ==>
      && m.signal.error.None?
      && (!sinceBytes ==> m.signal.bytesUploaded == m.run.offset)
      && (!sinceBind ==> m.signal == UploadState(m.shown, m.run.offset, Some(m.Size()), Some(m.run.url), None))
  }

  lemma ShowsWrote(m: Monitor, u: Update, sinceBind: bool, sinceBytes: bool)
    requires MayWrite(m, u) && Shows(m, sinceBind, sinceBytes) && (sinceBytes ==> sinceBind)
    ensures Shows(NextWrote(m, u), BindStep(sinceBind, Wrote(u)), BytesStep(sinceBytes, Wrote(u)))
  {
    match m.stage
    case Creating =>
    case Running =>
    case Owing(_) =>
    case Leaving(_) =>
  }

  lemma ShowsStep(config: TusConfig, m: Monitor, e: Event, sinceBind: bool, sinceBytes: bool)
    requires Allowed(config, m, e) && Shows(m, sinceBind, sinceBytes) && (sinceBytes ==> sinceBind)
    ensures Shows(Next(m, e), BindStep(sinceBind, e), BytesStep(sinceBytes, e))
    ensures BytesStep(sinceBytes, e) ==> BindStep(sinceBind, e)
  {
    match e
    case Took(cmd) => assert NextTook(m, cmd).stage.Running? ==> m.stage.Running?;
    case Wrote(u) => ShowsWrote(m, u, sinceBind, sinceBytes);
    case Exited(outcome) => assert !NextExited(m, outcome).stage.Running?;
    case Asked(request) => assert NextAsked(m, request).run == m.run;
    case Clock(now) => assert NextClock(m, now).run == m.run;
    case Stored(entry, at, ok) => assert NextStored(m, entry, at, ok).run == m.run;
    case Denied(error) => assert NextDenied(m, error).run == m.run;
    case Began(job, key) =>
    case Stamped =>
    case HungUp =>
    case Cleared =>
    case Rested(delay) =>
    case Looked =>
    case Forgot =>
  }

  lemma {:induction false} ShowsAlways(config: TusConfig, h: History)
    requires Conforms(config, h)
    ensures Shows(After(h), StampedSinceBind(h), StampedSinceBytes(h))
    ensures StampedSinceBytes(h) ==> StampedSinceBind(h)
  {
    match h
    case Blank =>
    case Then(past, event) =>
      ShowsAlways(config, past);
      ShowsStep(config, After(past), event, StampedSinceBind(past), StampedSinceBytes(past));
  }

  /** Whenever an upload under way looks for a command or sends a request, its signal shows
      whether it is held, the acknowledged bytes, the file's size, its URL and no error. A
      `start` call that stamps over it hides all but the bytes of the next progress. */
  lemma UploadIsShown(config: TusConfig, h: History, e: Event)
    requires Conforms(config, Then(h, e)) && After(h).stage.Running? && Yields(e)
    ensures var m := After(h);
            && (!StampedSinceBytes(h) ==> m.signal.bytesUploaded == m.run.offset)
            && (!StampedSinceBind(h) ==>
                  m.signal == UploadState(if HeldInRun(h) then UploadStatus.Paused else Uploading, m.run.offset,
                                          Some(|m.run.job.file.content|), Some(m.run.url), None))
  {
    ShowsAlways(config, h);
    PausedMeansHeld(config, h);
  }

  /** Each new upload and each acknowledgement is what the offset and the URL become. */
  lemma OffsetIsLastShown(config: TusConfig, h: History, u: Update)
    requires Conforms(config, Then(h, Wrote(u))) && (u.Bind? || u.Progress?)
    ensures var run := After(Then(h, Wrote(u))).run;
            run.offset == u.bytes && (u.Bind? ==> run.url == u.url) && (u.Progress? ==> run.url == After(h).run.url)
  {
    assert After(Then(h, Wrote(u))) == NextWrote(After(h), u);
  }

  // ---------------------------------------------------------------- how runs end

  /** A completed upload shows Complete over all its bytes, besides its size and its URL. */
  lemma CompletionIsShown(config: TusConfig, h: History)
    requires Conforms(config, Then(h, Wrote(Finish(After(h).Size())))) && After(h).stage.Running?
    requires !StampedSinceBind(h)
    ensures var m, size := After(h), |After(h).run.job.file.content|;
            After(Then(h, Wrote(Finish(size)))).signal == UploadState(Complete, size, Some(size), Some(m.run.url), None)
  {
    ShowsAlways(config, h);
  }

  /** A failed run shows the error next, and leaves everything else as it was. */
  lemma FailureIsShown(config: TusConfig, h: History, error: TusError, e: Event)
    requires Conforms(config, Then(Then(h, Exited(Failed(error))), e))
    ensures e.Wrote?
    ensures After(Then(Then(h, Exited(Failed(error))), e)).signal ==
            After(h).signal.(status := UploadStatus.Error, error := Some(error))
  {
    assert After(Then(h, Exited(Failed(error)))) == NextExited(After(h), Failed(error));
  }

  // ---------------------------------------------------------------- outside a run

  /** Outside a run an Abort clears the signal, a Pause only turns Uploading into Paused, a
      Resume only Paused into Uploading, and what a command changes is written before anything
      else happens. */
  lemma IdleCommands(config: TusConfig, h: History, cmd: Command, e: Event)
    requires Conforms(config, Then(Then(h, Took(cmd)), e)) && After(h).stage.Waiting? && !cmd.Start?
    ensures var before, taken := After(h).signal, After(Then(h, Took(cmd)));
            var after := After(Then(Then(h, Took(cmd)), e)).signal;
            && taken.signal == before
            && match cmd
               case Abort => e.Wrote? && after == UploadState(Idle, 0, None, None, None)
               case Pause =>
                 if before.status == Uploading then e.Wrote? && after == before.(status := UploadStatus.Paused)
                 else taken.stage.Waiting?
               case _ =>
                 if before.status == UploadStatus.Paused then e.Wrote? && after == before.(status := Uploading)
                 else taken.stage.Waiting?
  {
    assert After(Then(h, Took(cmd))) == NextTook(After(h), cmd);
    var owed := After(Then(h, Took(cmd))).stage;
    if owed.Owing? {
      assert e.Wrote? && e.update == owed.update;
      assert After(Then(Then(h, Took(cmd)), e)) == NextWrote(After(Then(h, Took(cmd))), owed.update);
    }
  }

  /** A `start` call shows an upload without bytes, size, URL or error. */
  lemma StartIsShown(h: History)
    ensures After(Then(h, Stamped)).signal == UploadState(Uploading, 0, None, None, None)
  {
  }
}
