/** Everything one upload worker touches: its command channel, its state signal, the store, the
    server resource its URL names, and the clock. Whatever the environment decides (arrival of
    commands, replies, losses, time) is a nondeterministic choice. The event history is kept for
    specifications only. */
module World {
  import opened Wrappers
  import opened UploadTypes
  import opened Persistence
  import opened RunMonitor
  import RunLaws
  import Server

  /** What a HEAD reports. */
  datatype UploadInfo = UploadInfo(length: Option<nat>, offset: nat)

  datatype Created = Created(url: string, offset: nat)

  datatype Delivery = Delivery(job: Job, stored: Bytes)

  /** A resource that an interrupted creation left on the server; no client knows its URL. */
  datatype Stray = Stray(content: Bytes, resource: Server.Resource)

  /** The server's answer is of no use for a file of this size that is sent up to `offset`. */
  predicate Unusable(info: UploadInfo, offset: nat, size: nat) {
    (info.length.Some? && info.length.value != size) || info.offset > size || info.offset < offset
  }

  /** A poll of the command channel: a command, silence, or every sender gone. */
  datatype Poll = Got(cmd: Command) | Silent | Gone

  /** The entry is in the store, unless it was already unreadable at some time `now` that the
      clock showed and made room for others. */
  ghost predicate InPlace(rows: Rows, entry: ResumableEntry, readings: set<Millis>) {
    var key := StorageKey(entry.matchKey);
    if key in rows then rows[key] == ToJson(entry) else exists now | now in readings :: Doomed(ToJson(entry), now)
  }

  /** `m`, `c` and `rest` are what the history `h` amounts to: the automaton's state, whether
      every event was allowed, and the commands of `sent` still to come. */
  ghost predicate Summarises(config: TusConfig, sent: seq<Command>, h: History, m: Monitor, c: bool,
                             rest: seq<Command>) {
    forall g {:trigger Inspected(g)} | Inspected(g) && g == h ::
      m == After(g) && c == Conforms(config, g) && Taken(g) + rest == sent
  }

  /** Named where a proof looks inside a history, and only there. */
  ghost predicate Inspected(h: History) {
    true
  }

  lemma SummaryGrows(config: TusConfig, sent: seq<Command>, h: History, m: Monitor, c: bool, before: seq<Command>,
                     e: Event, rest: seq<Command>)
    requires Summarises(config, sent, h, m, c, before)
    requires before == (if e.Took? then [e.cmd] else []) + rest
    ensures Summarises(config, sent, Then(h, e), Next(m, e), c && Allowed(config, m, e), rest)
  {
    assert Inspected(h);
    assert Taken(Then(h, e)) + rest == Taken(h) + before;
  }

  class World {
    const config: TusConfig
    const storage: Storage
    /** Whether the server keeps the protocol and a resumed resource holds a prefix of its file. */
    const honest: bool
    /** Whether the senders are dropped once the last command is sent. */
    const closes: bool
    /** Whether nobody else writes or removes the row of this worker's uploads: no other tab or
        worker has a live item for the same file. Sweeps by others are always possible. */
    const alone: bool
    /** Whether files can be read, requests are valid, creation is accepted, the senders stay,
        and no more failures than there are retries, all transient, come between two steps of
        progress. */
    const smooth: bool

    /** Commands not yet taken; each arrives no earlier than the ones before it. */
    var pending: seq<Command>
    var state: UploadState
    var resource: Server.Resource
    /** The match key of the latest run. */
    var ownKey: string
    /** Failures since the latest progress. */
    var faults: nat
    /** What the cache of capabilities tells about the endpoint. */
    var known: Option<Capabilities>

    ghost const sent: seq<Command>
    ghost var history: History
    ghost var monitor: Monitor
    ghost var conforms: bool
    /** Every time the clock showed, to whoever reads or sweeps the store. */
    ghost var readings: set<Millis>
    /** What the server held when a run reported its upload complete. */
    ghost var delivered: seq<Delivery>
    ghost var strays: seq<Stray>

    /** On an honest server even the resources that nobody knows begin their files. */
    ghost predicate StraysBegin()
      reads this`strays
    {
      honest ==> forall k | 0 <= k < |strays| :: Server.Faithful(strays[k].content, strays[k].resource)
    }

    /** What the store last accepted from this run is still there. */
    ghost predicate Kept()
      reads this`monitor, this`readings, storage
    {
      alone && monitor.save.saved.Some? ==> InPlace(storage.rows, monitor.save.saved.value, readings)
    }

    ghost predicate Valid()
      reads this, storage
    {
      && storage.Valid()
      && monitor.signal == state && monitor.run.key == ownKey
      && (monitor.save.saved.Some? ==> monitor.save.saved.value.matchKey == ownKey)
      && (storage.Generous() ==> !monitor.save.refused)
      && monitor.tries.failures <= faults
      && (smooth && known.Some? ==> known.value.maxSize.None?)
      && Summarises(config, sent, history, monitor, conforms, pending)
    }

    constructor (config: TusConfig, storage: Storage, commands: seq<Command>,
                 honest: bool, closes: bool, alone: bool, smooth: bool)
      requires storage.Valid()
      ensures Valid() && Kept() && conforms && history == Blank && delivered == [] && pending == commands == sent
      ensures this.config == config && this.storage == storage
      ensures this.honest == honest && this.closes == closes && this.alone == alone && this.smooth == smooth
      ensures monitor == INITIAL && strays == []
    {
      this.config, this.storage := config, storage;
      this.honest, this.closes, this.alone, this.smooth := honest, closes, alone, smooth;
      pending, sent, state, resource := commands, commands, INITIAL.signal, Server.Resource([], {});
      ownKey, faults, known := INITIAL.run.key, 0, None;
      history, monitor, conforms := Blank, INITIAL, true;
      readings, delivered, strays := {}, [], [];
    }

    /** Exactly the event `e` happened. */
    twostate predicate Logged(e: Event)
      reads this
    {
      && history == Then(old(history), e)
      && monitor == Next(old(monitor), e)
      && conforms == (old(conforms) && Allowed(config, old(monitor), e))
    }

    /** Nothing happened that the worker itself did; a `start` call may have stamped the signal. */
    twostate predicate Undisturbed()
      reads this
    {
      && monitor == old(monitor).(signal := state)
      && conforms == old(conforms)
    }

    /** The worker did `e`, and then nothing more. */
    twostate predicate Did(e: Event)
      reads this
    {
      && monitor == Next(old(monitor), e).(signal := state)
      && conforms == (old(conforms) && Allowed(config, old(monitor), e))
    }

    ghost method Log(e: Event, before: seq<Command>)
      requires Summarises(config, sent, history, monitor, conforms, before)
      requires before == (if e.Took? then [e.cmd] else []) + pending
      modifies this`history, this`monitor, this`conforms
      ensures Logged(e)
      ensures Summarises(config, sent, history, monitor, conforms, pending)
    {
      SummaryGrows(config, sent, history, monitor, conforms, before, e, pending);
      conforms := conforms && Allowed(config, monitor, e);
      monitor := Next(monitor, e);
      history := Then(history, e);
    }

    /** What the ghost summary says about the history itself. */
    lemma Inspect()
      requires Valid()
      ensures monitor == After(history) && conforms == Conforms(config, history) && Taken(history) + pending == sent
    {
      assert Inspected(history);
    }

    // -------------------------------------------------------------- suspension

    /** The worker may be suspended here: all it owes is done. */
    ghost predicate AtRest()
      reads this, storage
    {
      Valid() && Kept() && conforms && AtAwait(monitor)
    }

    /** An upload under way has an entry in the store, behind by less than the threshold. */
    ghost predicate Safeguarded()
      reads this, storage
    {
      var entry := monitor.save.saved;
      && entry.Some? && InPlace(storage.rows, entry.value, readings)
      && entry.value.matchKey == ownKey && entry.value.bytesUploaded <= monitor.run.offset
      && monitor.run.offset - entry.value.bytesUploaded < Max(1, monitor.Size() / 20)
    }

    /** At every suspension of an upload under way: if the store accepted the last write, the
        entry is there and nearly up to date. A store that accepts everything always did. */
    lemma SuspendedIsSafeguarded()
      requires AtRest() && monitor.stage.Running? && alone
      ensures !monitor.save.refused ==> Safeguarded()
      ensures storage.Generous() ==> Safeguarded()
    {
      Inspect();
      RunLaws.ConformingIsSound(config, history);
    }

    /** After a failed run: if its upload was shown and the last write accepted, the entry that
        write left is still in place. */
    lemma FailureIsSafeguarded(error: TusError)
      requires Valid() && Kept() && conforms && alone && monitor.stage == Owing(Fail(error)) && monitor.run.created
      requires history.Then? && history.event == Exited(Failed(error))
      ensures !monitor.save.refused ==> Safeguarded()
      ensures storage.Generous() ==> Safeguarded()
    {
      Inspect();
      RunLaws.DeedsTell(config, history.past);
      RunLaws.FailureKeepsEntry(config, history.past, error);
    }

    /** Everyone else who shares the store does what they like with the other rows. The row of
        this run is theirs only to sweep, unless they work on the same file. */
    method Others()
      requires storage.Valid()
      modifies this`readings, storage`rows
      ensures storage.Valid() && readings >= old(readings)
      ensures old(Kept()) && (monitor.save.saved.Some? ==> monitor.save.saved.value.matchKey == ownKey) ==> Kept()
    {
      var left: Rows := *;
      var now := Now();
      var key := StorageKey(ownKey);
      if storage.available && alone {
        if key in storage.rows && !(key !in left && Doomed(storage.rows[key], now)) {
          left := left[key := storage.rows[key]];
        } else {
          left := left - {key};
        }
      }
      if storage.available {
        storage.rows := left;
      }
    }

    /** The worker waits; meanwhile others use the store, and a pending `start` call may stamp
        the signal. */
    method Suspend()
      requires AtRest()
      modifies this`state, this`readings, this`history, this`monitor, this`conforms, storage`rows
      ensures Valid() && Kept() && Undisturbed()
      ensures (forall c | c in pending :: !c.Start?) ==> state == old(state)
    {
      Others();
      if exists c | c in pending :: c.Start? {
        var stamps: bool := *;
        if stamps {
          Stamp();
        }
      }
    }

    /** A `start` call stamps the signal before it sends its command. */
    method Stamp()
      requires AtRest()
      modifies this`state, this`history, this`monitor, this`conforms
      ensures Valid() && Logged(Stamped) && state == STAMPED && Kept()
    {
      state := STAMPED;
      Log(Stamped, pending);
    }

    method Take() returns (cmd: Command)
      requires Valid() && pending != []
      modifies this`pending, this`history, this`monitor, this`conforms
      ensures Valid() && Logged(Took(cmd)) && (old(Kept()) ==> Kept())
      ensures cmd == old(pending)[0] && pending == old(pending)[1..]
    {
      cmd := pending[0];
      pending := pending[1..];
      assert old(pending) == [cmd] + pending;
      Log(Took(cmd), old(pending));
    }

    /** Looks at the channel without waiting. */
    method TryNext() returns (poll: Poll)
      requires Valid()
      modifies this`pending, this`history, this`monitor, this`conforms
      ensures Valid() && (old(Kept()) ==> Kept())
      ensures match poll
              case Got(cmd) =>
                old(pending) != [] && cmd == old(pending)[0] && pending == old(pending)[1..] && Logged(Took(cmd))
              case Silent =>
                && pending == old(pending) && history == old(history)
                && monitor == old(monitor) && conforms == old(conforms)
              case Gone => pending == old(pending) == [] && Logged(HungUp) && !smooth
    {
      var ready: bool := *;
      if ready && pending != [] {
        var cmd := Take();
        poll := Got(cmd);
      } else if ready && closes && !smooth {
        Log(HungUp, pending);
        poll := Gone;
      } else {
        poll := Silent;
      }
    }

    /** Waits for the next command. `Silent` means that none will ever come. */
    method NextCommand() returns (poll: Poll)
      requires Valid() && AtAwait(monitor)
      modifies this`pending, this`history, this`monitor, this`conforms
      ensures Valid() && (old(Kept()) ==> Kept())
      ensures match poll
              case Got(cmd) =>
                old(pending) != [] && cmd == old(pending)[0] && pending == old(pending)[1..] && Logged(Took(cmd))
              case _ => pending == old(pending) == [] && monitor == old(monitor) && conforms == old(conforms)
      ensures poll.Gone? ==> closes
    {
      if pending != [] {
        var cmd := Take();
        poll := Got(cmd);
      } else {
        poll := if closes then Gone else Silent;
      }
    }

    /** The channel turned out to be closed. */
    ghost method HangUp()
      requires Valid()
      modifies this`history, this`monitor, this`conforms
      ensures Valid() && Logged(HungUp) && (old(Kept()) ==> Kept())
    {
      Log(HungUp, pending);
    }

    /** The wait before a retry begins. */
    ghost method Rest(delay: nat)
      requires Valid()
      modifies this`history, this`monitor, this`conforms
      ensures Valid() && Logged(Rested(delay)) && (old(Kept()) ==> Kept())
    {
      Log(Rested(delay), pending);
    }

    /** The channel was empty when it was looked at. */
    ghost method Look()
      requires Valid()
      modifies this`history, this`monitor, this`conforms
      ensures Valid() && Logged(Looked) && (old(Kept()) ==> Kept())
    {
      Log(Looked, pending);
    }

    // -------------------------------------------------------------- the worker's own actions

    method Write(u: Update)
      requires Valid() && (u.Progress? ==> monitor.stage.Running?) && (u.Bind? ==> monitor.stage.Creating?)
      modifies this`state, this`faults, this`history, this`monitor, this`conforms
      ensures Valid() && Logged(Wrote(u)) && (old(Kept()) ==> Kept())
      ensures state == Apply(u, old(state))
    {
      state := Apply(u, state);
      if u.Progress? || u.Bind? {
        faults := 0;
      }
      Log(Wrote(u), pending);
    }

    method RemoveRow(matchKey: string)
      requires Valid()
      modifies this`history, this`monitor, this`conforms, storage
      ensures Valid() && Kept() && Logged(Cleared)
      ensures storage.rows == old(storage.rows) - {StorageKey(matchKey)}
    {
      storage.Remove(matchKey);
      Log(Cleared, pending);
    }

    method Now() returns (now: Millis)
      modifies this`readings
      ensures readings == old(readings) + {now}
      ensures old(Kept()) ==> Kept()
    {
      now := *;
      readings := readings + {now};
    }

    /** Reads the clock to decide whether progress must be saved. */
    method Tick() returns (now: Millis)
      requires Valid()
      modifies this`readings, this`history, this`monitor, this`conforms
      ensures Valid() && Logged(Clock(now))
      ensures old(Kept()) ==> Kept()
    {
      now := Now();
      Log(Clock(now), pending);
    }

    /** A run begins: nothing is stored for it yet. */
    method Begin(job: Job, key: string)
      requires Valid()
      modifies this`ownKey, this`faults, this`history, this`monitor, this`conforms
      ensures Valid() && Kept() && Logged(Began(job, key))
    {
      ownKey, faults := key, 0;
      Log(Began(job, key), pending);
    }

    ghost method Exit(outcome: Outcome)
      requires Valid()
      modifies this`delivered, this`history, this`monitor, this`conforms
      ensures Valid() && Logged(Exited(outcome)) && (old(Kept()) ==> Kept())
      ensures delivered ==
              old(delivered) + (if outcome.Done? then [Delivery(old(monitor).run.job, resource.stored)] else [])
    {
      if outcome.Done? {
        delivered := delivered + [Delivery(monitor.run.job, resource.stored)];
      }
      Log(Exited(outcome), pending);
    }

    /** Stores the entry. The store decides; the caller learns nothing, as a failure is only
        logged. */
    method Save(entry: ResumableEntry, at: Millis)
      requires Valid() && Kept() && entry.matchKey == ownKey
      modifies this`readings, this`history, this`monitor, this`conforms, storage
      ensures Valid() && Kept() && Logged(Stored(entry, at, old(storage.WillAccept()))) && readings >= old(readings)
      ensures old(storage.WillAccept()) ==>
        StorageKey(entry.matchKey) in storage.rows && storage.rows[StorageKey(entry.matchKey)] == ToJson(entry)
    {
      var now := Now();
      var ok := storage.Put(entry, now);
      Log(Stored(entry, at, ok), pending);
    }

    /** `[start, end)` of the file, or a failed read. */
    method ReadBlob(file: File, start: nat, end: nat) returns (r: Result<Bytes, TusError>)
      requires AtRest() && start <= end <= |file.content|
      modifies this`state, this`readings, this`history, this`monitor, this`conforms, storage`rows
      ensures Valid() && Kept() && Undisturbed()
      ensures r == Ok(file.content[start..end]) || (r == Err(BlobRead) && !smooth)
    {
      Suspend();
      var works: bool := *;
      r := if works || smooth then Ok(file.content[start..end]) else Err(BlobRead);
    }

    /** Whether a URL, a token and the headers can be used. */
    method ValidRequest() returns (ok: bool)
      ensures smooth ==> ok
    {
      ok := *;
      ok := ok || smooth;
    }

    // -------------------------------------------------------------- requests

    method AskPatch(offset: nat, body: Bytes) returns (r: Result<nat, NetError>)
      requires AtRest() && MayAsk(config, monitor, Patch(offset, body))
      modifies this`state, this`readings, this`resource, this`history, this`monitor, this`conforms, storage`rows
      ensures Valid() && Kept() && Did(Asked(Patch(offset, body)))
      ensures Server.Reaches(old(resource).(sent := old(resource).sent + {Server.Patch(offset, body)}), resource)
      ensures honest && r.Ok? ==> r.value <= |resource.stored|
      ensures smooth && body != [] && (honest ==> offset <= |old(resource).stored|) ==>
        if r.Ok? then offset < r.value <= offset + |body| else Bearable(r.error)
    {
      var p := Server.Patch(offset, body);
      Log(Asked(Patch(offset, body)), pending);
      resource := resource.(sent := resource.sent + {p});
      r := Answer(p);
      Suspend();
    }

    /** A failure that a smooth environment may still produce. */
    predicate Bearable(e: NetError)
      reads this`faults
    {
      RunLaws.Transient(e) && faults < config.maxRetries
    }

    /** The server gets some of the requests that are on the wire and answers the latest. */
    method Answer(p: Server.Patch) returns (r: Result<nat, NetError>)
      requires p in resource.sent
      modifies this`resource
      ensures Server.Reaches(old(resource), resource)
      ensures honest && r.Ok? ==> r.value <= |resource.stored|
      ensures smooth && p.body != [] && (honest ==> p.offset <= |old(resource).stored|) ==>
        if r.Ok? then p.offset < r.value <= p.offset + |p.body| else Bearable(r.error)
    {
      var arrivals: seq<Server.Arrival> := *;
      Server.ArrivalsGrow(resource, arrivals);
      var fails: bool, e: NetError := *, *;
      fails := fails && (smooth ==> Bearable(e));
      if !fails && smooth && |Server.ArriveAll(resource, arrivals).stored| == p.offset {
        var last := Server.Arrival(p, |p.body|);
        Server.ArriveLast(resource, arrivals, last);
        arrivals := arrivals + [last];
      }
      Server.ReachesBy(resource, arrivals);
      resource := Server.ArriveAll(resource, arrivals);
      if fails {
        return Err(e);
      }
      var n: int := *;
      if n < 0 || (smooth && !(p.offset < n <= p.offset + |p.body|)) || (honest && n > |resource.stored|) {
        n := if honest then Min(p.offset + |p.body|, |resource.stored|) else p.offset + |p.body|;
      }
      r := Ok(n);
    }

    /** Late, repeated or partial arrivals of requests already sent. */
    method Arrivals()
      modifies this`resource
      ensures Server.Reaches(old(resource), resource)
    {
      var arrivals: seq<Server.Arrival> := *;
      Server.ReachesBy(resource, arrivals);
      resource := Server.ArriveAll(resource, arrivals);
    }

    /** HEAD after a failed PATCH. The file and the offset only say what a smooth answer is. */
    method AskRecoveryHead(content: Bytes, from: nat) returns (r: Result<UploadInfo, NetError>)
      requires AtRest() && MayAsk(config, monitor, RecoveryHead) && from <= |content|
      requires honest ==> Server.Faithful(content, resource) && from <= |resource.stored|
      modifies this`state, this`readings, this`resource, this`history, this`monitor, this`conforms, storage`rows
      ensures Valid() && Kept() && Did(Asked(RecoveryHead))
      ensures Server.Reaches(old(resource), resource)
      ensures honest && r.Ok? ==> r.value.offset <= |resource.stored|
      ensures smooth ==> if r.Ok? then !Unusable(r.value, from, |content|) else Bearable(r.error)
    {
      Log(Asked(RecoveryHead), pending);
      ghost var before := resource;
      Arrivals();
      if honest {
        Server.ReachesFaithful(content, before, resource);
      }
      r := Found(content, from);
      Suspend();
    }

    method Found(content: Bytes, from: nat) returns (r: Result<UploadInfo, NetError>)
      requires from <= |content| && (honest ==> from <= |resource.stored| <= |content|)
      ensures honest && r.Ok? ==> r.value.offset <= |resource.stored|
      ensures smooth ==> if r.Ok? then !Unusable(r.value, from, |content|) else Bearable(r.error)
    {
      r := *;
      var e: NetError := *;
      if !r.Ok? && !(smooth ==> Bearable(e)) {
        r := Ok(UploadInfo(None, from));
      } else if !r.Ok? {
        r := Err(e);
      }
      if r.Ok? && ((smooth && Unusable(r.value, from, |content|)) || (honest && r.value.offset > |resource.stored|)) {
        r := Ok(UploadInfo(None, from));
      }
    }

    /** The worker learns that its latest PATCH or recovery HEAD failed. */
    method Learn(e: NetError)
      requires Valid()
      modifies this`faults, this`history, this`monitor, this`conforms
      ensures Valid() && Logged(Denied(e)) && faults == old(faults) + 1 && (old(Kept()) ==> Kept())
    {
      faults := faults + 1;
      Log(Denied(e), pending);
    }

    /** HEAD on the URL to resume. From here on `resource` is what that URL names. */
    method AskResumeHead(content: Bytes) returns (r: Result<UploadInfo, NetError>)
      requires AtRest() && MayAsk(config, monitor, ResumeHead)
      modifies this`state, this`readings, this`resource, this`history, this`monitor, this`conforms, storage`rows
      ensures Valid() && Kept() && Did(Asked(ResumeHead))
      ensures honest ==> Server.Faithful(content, resource) && (r.Ok? ==> r.value.offset <= |resource.stored|)
      ensures smooth ==>
        r.Ok? && r.value.offset <= |content| && (r.value.length.Some? ==> r.value.length.value == |content|)
    {
      Log(Asked(ResumeHead), pending);
      Suspend();
      r := Resumed(content);
    }

    method Resumed(content: Bytes) returns (r: Result<UploadInfo, NetError>)
      modifies this`resource
      ensures honest ==> Server.Faithful(content, resource) && (r.Ok? ==> r.value.offset <= |resource.stored|)
      ensures smooth ==>
        r.Ok? && r.value.offset <= |content| && (r.value.length.Some? ==> r.value.length.value == |content|)
    {
      resource := *;
      r := *;
      if honest && !Server.Faithful(content, resource) {
        resource := Server.Resource([], {});
      }
      if smooth && !(r.Ok? && r.value.length == Some(|content|) && r.value.offset <= |content|) {
        r := Ok(UploadInfo(None, 0));
      }
      if honest && r.Ok? && r.value.offset > |resource.stored| {
        r := if smooth then Ok(UploadInfo(None, 0)) else Err(OtherFailure);
      }
    }

    /** POST without a body: a new, empty resource. */
    method AskCreate() returns (r: Result<Created, NetError>)
      requires AtRest() && MayAsk(config, monitor, Create)
      modifies this`state, this`readings, this`resource, this`history, this`monitor, this`conforms, storage`rows
      ensures Valid() && Kept() && Did(Asked(Create))
      ensures r.Ok? ==> resource == Server.Resource([], {})
      ensures smooth ==> r.Ok?
    {
      Log(Asked(Create), pending);
      Suspend();
      r := MadeEmpty();
    }

    method MadeEmpty() returns (r: Result<Created, NetError>)
      modifies this`resource
      ensures r.Ok? ==> resource == Server.Resource([], {})
      ensures smooth ==> r.Ok?
    {
      r := *;
      if smooth && !r.Ok? {
        r := Ok(Created("", 0));
      }
      if r.Ok? {
        resource := Server.Resource([], {});
      }
    }

    /** POST with the whole file as body; the server keeps some prefix of it. */
    method AskCreateWithBody(body: Bytes) returns (r: Result<Created, NetError>)
      requires AtRest() && MayAsk(config, monitor, CreateWithBody(body))
      modifies this`state, this`readings, this`resource, this`history, this`monitor, this`conforms, storage`rows
      ensures Valid() && Kept() && Did(Asked(CreateWithBody(body)))
      ensures honest && r.Ok? ==> Server.Faithful(body, resource) && r.value.offset <= |resource.stored|
      ensures smooth ==> r.Ok? && r.value.offset <= |body|
    {
      Log(Asked(CreateWithBody(body)), pending);
      Suspend();
      r := CreatedWith(body);
    }

    method CreatedWith(body: Bytes) returns (r: Result<Created, NetError>)
      modifies this`resource
      ensures honest && r.Ok? ==> Server.Faithful(body, resource) && r.value.offset <= |resource.stored|
      ensures smooth ==> r.Ok? && r.value.offset <= |body|
    {
      r := *;
      if smooth && !(r.Ok? && r.value.offset <= |body|) {
        r := Ok(Created("", 0));
      }
      if r.Ok? {
        var kept: int := *;
        if kept < 0 || kept > |body| {
          kept := |body|;
        }
        resource := Server.Resource(body[..kept], {Server.Patch(0, body)});
        assert body == body[0..0 + |body|];
        if honest && r.value.offset > |resource.stored| {
          r := if smooth then Ok(r.value.(offset := 0)) else Err(OtherFailure);
        }
      }
    }

    method AskOptions() returns (r: Result<Capabilities, NetError>)
      requires AtRest() && MayAsk(config, monitor, Options)
      modifies this`state, this`readings, this`history, this`monitor, this`conforms, storage`rows
      ensures Valid() && Kept() && Did(Asked(Options))
      ensures smooth && r.Ok? ==> r.value.maxSize.None?
    {
      Log(Asked(Options), pending);
      Suspend();
      r := Advertised();
    }

    method Advertised() returns (r: Result<Capabilities, NetError>)
      ensures smooth && r.Ok? ==> r.value.maxSize.None?
    {
      r := *;
      if smooth && r.Ok? {
        r := Ok(r.value.(maxSize := None));
      }
    }

    /** Capabilities that an earlier upload left in the cache, if any and still fresh. */
    method PeekCapabilities() returns (c: Option<Capabilities>)
      requires Valid()
      modifies this`known
      ensures Valid() && c == known && (old(Kept()) ==> Kept())
    {
      var learnt: bool, r: Result<Capabilities, NetError> := *, Err(OtherFailure);
      if learnt {
        r := Advertised();
      }
      known := if r.Ok? then Some(r.value) else None;
      c := known;
    }

    /** The cached capabilities suggested something the server refused. */
    method Forget()
      requires Valid()
      modifies this`known, this`history, this`monitor, this`conforms
      ensures Valid() && Logged(Forgot) && known == None && (old(Kept()) ==> Kept())
    {
      known := None;
      Log(Forgot, pending);
    }

    /** A creation request went out and was dropped before its answer. A resource that it made
        stays on the server, unknown to everybody. */
    ghost method GoOut(request: Request)
      requires AtRest() && MayAsk(config, monitor, request) && monitor.stage.Creating?
      modifies this`strays, this`history, this`monitor, this`conforms
      ensures Valid() && Kept() && Logged(Asked(request))
      ensures old(StraysBegin()) ==> StraysBegin()
    {
      var content := monitor.run.job.file.content;
      var made: Server.Resource := *;
      if request.Create? {
        strays := strays + [Stray(content, Server.Resource([], {}))];
      } else if request.CreateWithBody? && (honest ==> Server.Faithful(content, made)) {
        strays := strays + [Stray(content, made)];
      }
      Log(Asked(request), pending);
    }
  }
}
