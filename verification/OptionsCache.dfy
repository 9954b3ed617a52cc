/** The shared cache of server capabilities. Callers for one endpoint coalesce: the first to
    miss leads and asks the server, the others wait for its answer. Each caller is a task that
    may be dropped at any suspension point. */
module OptionsCache {
  import opened Wrappers
  import opened UploadTypes

  const TTL: Millis := 60_000.0

  type Answer = Result<Capabilities, TusError>

  datatype Entry = Entry(info: Capabilities, insertedAt: Millis)

  /** Where a caller of `get_or_fetch` is. `Woken` has its answer but has not resumed yet. */
  datatype Phase =
    | Leading
    | Fetched(answer: Answer)
    | LeaderDropped
    | Waiting
    | Woken(answer: Answer)
    | Returned(answer: Answer)
    | WaiterDropped

  /** A caller, with the clock reading it began with. */
  datatype Task = Task(endpoint: string, began: Millis, phase: Phase)

  /** A waiter is known in `inFlight` by its task number. */
  datatype State = State(cached: map<string, Entry>, inFlight: map<string, seq<nat>>, tasks: seq<Task>)

  datatype Lookup = Hit(info: Capabilities) | Wait | Fetch

  const FETCH_DROPPED: TusError := TusError.Transport

  // ---------------------------------------------------------------- single steps

  predicate Fresh(entry: Entry, now: Millis) {
    0.0 <= now - entry.insertedAt < TTL
  }

  /** What a caller that arrives now is told. */
  function Inspect(s: State, endpoint: string, now: Millis): Lookup {
    if endpoint in s.cached && Fresh(s.cached[endpoint], now) then Hit(s.cached[endpoint].info)
    else if endpoint in s.inFlight then Wait
    else Fetch
  }

  /** One send: it reaches a task that still waits and is lost on one that was dropped. */
  function Delivered(tasks: seq<Task>, waiter: nat, answer: Answer): (r: seq<Task>)
    ensures |r| == |tasks|
  {
    if waiter < |tasks| && tasks[waiter].phase.Waiting? then tasks[waiter := tasks[waiter].(phase := Woken(answer))]
    else tasks
  }

  function DeliveredAll(tasks: seq<Task>, waiters: seq<nat>, answer: Answer): (r: seq<Task>)
    ensures |r| == |tasks|
  {
    if waiters == [] then tasks
    else Delivered(DeliveredAll(tasks, waiters[..|waiters| - 1], answer), waiters[|waiters| - 1], answer)
  }

  function WaitersFor(s: State, endpoint: string): seq<nat> {
    if endpoint in s.inFlight then s.inFlight[endpoint] else []
  }

  /** The end of a fetch: a success is cached under the leader's clock reading, the flight is
      over either way, and its waiters get the answer. */
  function Finalized(s: State, endpoint: string, answer: Answer, insertedAt: Millis): State {
    State(if answer.Ok? then s.cached[endpoint := Entry(answer.value, insertedAt)] else s.cached,
          s.inFlight - {endpoint},
          DeliveredAll(s.tasks, WaitersFor(s, endpoint), answer))
  }

  datatype Step =
    | Begin(endpoint: string, now: Millis)
    | Resolve(task: nat, answer: Answer)
    | Collect(task: nat)
    | Drop(task: nat)
    | Invalidate(endpoint: string)

  predicate Possible(s: State, step: Step) {
    match step
    case Begin(_, _) => true
    case Resolve(t, _) => t < |s.tasks| && s.tasks[t].phase.Leading?
    case Collect(t) => t < |s.tasks| && s.tasks[t].phase.Woken?
    case Drop(t) => t < |s.tasks| && (s.tasks[t].phase.Leading? || s.tasks[t].phase.Waiting? || s.tasks[t].phase.Woken?)
    case Invalidate(_) => true
  }

  function WithPhase(s: State, t: nat, phase: Phase): State
    requires t < |s.tasks|
  {
    s.(tasks := s.tasks[t := s.tasks[t].(phase := phase)])
  }

  function Begun(s: State, endpoint: string, now: Millis): State {
    match Inspect(s, endpoint, now)
    case Hit(info) => s.(tasks := s.tasks + [Task(endpoint, now, Returned(Ok(info)))])
    case Wait =>
      s.(tasks := s.tasks + [Task(endpoint, now, Waiting)],
         inFlight := s.inFlight[endpoint := WaitersFor(s, endpoint) + [|s.tasks|]])
    case Fetch =>
      s.(tasks := s.tasks + [Task(endpoint, now, Leading)], inFlight := s.inFlight[endpoint := []])
  }

  function After(s: State, step: Step): State
    requires Possible(s, step)
  {
    match step
    case Begin(endpoint, now) => Begun(s, endpoint, now)
    case Resolve(t, answer) =>
      Finalized(WithPhase(s, t, Fetched(answer)), s.tasks[t].endpoint, answer, s.tasks[t].began)
    case Collect(t) => WithPhase(s, t, Returned(s.tasks[t].phase.answer))
    case Drop(t) =>
      if s.tasks[t].phase.Leading?
      then Finalized(WithPhase(s, t, LeaderDropped), s.tasks[t].endpoint, Err(FETCH_DROPPED), 0.0)
      else WithPhase(s, t, WaiterDropped)
    case Invalidate(endpoint) => s.(cached := s.cached - {endpoint})
  }

  // ---------------------------------------------------------------- the invariant

  predicate Leads(s: State, t: nat, endpoint: string) {
    t < |s.tasks| && s.tasks[t].phase.Leading? && s.tasks[t].endpoint == endpoint
  }

  /** An endpoint is in flight exactly when one live leader exists for it. */
  ghost predicate OneLeader(s: State) {
    && (forall e | e in s.inFlight :: exists t: nat :: Leads(s, t, e))
    && (forall e, t: nat | Leads(s, t, e) :: e in s.inFlight)
    && (forall e, t: nat, u: nat | Leads(s, t, e) && Leads(s, u, e) :: t == u)
  }

  /** `t` is in the endpoint's list, once. */
  predicate ListedOnce(list: seq<nat>, t: nat) {
    multiset(list)[t] == 1
  }

  ghost predicate Listed(s: State) {
    && (forall t | 0 <= t < |s.tasks| && s.tasks[t].phase.Waiting? ::
          s.tasks[t].endpoint in s.inFlight && ListedOnce(s.inFlight[s.tasks[t].endpoint], t))
    && (forall e, k | e in s.inFlight && 0 <= k < |s.inFlight[e]| ::
          var t := s.inFlight[e][k];
          t < |s.tasks| && s.tasks[t].endpoint == e && (s.tasks[t].phase.Waiting? || s.tasks[t].phase.WaiterDropped?))
  }

  /** A leader for this endpoint asked the server and got this answer. */
  predicate Asked(s: State, t: nat, endpoint: string, answer: Answer) {
    t < |s.tasks| && s.tasks[t].endpoint == endpoint && s.tasks[t].phase == Fetched(answer)
  }

  predicate Lost(s: State, t: nat, endpoint: string) {
    t < |s.tasks| && s.tasks[t].endpoint == endpoint && s.tasks[t].phase.LeaderDropped?
  }

  /** Every cached entry is a leader's success, dated by that leader's own lookup. */
  ghost predicate CacheBacked(s: State) {
    forall e | e in s.cached ::
      exists t: nat :: Asked(s, t, e, Ok(s.cached[e].info)) && s.tasks[t].began == s.cached[e].insertedAt
  }

  predicate Holds(s: State, u: nat) {
    u < |s.tasks| && (s.tasks[u].phase.Woken? || s.tasks[u].phase.Returned?)
  }

  ghost predicate Backed(s: State, u: nat)
    requires Holds(s, u)
  {
    var e, a := s.tasks[u].endpoint, s.tasks[u].phase.answer;
    (exists t: nat :: Asked(s, t, e, a)) || (a == Err(FETCH_DROPPED) && exists t: nat :: Lost(s, t, e))
  }

  /** Every answer a caller holds is what some leader was told, or that its leader was dropped. */
  ghost predicate AnswersBacked(s: State) {
    forall u: nat | Holds(s, u) :: Backed(s, u)
  }

  ghost predicate Inv(s: State) {
    OneLeader(s) && Listed(s) && CacheBacked(s) && AnswersBacked(s)
  }

  // ---------------------------------------------------------------- ending a fetch

  lemma {:induction false} DeliveredAt(tasks: seq<Task>, waiters: seq<nat>, answer: Answer, u: nat)
    requires u < |tasks|
    ensures DeliveredAll(tasks, waiters, answer)[u] ==
            if u in waiters && tasks[u].phase.Waiting? then tasks[u].(phase := Woken(answer)) else tasks[u]
  {
    if waiters != [] {
      var n := |waiters| - 1;
      DeliveredAt(tasks, waiters[..n], answer, u);
      assert waiters == waiters[..n] + [waiters[n]];
    }
  }

  /** The state after leader `t` stops leading, with its answer or because it was dropped. */
  function Ended(s: State, t: nat, phase: Phase, answer: Answer, at: Millis): State
    requires t < |s.tasks|
  {
    Finalized(WithPhase(s, t, phase), s.tasks[t].endpoint, answer, at)
  }

  /** The end of a fetch wakes exactly the callers that wait for this endpoint: each of them
      was listed once, gets the answer, and no other task is touched. */
  lemma EndWakesTheWaiters(s: State, t: nat, phase: Phase, answer: Answer, at: Millis)
    requires Inv(s) && t < |s.tasks| && s.tasks[t].phase.Leading?
    ensures var e, r := s.tasks[t].endpoint, Ended(s, t, phase, answer, at);
            && e in s.inFlight && r.inFlight == s.inFlight - {e} && |r.tasks| == |s.tasks|
            && forall u | 0 <= u < |s.tasks| ::
                 if u == t then r.tasks[u] == s.tasks[u].(phase := phase)
                 else if s.tasks[u].phase.Waiting? && s.tasks[u].endpoint == e
                 then ListedOnce(s.inFlight[e], u) && r.tasks[u] == s.tasks[u].(phase := Woken(answer))
                 else r.tasks[u] == s.tasks[u]
  {
    var e, r := s.tasks[t].endpoint, Ended(s, t, phase, answer, at);
    var mid := WithPhase(s, t, phase);
    assert Leads(s, t, e);
    forall u | 0 <= u < |s.tasks|
      ensures if u == t then r.tasks[u] == s.tasks[u].(phase := phase)
              else if s.tasks[u].phase.Waiting? && s.tasks[u].endpoint == e
              then ListedOnce(s.inFlight[e], u) && r.tasks[u] == s.tasks[u].(phase := Woken(answer))
              else r.tasks[u] == s.tasks[u]
    {
      DeliveredAt(mid.tasks, s.inFlight[e], answer, u);
      if u in s.inFlight[e] {
        var k :| 0 <= k < |s.inFlight[e]| && s.inFlight[e][k] == u;
      }
    }
  }

  lemma EndKeepsFlights(s: State, t: nat, phase: Phase, answer: Answer, at: Millis)
    requires Inv(s) && t < |s.tasks| && s.tasks[t].phase.Leading? && (phase.Fetched? || phase.LeaderDropped?)
    ensures OneLeader(Ended(s, t, phase, answer, at)) && Listed(Ended(s, t, phase, answer, at))
  {
    EndWakesTheWaiters(s, t, phase, answer, at);
    var e, r := s.tasks[t].endpoint, Ended(s, t, phase, answer, at);
    assert Leads(s, t, e);
    forall u: nat, f | Leads(r, u, f) ensures Leads(s, u, f) && u != t {
    }
    forall f | f in r.inFlight ensures exists u: nat :: Leads(r, u, f) {
      var u: nat :| Leads(s, u, f);
      assert Leads(r, u, f);
    }
  }

  predicate SameAnswer(s: State, r: State, u: nat)
    requires Holds(s, u) && Holds(r, u)
  {
    s.tasks[u].endpoint == r.tasks[u].endpoint && s.tasks[u].phase.answer == r.tasks[u].phase.answer
  }

  /** Answers stay answers whatever happens to a leader. */
  lemma StillBacked(s: State, r: State)
    requires CacheBacked(s) && AnswersBacked(s) && |s.tasks| <= |r.tasks|
    requires forall t | 0 <= t < |s.tasks| && (s.tasks[t].phase.Fetched? || s.tasks[t].phase.LeaderDropped?) ::
               r.tasks[t] == s.tasks[t]
    requires forall e | e in r.cached && (e !in s.cached || r.cached[e] != s.cached[e]) ::
               exists t: nat :: Asked(r, t, e, Ok(r.cached[e].info)) && r.tasks[t].began == r.cached[e].insertedAt
    requires forall u: nat | Holds(r, u) && !(u < |s.tasks| && Holds(s, u) && SameAnswer(s, r, u)) :: Backed(r, u)
    ensures CacheBacked(r) && AnswersBacked(r)
  {
    forall e | e in r.cached
      ensures exists t: nat :: Asked(r, t, e, Ok(r.cached[e].info)) && r.tasks[t].began == r.cached[e].insertedAt
    {
      if e in s.cached && r.cached[e] == s.cached[e] {
        var t: nat :| Asked(s, t, e, Ok(s.cached[e].info)) && s.tasks[t].began == s.cached[e].insertedAt;
        assert Asked(r, t, e, Ok(r.cached[e].info));
      }
    }
    forall u: nat | Holds(r, u) ensures Backed(r, u) {
      if u < |s.tasks| && Holds(s, u) && SameAnswer(s, r, u) {
        var e, a := s.tasks[u].endpoint, s.tasks[u].phase.answer;
        if t: nat :| Asked(s, t, e, a) {
          assert Asked(r, t, e, a);
        } else {
          var t: nat :| Lost(s, t, e);
          assert Lost(r, t, e);
        }
      }
    }
  }

  lemma EndKeepsBacked(s: State, t: nat, answer: Answer, dropped: bool)
    requires Inv(s) && t < |s.tasks| && s.tasks[t].phase.Leading? && (dropped ==> answer == Err(FETCH_DROPPED))
    ensures var r := Ended(s, t, if dropped then LeaderDropped else Fetched(answer), answer, s.tasks[t].began);
            CacheBacked(r) && AnswersBacked(r)
  {
    var phase := if dropped then LeaderDropped else Fetched(answer);
    var e, r := s.tasks[t].endpoint, Ended(s, t, phase, answer, s.tasks[t].began);
    EndWakesTheWaiters(s, t, phase, answer, s.tasks[t].began);
    assert if dropped then Lost(r, t, e) else Asked(r, t, e, answer);
    StillBacked(s, r);
  }

  // ---------------------------------------------------------------- the other steps

  lemma BeginKeepsListed(s: State, endpoint: string, now: Millis)
    requires Inv(s)
    ensures Listed(Begun(s, endpoint, now))
  {
    var r, n := Begun(s, endpoint, now), |s.tasks|;
    if Inspect(s, endpoint, now).Wait? {
      var list := s.inFlight[endpoint];
      assert r.inFlight[endpoint] == list + [n];
      forall t: nat | t == n || (t < n && s.tasks[t].phase.Waiting? && s.tasks[t].endpoint == endpoint)
        ensures ListedOnce(list + [n], t)
      {
        assert multiset(list + [n])[t] == multiset(list)[t] + (if t == n then 1 else 0);
      }
    }
  }

  lemma BeginKeepsLeaders(s: State, endpoint: string, now: Millis)
    requires Inv(s)
    ensures OneLeader(Begun(s, endpoint, now))
  {
    var r, n := Begun(s, endpoint, now), |s.tasks|;
    forall t: nat, e | Leads(r, t, e) ensures Leads(s, t, e) || (t == n && e == endpoint && e !in s.inFlight) {
    }
    forall e | e in r.inFlight ensures exists t: nat :: Leads(r, t, e) {
      if e in s.inFlight {
        var t: nat :| Leads(s, t, e);
        assert Leads(r, t, e);
      } else {
        assert Leads(r, n, e);
      }
    }
  }

  lemma BeginKeepsInv(s: State, endpoint: string, now: Millis)
    requires Inv(s)
    ensures Inv(Begun(s, endpoint, now))
  {
    BeginKeepsLeaders(s, endpoint, now);
    BeginKeepsListed(s, endpoint, now);
    var r, n := Begun(s, endpoint, now), |s.tasks|;
    if Inspect(s, endpoint, now).Hit? {
      var t: nat :| Asked(s, t, endpoint, Ok(s.cached[endpoint].info));
      assert Asked(r, t, endpoint, r.tasks[n].phase.answer);
      assert Backed(r, n);
    }
    StillBacked(s, r);
  }

  lemma PhaseKeepsInv(s: State, t: nat, phase: Phase)
    requires Inv(s) && t < |s.tasks| && (s.tasks[t].phase.Waiting? || s.tasks[t].phase.Woken?)
    requires phase.WaiterDropped? || (s.tasks[t].phase.Woken? && phase == Returned(s.tasks[t].phase.answer))
    ensures Inv(WithPhase(s, t, phase))
  {
    var r := WithPhase(s, t, phase);
    forall e | e in r.inFlight ensures exists u: nat :: Leads(r, u, e) {
      var u: nat :| Leads(s, u, e);
      assert Leads(r, u, e);
    }
    forall u: nat, e | Leads(r, u, e) ensures Leads(s, u, e) {
    }
    StillBacked(s, r);
  }

  lemma InvalidateKeepsInv(s: State, endpoint: string)
    requires Inv(s)
    ensures Inv(After(s, Invalidate(endpoint)))
  {
    var r := After(s, Invalidate(endpoint));
    forall e | e in r.inFlight ensures exists t: nat :: Leads(r, t, e) {
      var t: nat :| Leads(s, t, e);
      assert Leads(r, t, e);
    }
    forall t: nat, e | Leads(r, t, e) ensures Leads(s, t, e) {
    }
    StillBacked(s, r);
  }

  /** No step breaks the protocol. */
  lemma StepKeepsInv(s: State, step: Step)
    requires Inv(s) && Possible(s, step)
    ensures Inv(After(s, step))
  {
    match step
    case Begin(endpoint, now) => BeginKeepsInv(s, endpoint, now);
    case Resolve(t, answer) =>
      EndKeepsFlights(s, t, Fetched(answer), answer, s.tasks[t].began);
      EndKeepsBacked(s, t, answer, false);
    case Collect(t) => PhaseKeepsInv(s, t, Returned(s.tasks[t].phase.answer));
    case Drop(t) =>
      if s.tasks[t].phase.Leading? {
        EndKeepsFlights(s, t, LeaderDropped, Err(FETCH_DROPPED), s.tasks[t].began);
        EndKeepsBacked(s, t, Err(FETCH_DROPPED), true);
        assert After(s, step) == Ended(s, t, LeaderDropped, Err(FETCH_DROPPED), s.tasks[t].began);
      } else {
        PhaseKeepsInv(s, t, WaiterDropped);
      }
    case Invalidate(endpoint) => InvalidateKeepsInv(s, endpoint);
  }

  // ---------------------------------------------------------------- every run

  const EMPTY: State := State(map[], map[], [])

  ghost predicate Run(s: State, steps: seq<Step>, r: State)
    decreases steps
  {
    if steps == [] then s == r else Possible(s, steps[0]) && Run(After(s, steps[0]), steps[1..], r)
  }

  lemma {:induction false} RunKeepsInv(s: State, steps: seq<Step>, r: State)
    requires Inv(s) && Run(s, steps, r)
    ensures Inv(r)
    decreases steps
  {
    if steps != [] {
      StepKeepsInv(s, steps[0]);
      RunKeepsInv(After(s, steps[0]), steps[1..], r);
    }
  }

  /** In every reachable state an endpoint is in flight exactly when it has a live leader, it
      never has two, and every waiting caller is listed once with the live leader of its own
      endpoint: nobody waits for an answer that cannot come. */
  lemma NobodyWaitsForNothing(steps: seq<Step>, s: State)
    requires Run(EMPTY, steps, s)
    ensures OneLeader(s)
    ensures forall u | 0 <= u < |s.tasks| && s.tasks[u].phase.Waiting? ::
              var e := s.tasks[u].endpoint;
              e in s.inFlight && ListedOnce(s.inFlight[e], u) && exists t: nat :: Leads(s, t, e)
  {
    RunKeepsInv(EMPTY, steps, s);
  }

  /** In every reachable state the end of a fetch, by answer or by drop, gives all its waiters
      the same answer, and afterwards the endpoint is free for a new leader. */
  lemma FetchEndsForAll(steps: seq<Step>, s: State, t: nat, step: Step)
    requires Run(EMPTY, steps, s) && Possible(s, step)
    requires step == Drop(t) || (step.Resolve? && step.task == t)
    requires t < |s.tasks| && s.tasks[t].phase.Leading?
    ensures var e, r := s.tasks[t].endpoint, After(s, step);
            var answer := if step.Resolve? then step.answer else Err(TusError.Transport);
            && e !in r.inFlight
            && (forall u | 0 <= u < |s.tasks| && s.tasks[u].phase.Waiting? && s.tasks[u].endpoint == e ::
                  r.tasks[u].phase == Woken(answer))
            && (forall u | 0 <= u < |s.tasks| && u != t && !(s.tasks[u].phase.Waiting? && s.tasks[u].endpoint == e) ::
                  r.tasks[u] == s.tasks[u])
            && r.cached == (if answer.Ok? then s.cached[e := Entry(answer.value, s.tasks[t].began)] else s.cached)
  {
    RunKeepsInv(EMPTY, steps, s);
    if step.Resolve? {
      EndWakesTheWaiters(s, t, Fetched(step.answer), step.answer, s.tasks[t].began);
    } else {
      EndWakesTheWaiters(s, t, LeaderDropped, Err(FETCH_DROPPED), 0.0);
    }
  }

  /** In every reachable state a hit repeats a success that some leader for this endpoint was
      told, and that leader began less than a minute ago. */
  lemma HitsAreFresh(steps: seq<Step>, s: State, endpoint: string, now: Millis)
    requires Run(EMPTY, steps, s) && Inspect(s, endpoint, now).Hit?
    ensures exists t: nat ::
      Asked(s, t, endpoint, Ok(Inspect(s, endpoint, now).info)) && 0.0 <= now - s.tasks[t].began < 60_000.0
  {
    RunKeepsInv(EMPTY, steps, s);
    var entry := s.cached[endpoint];
    var t: nat :| Asked(s, t, endpoint, Ok(entry.info)) && s.tasks[t].began == entry.insertedAt;
  }

  /** A caller is answered from the cache exactly when its entry is less than a minute old. It
      asks the server itself exactly when there is neither such an entry nor anybody asking
      already, and otherwise it waits. */
  lemma FetchesAreCoalesced(steps: seq<Step>, s: State, endpoint: string, now: Millis)
    requires Run(EMPTY, steps, s)
    ensures var asking := exists t: nat :: Leads(s, t, endpoint);
            var young := endpoint in s.cached && 0.0 <= now - s.cached[endpoint].insertedAt < 60_000.0;
            After(s, Begin(endpoint, now)).tasks ==
            s.tasks + [Task(endpoint, now, if young then Returned(Ok(s.cached[endpoint].info))
                                           else if asking then Waiting else Leading)]
  {
    RunKeepsInv(EMPTY, steps, s);
  }

  // ---------------------------------------------------------------- invalidation

  lemma StepKeepsTasks(s: State, step: Step)
    requires Possible(s, step)
    ensures |s.tasks| <= |After(s, step).tasks|
    ensures forall t | 0 <= t < |s.tasks| :: After(s, step).tasks[t].endpoint == s.tasks[t].endpoint
  {
    if step.Resolve? || (step.Drop? && s.tasks[step.task].phase.Leading?) {
      var phase := if step.Resolve? then Fetched(step.answer) else LeaderDropped;
      var answer := if step.Resolve? then step.answer else Err(FETCH_DROPPED);
      var mid := WithPhase(s, step.task, phase);
      forall t | 0 <= t < |s.tasks| ensures After(s, step).tasks[t].endpoint == s.tasks[t].endpoint {
        DeliveredAt(mid.tasks, WaitersFor(mid, s.tasks[step.task].endpoint), answer, t);
      }
    }
  }

  lemma {:induction false} RunKeepsTasks(s: State, steps: seq<Step>, r: State)
    requires Run(s, steps, r)
    ensures |s.tasks| <= |r.tasks| && forall t | 0 <= t < |s.tasks| :: r.tasks[t].endpoint == s.tasks[t].endpoint
    decreases steps
  {
    if steps != [] {
      StepKeepsTasks(s, steps[0]);
      RunKeepsTasks(After(s, steps[0]), steps[1..], r);
    }
  }

  /** The step ends a fetch for the endpoint with a success; `tasks` names the leaders. */
  predicate Refreshes(tasks: seq<Task>, step: Step, endpoint: string) {
    step.Resolve? && step.answer.Ok? && step.task < |tasks| && tasks[step.task].endpoint == endpoint
  }

  lemma {:induction false} CachedIffRefreshed(s: State, steps: seq<Step>, r: State, endpoint: string)
    requires Run(s, steps, r) && forall k | 0 <= k < |steps| :: steps[k] != Invalidate(endpoint)
    ensures endpoint in r.cached
       <==> endpoint in s.cached || exists k | 0 <= k < |steps| :: Refreshes(r.tasks, steps[k], endpoint)
    decreases steps
  {
    if steps != [] {
      var mid, rest := After(s, steps[0]), steps[1..];
      CachedIffRefreshed(mid, rest, r, endpoint);
      RunKeepsTasks(s, steps, r);
      assert endpoint in mid.cached <==> endpoint in s.cached || Refreshes(r.tasks, steps[0], endpoint);
      assert forall k | 0 <= k < |rest| :: rest[k] == steps[k + 1];
      if k :| 0 <= k < |steps| && Refreshes(r.tasks, steps[k], endpoint) && k > 0 {
        assert Refreshes(r.tasks, rest[k - 1], endpoint);
      }
    }
  }

  /** After `invalidate` the endpoint is back in the cache exactly when a fetch for it, possibly
      one that was already in flight, has succeeded since. */
  lemma InvalidateLetsFlightsLand(s: State, endpoint: string, steps: seq<Step>, r: State)
    requires Run(After(s, Invalidate(endpoint)), steps, r)
    requires forall k | 0 <= k < |steps| :: steps[k] != Invalidate(endpoint)
    ensures endpoint in r.cached <==> exists k | 0 <= k < |steps| :: Refreshes(r.tasks, steps[k], endpoint)
  {
    CachedIffRefreshed(After(s, Invalidate(endpoint)), steps, r, endpoint);
  }

  // ---------------------------------------------------------------- the cache object

  class OptionsCache {
    var cached: map<string, Entry>
    var inFlight: map<string, seq<nat>>
    var tasks: seq<Task>

    function S(): State
      reads this
    {
      State(cached, inFlight, tasks)
    }

    constructor ()
      ensures S() == EMPTY
    {
      cached, inFlight, tasks := map[], map[], [];
    }

    /** The one place that inspects the cache: it also registers the caller, task `id`. */
    method LookupOrRegister(endpoint: string, now: Millis, id: nat) returns (r: Lookup)
      modifies this`inFlight
      ensures r == Inspect(old(S()), endpoint, now)
      ensures r.Hit? <==> endpoint in cached && 0.0 <= now - cached[endpoint].insertedAt < 60_000.0
      ensures inFlight == match r
                          case Hit(_) => old(inFlight)
                          case Wait => old(inFlight)[endpoint := old(WaitersFor(S(), endpoint)) + [id]]
                          case Fetch => old(inFlight)[endpoint := []]
    {
      if endpoint in cached {
        var age := now - cached[endpoint].insertedAt;
        if 0.0 <= age < TTL {
          return Hit(cached[endpoint].info);
        }
      }
      if endpoint in inFlight {
        inFlight := inFlight[endpoint := inFlight[endpoint] + [id]];
        return Wait;
      }
      inFlight := inFlight[endpoint := []];
      r := Fetch;
    }

    method FinalizeFetch(endpoint: string, answer: Answer, insertedAt: Millis)
      modifies this
      ensures S() == Finalized(old(S()), endpoint, answer, insertedAt)
    {
      if answer.Ok? {
        cached := cached[endpoint := Entry(answer.value, insertedAt)];
      }
      var waiters := if endpoint in inFlight then inFlight[endpoint] else [];
      inFlight := inFlight - {endpoint};
      for k := 0 to |waiters|
        invariant S() == Finalized(old(S()), endpoint, answer, insertedAt).(tasks := tasks)
        invariant tasks == DeliveredAll(old(tasks), waiters[..k], answer)
      {
        assert waiters[..k + 1][..k] == waiters[..k];
        var tx := waiters[k];
        if tx < |tasks| && tasks[tx].phase.Waiting? {
          tasks := tasks[tx := tasks[tx].(phase := Woken(answer))];
        }
      }
      assert waiters[..|waiters|] == waiters;
    }

    /** `get_or_fetch` up to its first suspension point. */
    method GetOrFetch(endpoint: string, now: Millis) returns (id: nat)
      modifies this
      ensures id == |old(tasks)| && S() == After(old(S()), Begin(endpoint, now))
    {
      id := |tasks|;
      var r := LookupOrRegister(endpoint, now, id);
      match r
      case Hit(info) => tasks := tasks + [Task(endpoint, now, Returned(Ok(info)))];
      case Wait => tasks := tasks + [Task(endpoint, now, Waiting)];
      case Fetch => tasks := tasks + [Task(endpoint, now, Leading)];
    }

    /** A leader resumes with the server's answer; its guard no longer fires. */
    method ResumeLeader(id: nat, answer: Answer)
      requires Possible(S(), Resolve(id, answer))
      modifies this
      ensures S() == After(old(S()), Resolve(id, answer))
    {
      var me := tasks[id];
      tasks := tasks[id := me.(phase := Fetched(answer))];
      FinalizeFetch(me.endpoint, answer, me.began);
    }

    /** A waiter resumes with what it was sent. */
    method ResumeWaiter(id: nat) returns (answer: Answer)
      requires Possible(S(), Collect(id))
      modifies this
      ensures S() == After(old(S()), Collect(id)) && old(tasks)[id].phase == Woken(answer)
    {
      answer := tasks[id].phase.answer;
      tasks := tasks[id := tasks[id].(phase := Returned(answer))];
    }

    /** A caller's future is dropped; the guard of a leader ends the fetch for everyone. */
    method DropTask(id: nat)
      requires Possible(S(), Drop(id))
      modifies this
      ensures S() == After(old(S()), Drop(id))
    {
      var me := tasks[id];
      if me.phase.Leading? {
        tasks := tasks[id := me.(phase := LeaderDropped)];
        FinalizeFetch(me.endpoint, Err(FETCH_DROPPED), 0.0);
      } else {
        tasks := tasks[id := me.(phase := WaiterDropped)];
      }
    }

    method Forget(endpoint: string)
      modifies this`cached
      ensures S() == After(old(S()), Invalidate(endpoint))
    {
      cached := cached - {endpoint};
    }

    method PeekFresh(endpoint: string, now: Millis) returns (r: Option<Capabilities>)
      ensures r == match Inspect(S(), endpoint, now)
                   case Hit(info) => Some(info)
                   case _ => None
      ensures r == if endpoint in cached && 0.0 <= now - cached[endpoint].insertedAt < 60_000.0
                   then Some(cached[endpoint].info) else None
    {
      if endpoint !in cached {
        return None;
      }
      var entry := cached[endpoint];
      var age := now - entry.insertedAt;
      r := if 0.0 <= age < TTL then Some(entry.info) else None;
    }
  }
}
