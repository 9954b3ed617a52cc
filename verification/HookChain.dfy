/** The server's chain of pre-hooks: hooks run in order, each sees the upload as the earlier
    ones left it, and the first rejection or error ends the chain. */
module HookChain {
  import opened Wrappers

  datatype HookEvent =
    | PreCreate | PostCreate | PreReceive | PostReceive | PreFinish | PostFinish | PreTerminate | PostTerminate
  {
    predicate IsPre() {
      PreCreate? || PreReceive? || PreFinish? || PreTerminate?
    }

    predicate AllowsMetadataReplacement() {
      PreCreate? || PreReceive?
    }
  }

  type Metadata = map<string, string>
  type Headers = map<string, string>

  datatype Upload = Upload(id: string, offset: nat, length: Option<nat>, metadata: Metadata)

  datatype Context = Context(event: HookEvent, upload: Upload, request: string)

  datatype PreHookResult = PreHookResult(
    proceed: bool,
    metadata: Option<Metadata>,
    rejectStatus: Option<nat>,
    rejectMessage: Option<string>,
    headers: Headers)

  type Reply = Result<PreHookResult, string>

  datatype Call = Call(hook: string, context: Context)

  /** A hook answers from the context and from everything the chain has called so far, so it
      may keep any state of its own. */
  datatype Hook = Hook(name: string, events: set<HookEvent>, answer: (seq<Call>, Context) -> Reply)

  /** What a chain returns, and the calls made so far. */
  datatype Outcome = Outcome(reply: Reply, calls: seq<Call>)

  /** The chain calls this hook for this context's event. */
  predicate Heeds(hook: Hook, event: HookEvent) {
    event in hook.events && event.IsPre()
  }

  /** The context as a hook's replacement metadata leaves it. */
  function Amended(ctx: Context, r: PreHookResult): Context {
    if ctx.event.AllowsMetadataReplacement() && r.metadata.Some?
    then ctx.(upload := ctx.upload.(metadata := r.metadata.value))
    else ctx
  }

  function Rejection(r: PreHookResult, headers: Headers): PreHookResult {
    PreHookResult(false, None, r.rejectStatus, r.rejectMessage, headers)
  }

  /** What the chain still does with `hooks`, having merged `headers` and seen whether the
      metadata was replaced. */
  function Rest(hooks: seq<Hook>, ctx: Context, calls: seq<Call>, headers: Headers, changed: bool): Outcome {
    if hooks == [] then
      Outcome(Ok(PreHookResult(true, if changed then Some(ctx.upload.metadata) else None, None, None, headers)), calls)
    else if !Heeds(hooks[0], ctx.event) then Rest(hooks[1..], ctx, calls, headers, changed)
    else
      var called := calls + [Call(hooks[0].name, ctx)];
      match hooks[0].answer(calls, ctx)
      case Err(e) => Outcome(Err(e), called)
      case Ok(r) =>
        if !r.proceed then Outcome(Ok(Rejection(r, headers + r.headers)), called)
        else Rest(hooks[1..], Amended(ctx, r), called, headers + r.headers,
                  changed || (ctx.event.AllowsMetadataReplacement() && r.metadata.Some?))
  }

  /** `execute_pre` on a chain. */
  function Executed(hooks: seq<Hook>, ctx: Context, calls: seq<Call>): Outcome {
    Rest(hooks, ctx, calls, map[], false)
  }

  // ---------------------------------------------------------------- the loop

  method ExecutePre(hooks: seq<Hook>, ctx: Context, calls: seq<Call>) returns (r: Outcome)
    ensures r == Executed(hooks, ctx, calls)
  {
    var headers: Headers := map[];
    var current := ctx.upload;
    var metadataChanged := false;
    var made := calls;
    for i := 0 to |hooks|
      invariant Executed(hooks, ctx, calls)
             == Rest(hooks[i..], ctx.(upload := current), made, headers, metadataChanged)
    {
      var hook := hooks[i];
      assert hooks[i..][0] == hook && hooks[i..][1..] == hooks[i + 1..];
      if ctx.event !in hook.events {
        continue;
      }
      if !ctx.event.IsPre() {
        continue;
      }
      var hookContext := Context(ctx.event, current, ctx.request);
      var reply := hook.answer(made, hookContext);
      made := made + [Call(hook.name, hookContext)];
      if reply.Err? {
        return Outcome(Err(reply.error), made);
      }
      headers := headers + reply.value.headers;
      if !reply.value.proceed {
        return Outcome(Ok(Rejection(reply.value, headers)), made);
      }
      if ctx.event.AllowsMetadataReplacement() && reply.value.metadata.Some? {
        current := current.(metadata := reply.value.metadata.value);
        metadataChanged := true;
      }
    }
    var metadata := if metadataChanged then Some(current.metadata) else None;
    r := Outcome(Ok(PreHookResult(true, metadata, None, None, headers)), made);
  }

  // ---------------------------------------------------------------- composition

  /** Two replies, the second chain's after the first's: headers of the second override, and
      the first's metadata stands unless the second replaced it or rejected. */
  function Merged(first: PreHookResult, second: Reply): Reply {
    match second
    case Err(e) => Err(e)
    case Ok(r) =>
      if !r.proceed then Ok(r.(headers := first.headers + r.headers))
      else Ok(r.(headers := first.headers + r.headers,
                 metadata := if r.metadata.Some? then r.metadata else first.metadata))
  }

  /** Run `hooks` after a chain that ended with `first`. */
  function AndThen(first: Outcome, hooks: seq<Hook>, ctx: Context): Outcome {
    if first.reply.Err? || !first.reply.value.proceed then first else
      var second := Executed(hooks, Amended(ctx, first.reply.value), first.calls);
      Outcome(Merged(first.reply.value, second.reply), second.calls)
  }

  lemma {:induction false} HeadersAccumulate(hooks: seq<Hook>, ctx: Context, calls: seq<Call>, headers: Headers,
                                             changed: bool)
    requires changed ==> ctx.event.AllowsMetadataReplacement()
    ensures var first := PreHookResult(true, if changed then Some(ctx.upload.metadata) else None, None, None, headers);
            var alone := Executed(hooks, ctx, calls);
            Rest(hooks, ctx, calls, headers, changed) == Outcome(Merged(first, alone.reply), alone.calls)
    decreases |hooks|
  {
    var none: Headers := map[];
    if hooks == [] {
      assert headers + none == headers;
    } else if !Heeds(hooks[0], ctx.event) {
      HeadersAccumulate(hooks[1..], ctx, calls, headers, changed);
    } else {
      var called := calls + [Call(hooks[0].name, ctx)];
      match hooks[0].answer(calls, ctx)
      case Err(_) =>
      case Ok(r) =>
        if r.proceed {
          var replaced := ctx.event.AllowsMetadataReplacement() && r.metadata.Some?;
          HeadersAccumulate(hooks[1..], Amended(ctx, r), called, headers + r.headers, changed || replaced);
          HeadersAccumulate(hooks[1..], Amended(ctx, r), called, map[] + r.headers, replaced);
          MergeHeaders(headers, r.headers, Executed(hooks[1..], Amended(ctx, r), called).reply);
        } else {
          assert none + r.headers == r.headers;
        }
    }
  }

  lemma MergeHeaders(a: Headers, b: Headers, reply: Reply)
    ensures map[] + b == b
    ensures reply.Ok? ==> (a + b) + reply.value.headers == a + (b + reply.value.headers)
  {
  }

  lemma {:induction false} ReplacementShows(hooks: seq<Hook>, ctx: Context, calls: seq<Call>, headers: Headers)
    ensures var r := Rest(hooks, ctx, calls, headers, true).reply; r.Ok? && r.value.proceed ==> r.value.metadata.Some?
    decreases |hooks|
  {
    if hooks == [] {
    } else if !Heeds(hooks[0], ctx.event) {
      ReplacementShows(hooks[1..], ctx, calls, headers);
    } else {
      var reply := hooks[0].answer(calls, ctx);
      if reply.Ok? && reply.value.proceed {
        ReplacementShows(hooks[1..], Amended(ctx, reply.value), calls + [Call(hooks[0].name, ctx)],
                         headers + reply.value.headers);
      }
    }
  }

  lemma {:induction false} RestComposes(a: seq<Hook>, b: seq<Hook>, ctx: Context, calls: seq<Call>, headers: Headers,
                                        changed: bool)
    requires changed ==> ctx.event.AllowsMetadataReplacement()
    ensures Rest(a + b, ctx, calls, headers, changed) == AndThen(Rest(a, ctx, calls, headers, changed), b, ctx)
    decreases |a|
  {
    if a == [] {
      assert a + b == b;
      HeadersAccumulate(b, ctx, calls, headers, changed);
    } else {
      assert (a + b)[1..] == a[1..] + b;
      if !Heeds(a[0], ctx.event) {
        RestComposes(a[1..], b, ctx, calls, headers, changed);
      } else {
        var reply := a[0].answer(calls, ctx);
        if reply.Ok? && reply.value.proceed {
          var called := calls + [Call(a[0].name, ctx)];
          var replaced := ctx.event.AllowsMetadataReplacement() && reply.value.metadata.Some?;
          RestComposes(a[1..], b, Amended(ctx, reply.value), called, headers + reply.value.headers,
                       changed || replaced);
          if replaced {
            ReplacementShows(a[1..], Amended(ctx, reply.value), called, headers + reply.value.headers);
          }
        }
      }
    }
  }

  /** Running the chain `a + b` is running `a` and then, if it proceeds, `b` on the upload as
      `a` left it. */
  lemma {:induction false} ChainsCompose(a: seq<Hook>, b: seq<Hook>, ctx: Context, calls: seq<Call>)
    ensures Executed(a + b, ctx, calls) == AndThen(Executed(a, ctx, calls), b, ctx)
  {
    RestComposes(a, b, ctx, calls, map[], false);
  }

  /** One hook alone: its own decision, without metadata where the event does not allow it. */
  lemma OneHook(hook: Hook, ctx: Context, calls: seq<Call>)
    ensures Executed([hook], ctx, calls) ==
            if ctx.event !in hook.events || ctx.event !in {PreCreate, PreReceive, PreFinish, PreTerminate} then
              Outcome(Ok(PreHookResult(true, None, None, None, map[])), calls)
            else
              Outcome(match hook.answer(calls, ctx)
                      case Err(e) => Err(e)
                      case Ok(r) =>
                        Ok(PreHookResult(r.proceed,
                                         if r.proceed && ctx.event in {PreCreate, PreReceive} then r.metadata else None,
                                         if r.proceed then None else r.rejectStatus,
                                         if r.proceed then None else r.rejectMessage,
                                         r.headers)),
                      calls + [Call(hook.name, ctx)])
  {
    assert [hook][1..] == [];
    if !Heeds(hook, ctx.event) {
      assert Executed([hook], ctx, calls) == Rest([], ctx, calls, map[], false);
    } else if hook.answer(calls, ctx).Ok? {
      var r := hook.answer(calls, ctx).value;
      assert map[] + r.headers == r.headers;
      if r.proceed {
        assert Executed([hook], ctx, calls)
            == Rest([], Amended(ctx, r), calls + [Call(hook.name, ctx)], map[] + r.headers,
                    ctx.event.AllowsMetadataReplacement() && r.metadata.Some?);
      }
    }
  }

  // ---------------------------------------------------------------- what follows

  /** A rejection or an error by any hook cuts off every later hook. */
  lemma CutOff(a: seq<Hook>, b: seq<Hook>, ctx: Context, calls: seq<Call>)
    requires Executed(a, ctx, calls).reply.Err? || !Executed(a, ctx, calls).reply.value.proceed
    ensures Executed(a + b, ctx, calls) == Executed(a, ctx, calls)
  {
    ChainsCompose(a, b, ctx, calls);
  }

  /** The log a chain makes: one call for each hook that heeds the event, in order, for some
      initial stretch of the chain. */
  function Names(calls: seq<Call>): (r: seq<string>)
    ensures |r| == |calls|
  {
    seq(|calls|, i requires 0 <= i < |calls| => calls[i].hook)
  }

  function HeedingNames(hooks: seq<Hook>, event: HookEvent): seq<string> {
    if hooks == [] then []
    else
      (if event in hooks[0].events && event in {PreCreate, PreReceive, PreFinish, PreTerminate} then [hooks[0].name]
       else [])
      + HeedingNames(hooks[1..], event)
  }

  /** Exactly the hooks that heed the event are called, in chain order, up to the first that
      rejects or fails, and all of them when the chain proceeds. */
  lemma {:induction false} CallsInOrder(hooks: seq<Hook>, ctx: Context, calls: seq<Call>, headers: Headers,
                                        changed: bool)
    ensures var r := Rest(hooks, ctx, calls, headers, changed);
            && calls <= r.calls
            && Names(r.calls) <= Names(calls) + HeedingNames(hooks, ctx.event)
            && (r.reply.Ok? && r.reply.value.proceed ==>
                  Names(r.calls) == Names(calls) + HeedingNames(hooks, ctx.event))
    decreases |hooks|
  {
    if hooks == [] {
    } else if !Heeds(hooks[0], ctx.event) {
      CallsInOrder(hooks[1..], ctx, calls, headers, changed);
    } else {
      var name, later := hooks[0].name, HeedingNames(hooks[1..], ctx.event);
      var called := calls + [Call(name, ctx)];
      var reply := hooks[0].answer(calls, ctx);
      assert Names(called) == Names(calls) + [name];
      assert Names(called) + later == Names(calls) + ([name] + later);
      assert HeedingNames(hooks, ctx.event) == [name] + later;
      if reply.Ok? && reply.value.proceed {
        CallsInOrder(hooks[1..], Amended(ctx, reply.value), called, headers + reply.value.headers,
                     changed || (ctx.event.AllowsMetadataReplacement() && reply.value.metadata.Some?));
      }
    }
  }

  /** For an event that only gates, every hook sees the original upload and no metadata comes
      back, whatever the hooks answer. */
  lemma {:induction false} GatesKeepMetadata(hooks: seq<Hook>, ctx: Context, calls: seq<Call>, headers: Headers)
    requires ctx.event !in {PreCreate, PreReceive}
    ensures var r := Rest(hooks, ctx, calls, headers, false);
            && |calls| <= |r.calls| && (forall i | |calls| <= i < |r.calls| :: r.calls[i].context == ctx)
            && (r.reply.Ok? ==> r.reply.value.metadata.None?)
    decreases |hooks|
  {
    if hooks == [] {
    } else if !Heeds(hooks[0], ctx.event) {
      GatesKeepMetadata(hooks[1..], ctx, calls, headers);
    } else {
      var called := calls + [Call(hooks[0].name, ctx)];
      var reply := hooks[0].answer(calls, ctx);
      if reply.Ok? && reply.value.proceed {
        GatesKeepMetadata(hooks[1..], ctx, called, headers + reply.value.headers);
        CallsInOrder(hooks[1..], ctx, called, headers + reply.value.headers, false);
      }
    }
  }

  /** A chain neither calls anything nor replaces anything for an event that is not a pre-event. */
  lemma {:induction false} PostEventsPass(hooks: seq<Hook>, ctx: Context, calls: seq<Call>)
    requires ctx.event in {PostCreate, PostReceive, PostFinish, PostTerminate}
    ensures Executed(hooks, ctx, calls) == Outcome(Ok(PreHookResult(true, None, None, None, map[])), calls)
    decreases |hooks|
  {
    if hooks != [] {
      PostEventsPass(hooks[1..], ctx, calls);
    }
  }

  /** Every hook of a chain sees the original event, request, id, offset and length. */
  lemma {:induction false} HooksSeeTheUpload(hooks: seq<Hook>, ctx: Context, calls: seq<Call>, headers: Headers,
                                             changed: bool)
    ensures var r, up := Rest(hooks, ctx, calls, headers, changed), ctx.upload;
            && |calls| <= |r.calls| && r.calls[..|calls|] == calls
            && forall i | |calls| <= i < |r.calls| ::
                 var seen := r.calls[i].context;
                 seen == Context(ctx.event, Upload(up.id, up.offset, up.length, seen.upload.metadata), ctx.request)
    decreases |hooks|
  {
    if hooks == [] {
    } else if !Heeds(hooks[0], ctx.event) {
      HooksSeeTheUpload(hooks[1..], ctx, calls, headers, changed);
    } else {
      var called := calls + [Call(hooks[0].name, ctx)];
      var reply := hooks[0].answer(calls, ctx);
      assert called[..|calls|] == calls;
      if reply.Ok? && reply.value.proceed {
        var replaced := ctx.event.AllowsMetadataReplacement() && reply.value.metadata.Some?;
        HooksSeeTheUpload(hooks[1..], Amended(ctx, reply.value), called, headers + reply.value.headers,
                          changed || replaced);
        var r := Rest(hooks, ctx, calls, headers, changed);
        assert r.calls[..|calls|] == r.calls[..|called|][..|calls|] == calls;
        assert r.calls[|calls|] == r.calls[..|called|][|calls|];
      }
    }
  }

  /** After a chain that proceeds, the next hook sees the metadata that the chain returns, if it
      returns any, and the original metadata otherwise. */
  lemma NextHookSees(before: seq<Hook>, hook: Hook, ctx: Context, calls: seq<Call>)
    requires var first := Executed(before, ctx, calls).reply; first.Ok? && first.value.proceed
    requires ctx.event in hook.events && ctx.event in {PreCreate, PreReceive, PreFinish, PreTerminate}
    ensures var first, up := Executed(before, ctx, calls), ctx.upload;
            var metadata := if first.reply.value.metadata.Some? then first.reply.value.metadata.value else up.metadata;
            Executed(before + [hook], ctx, calls).calls ==
            first.calls
            + [Call(hook.name, Context(ctx.event, Upload(up.id, up.offset, up.length, metadata), ctx.request))]
  {
    ChainsCompose(before, [hook], ctx, calls);
    var first := Executed(before, ctx, calls);
    OneHook(hook, Amended(ctx, first.reply.value), first.calls);
    if ctx.event !in {PreCreate, PreReceive} {
      GatesKeepMetadata(before, ctx, calls, map[]);
    }
  }
}
