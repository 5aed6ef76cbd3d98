/** The per-request `logger` middleware that `dev(opts)` returns: a begin
    notice, the downstream handler, then either the error record (and the
    same error re-thrown) or one end record, written by whichever of the
    transport's `finish` and `close` events comes first. */
module Middleware {
  import opened Wrappers
  import opened JsText
  import opened Parts
  import opened Sinks
  import Timing

  /** `ctx.body` as the counter decision reads it: a falsy body, or an object
      whose `readable` property may be set (a stream). */
  datatype Body = FalsyBody | Body(readable: bool)

  /** The response once the handler has settled; `lengthHint` is
      `ctx.response.length`, `None` when it is null or undefined.  It is
      the parsed `Content-Length` header when one is set, which may be
      negative. */
  datatype Response = Response(lengthHint: Option<int>, body: Body)

  /** `length == null && body && body.readable`: a counting stream is piped
      in front of the body exactly when the length is unknown and the body is
      a readable stream. */
  predicate InstallsCounter(resp: Response) {
    resp.lengthHint.None? && resp.body.Body? && resp.body.readable
  }

  /** A transport event as `done` sees it: which event, the elapsed time
      since the start stamp, and the counter's running total at that moment. */
  datatype Fired = Fired(event: EndEvent, delta: int, counted: nat)

  /** `counter ? counter.length : length`: the counted total when a counter
      was installed, the original hint otherwise. */
  function EndLength(resp: Response, f: Fired): (len: Option<int>)
    ensures InstallsCounter(resp) ==> len == Some(f.counted)
    ensures !InstallsCounter(resp) ==> len == resp.lengthHint
  {
    if InstallsCounter(resp) then Some(f.counted) else resp.lengthHint
  }

  /** Which of the two `once` listeners are still registered on `res`. */
  datatype Listeners = Listeners(onFinish: bool, onClose: bool)

  const Armed: Listeners := Listeners(true, true)
  const Disarmed: Listeners := Listeners(false, false)

  function Registered(l: Listeners, ev: EndEvent): bool
  {
    match ev
    case Finish => l.onFinish
    case Close => l.onClose
  }

  function RemoveListener(l: Listeners, ev: EndEvent): (l': Listeners)
    ensures !Registered(l', ev)
    ensures forall other :: other != ev ==> Registered(l', other) == Registered(l, other)
  {
    match ev
    case Finish => l.(onFinish := false)
    case Close => l.(onClose := false)
  }

  /** One event reaching `res`: a registered `once` listener unregisters
      itself and runs `done`, which removes both listeners before logging.
      The flag says whether `done` ran. */
  function Deliver(l: Listeners, ev: EndEvent): (r: (Listeners, bool))
    ensures r.1 <==> Registered(l, ev)
    ensures r.1 ==> r.0 == Disarmed
    ensures !r.1 ==> r.0 == l
  {
    if Registered(l, ev) then
      var afterOnce := RemoveListener(l, ev);
      (RemoveListener(RemoveListener(afterOnce, Finish), Close), true)
    else (l, false)
  }

  /** The events, in arrival order, on which `done` ran. */
  function Honored(l: Listeners, events: seq<Fired>): (honored: seq<Fired>)
    ensures |honored| <= 1
    ensures l == Disarmed ==> honored == []
    ensures honored != [] ==> honored[0] in events && Registered(l, honored[0].event)
    decreases |events|
  {
    if events == [] then []
    else
      var next := Deliver(l, events[0].event);
      (if next.1 then [events[0]] else []) + Honored(next.0, events[1..])
  }

  lemma {:induction false} DisarmedHonorsNothing(events: seq<Fired>)
    ensures Honored(Disarmed, events) == []
    decreases |events|
  {
    if events != [] {
      DisarmedHonorsNothing(events[1..]);
    }
  }

  /** Whatever listeners remain, at most one event is honoured: one of the
      delivered events whose listener was registered at the start. */
  lemma {:induction false} HonoredAtMostOne(l: Listeners, events: seq<Fired>)
    ensures |Honored(l, events)| <= 1
    ensures |Honored(l, events)| == 1 ==> Registered(l, Honored(l, events)[0].event)
    ensures |Honored(l, events)| == 1 ==> Honored(l, events)[0] in events
    decreases |events|
  {
    if events != [] {
      var next := Deliver(l, events[0].event);
      if next.1 {
        DisarmedHonorsNothing(events[1..]);
      } else {
        HonoredAtMostOne(l, events[1..]);
      }
    }
  }

  /** With both listeners armed, the first event of either kind is the one
      honoured and every later one is ignored. */
  lemma {:induction false} ArmedHonorsFirst(events: seq<Fired>)
    ensures Honored(Armed, events) == (if events == [] then [] else [events[0]])
  {
    if events != [] {
      DisarmedHonorsNothing(events[1..]);
    }
  }

  /** How `await next()` settled: normally, or by throwing `err` after
      `delta` milliseconds. */
  datatype Settled = Resolved | Rejected(err: ErrValue, delta: int)

  /** How the middleware itself settles: it returns, re-throws the handler's
      error, or (as written) throws a TypeError of its own in its place. */
  datatype Completion = Returned | Rethrown(err: ErrValue) | RaisedInstead(error: TypeError)

  /** Everything one request produces: the end records built, every write to
      a sink in order, how the middleware settles, and whether the body was
      wrapped in a counter. */
  datatype Trace = Trace(ends: seq<LogParts>, emissions: seq<Emission>,
                         completion: Completion, counterInstalled: bool)

  /** The record `done(event)` builds. */
  function EndRecord(ctx: Ctx, resp: Response, f: Fired, fmt: Formatters): (p: LogParts)
    ensures p.httpMethod == ctx.httpMethod && p.originalUrl == ctx.originalUrl
    ensures p.time == fmt.humanize(Timing.TimeText(f.delta))
    ensures p.upstream == (if f.event == Close then ClientClosed else Forwarded)
    ensures p.status == (if ctx.status != 0 then ctx.status else 404)
    ensures p.length == LengthField(p.status, EndLength(resp, f), fmt.bytes)
  {
    MakeLogParts(ctx, f.delta, EndLength(resp, f), Falsy, Some(f.event), fmt)
  }

  /** The record the catch block builds: no length and no event. */
  function ErrorRecord(ctx: Ctx, err: ErrValue, delta: int, fmt: Formatters): (p: LogParts)
    ensures p.httpMethod == ctx.httpMethod && p.originalUrl == ctx.originalUrl
    ensures p.time == fmt.humanize(Timing.TimeText(delta))
    ensures p.upstream == (if err.ErrorObject? then Errored else Forwarded)
    ensures p.status == ReportedStatus(err, ctx.status)
    ensures p.length == (if IsEmptyBodyStatus(p.status) then "" else "-")
  {
    MakeLogParts(ctx, delta, None, err, None, fmt)
  }

  /** One request through the middleware.  `events` are the transport events
      after the handler returned, in arrival order; on the error path no
      listener is registered, so they are never looked at. */
  function Handle(opts: Option<Options>, fmt: Formatters, ctx: Ctx, resp: Response,
                  settled: Settled, events: seq<Fired>): (t: Trace)
    ensures |t.emissions| == 1 + |t.ends|
    ensures t.emissions[0] == EmitBegin(opts, ctx)
    ensures forall i :: 0 <= i < |t.ends| ==> t.emissions[i + 1] == EmitEnd(opts, t.ends[i])
    ensures settled.Rejected? ==>
              && t.completion == Rethrown(settled.err)
              && t.ends == [ErrorRecord(ctx, settled.err, settled.delta, fmt)]
              && !t.counterInstalled
    ensures settled.Resolved? ==>
              && t.completion == Returned
              && |t.ends| == (if events == [] then 0 else 1)
              && (events != [] ==> t.ends[0] == EndRecord(ctx, resp, events[0], fmt))
              && t.counterInstalled == InstallsCounter(resp)
  {
    var begin := EmitBegin(opts, ctx);
    match settled
    case Rejected(err, delta) =>
      var ends := [ErrorRecord(ctx, err, delta, fmt)];
      Trace(ends, [begin, EmitEnd(opts, ends[0])], Rethrown(err), false)
    case Resolved =>
      ArmedHonorsFirst(events);
      var honored := Honored(Armed, events);
      var ends := seq(|honored|, i requires 0 <= i < |honored| => EndRecord(ctx, resp, honored[i], fmt));
      var writes := seq(|ends|, i requires 0 <= i < |ends| => EmitEnd(opts, ends[i]));
      Trace(ends, [begin] + writes, Returned, InstallsCounter(resp))
  }

  /** Every write of a request goes to the sink the options select. */
  lemma HandleUsesOneSink(opts: Option<Options>, fmt: Formatters, ctx: Ctx, resp: Response,
                          settled: Settled, events: seq<Fired>)
    ensures forall e :: e in Handle(opts, fmt, ctx, resp, settled, events).emissions ==>
              SinkOf(e) == SelectSink(opts)
  {
  }

  /** `length == null && body && body.readable`, case by case: a known
      length, a falsy body or a body that is not readable each keep the body
      as it is. */
  lemma CounterDecision(hint: Option<int>, body: Body)
    ensures InstallsCounter(Response(hint, body)) <==> hint == None && body == Body(true)
    ensures hint.Some? ==> !InstallsCounter(Response(hint, body))
    ensures body == FalsyBody || body == Body(false) ==> !InstallsCounter(Response(hint, body))
  {
  }

  /** A request never produces two end records, and produces one precisely
      when its handler threw or the transport reported at least one event. */
  lemma AtMostOneEndRecord(opts: Option<Options>, fmt: Formatters, ctx: Ctx, resp: Response,
                           settled: Settled, events: seq<Fired>)
    ensures |Handle(opts, fmt, ctx, resp, settled, events).ends| <= 1
    ensures |Handle(opts, fmt, ctx, resp, settled, events).ends| == 1 <==>
              settled.Rejected? || events != []
  {
  }

  /** The error path reports the error's status (500 without one) with an
      unknown length and the `xxx` marker, and re-throws the same value. */
  lemma ErrorPathRecord(opts: Option<Options>, fmt: Formatters, ctx: Ctx, resp: Response,
                        status: int, delta: int, events: seq<Fired>)
    ensures var t := Handle(opts, fmt, ctx, resp, Rejected(ErrorObject(status), delta), events);
      && t.completion == Rethrown(ErrorObject(status))
      && t.ends[0].upstream == Errored
      && MarkerText(t.ends[0].upstream) == "xxx"
      && t.ends[0].status == (if status != 0 then status else 500)
      && t.ends[0].length == (if IsEmptyBodyStatus(t.ends[0].status) then "" else "-")
  {
  }

  /** A client close honoured first yields the `-x-` marker; a later
      `finish` adds nothing. */
  lemma CloseBeforeFinish(opts: Option<Options>, fmt: Formatters, ctx: Ctx, resp: Response,
                          closed: Fired, finished: Fired)
    requires closed.event == Close && finished.event == Finish
    ensures var t := Handle(opts, fmt, ctx, resp, Resolved, [closed, finished]);
      && |t.ends| == 1
      && MarkerText(t.ends[0].upstream) == "-x-"
      && |t.emissions| == 2
  {
  }

  /** A streamed body without a length header: the reported length is the
      counted total, whatever the hint said (there was none); a status of
      204, 205 or 304 still shows an empty field. */
  lemma StreamedLengthIsCounted(opts: Option<Options>, fmt: Formatters, ctx: Ctx, resp: Response,
                                f: Fired)
    requires InstallsCounter(resp)
    ensures var t := Handle(opts, fmt, ctx, resp, Resolved, [f]);
      && t.counterInstalled
      && t.ends[0].length ==
           (if IsEmptyBodyStatus(t.ends[0].status) then "" else ToLower(fmt.bytes(f.counted)))
  {
  }

  /** GET /hello answered 200 with an 11-byte streamed body and no length:
      one begin write, one end write with the `-->` marker, status 200 and
      the formatted count of 11 bytes. */
  lemma HelloScenario(fmt: Formatters, delta: int)
    ensures var t := Handle(None, fmt, Ctx("GET", "/hello", 200), Response(None, Body(true)),
                            Resolved, [Fired(Finish, delta, 11)]);
      && |t.emissions| == 2
      && t.ends[0].upstream == Forwarded
      && t.ends[0].status == 200
      && t.ends[0].length == ToLower(fmt.bytes(11))
      && t.emissions[0] == ConsoleLog(BeginLine("GET", "/hello"))
  {
  }

  /** The request as index.js runs it, with the as-written end write.  A
      TypeError from the console end line replaces the handler's error on the
      error path (it is thrown before `throw err`); on the normal path the
      middleware has already returned, and the TypeError escapes from the
      `done` listener instead. */
  datatype TraceAsWritten = TraceAsWritten(emissions: seq<Emission>, completion: Completion,
                                           escaped: Option<TypeError>)

  function HandleAsWritten(opts: Option<Options>, fmt: Formatters, ctx: Ctx, resp: Response,
                           settled: Settled, events: seq<Fired>): (t: TraceAsWritten)
    ensures var corrected := Handle(opts, fmt, ctx, resp, settled, events);
      && 1 <= |t.emissions| && t.emissions[0] == corrected.emissions[0]
      && (corrected.ends == [] ==>
            t == TraceAsWritten(corrected.emissions, corrected.completion, None))
      && (corrected.ends != [] && EmitEndAsWritten(opts, corrected.ends[0]).Success? ==>
            t == TraceAsWritten(corrected.emissions, corrected.completion, None))
      && (corrected.ends != [] && EmitEndAsWritten(opts, corrected.ends[0]).Failure? ==>
            && t.emissions == [corrected.emissions[0]]
            && (settled.Rejected? ==>
                  t.completion == RaisedInstead(EmitEndAsWritten(opts, corrected.ends[0]).error)
                  && t.escaped == None)
            && (settled.Resolved? ==>
                  t.completion == Returned
                  && t.escaped == Some(EmitEndAsWritten(opts, corrected.ends[0]).error)))
  {
    var begin := EmitBegin(opts, ctx);
    match settled
    case Rejected(err, delta) =>
      (match EmitEndAsWritten(opts, ErrorRecord(ctx, err, delta, fmt))
       case Success(e) => TraceAsWritten([begin, e], Rethrown(err), None)
       case Failure(te) => TraceAsWritten([begin], RaisedInstead(te), None))
    case Resolved =>
      ArmedHonorsFirst(events);
      if events == [] then TraceAsWritten([begin], Returned, None)
      else
        match EmitEndAsWritten(opts, EndRecord(ctx, resp, events[0], fmt))
        case Success(e) => TraceAsWritten([begin, e], Returned, None)
        case Failure(te) => TraceAsWritten([begin], Returned, Some(te))
  }

  /** Status 600 on the console sink: as written, the handler's error is
      replaced by the TypeError and no end line is printed; the corrected
      model re-throws the handler's error after printing it. */
  lemma ErrorAt600ReplacedAsWritten(fmt: Formatters, ctx: Ctx, resp: Response, delta: int,
                                    events: seq<Fired>)
    ensures HandleAsWritten(None, fmt, ctx, resp, Rejected(ErrorObject(600), delta), events).completion
              == RaisedInstead(StyleIsNotAFunction(600))
    ensures Handle(None, fmt, ctx, resp, Rejected(ErrorObject(600), delta), events).completion
              == Rethrown(ErrorObject(600))
  {
    Colors.StatusBucketIsHundreds(600);
  }

  /** A response with status 600 on the console sink: as written, `done`
      throws the TypeError out of the `finish` listener. */
  lemma FinishAt600EscapesAsWritten(fmt: Formatters, resp: Response, f: Fired)
    requires f.event == Finish
    ensures HandleAsWritten(None, fmt, Ctx("GET", "/", 600), resp, Resolved, [f]).escaped
              == Some(StyleIsNotAFunction(600))
  {
    Colors.StatusBucketIsHundreds(600);
  }
}
