/** Where the begin and end records go: the injected log4js logger when the
    options name both a logger and a level, the console otherwise.  The
    console writes are modelled as records of what is printed (texts and
    colour names); the log4js writes as the message string handed to the
    logger's level method. */
module Sinks {
  import opened Wrappers
  import opened JsText
  import opened Colors
  import opened Parts

  /** An injected logger object, known only by identity. */
  datatype Logger = Logger(id: nat)

  /** `opts.log4js`: a missing `logger` or `level` property is `None`. */
  datatype Log4jsConfig = Log4jsConfig(logger: Option<Logger>, level: Option<string>)

  /** The options object given to `dev`; `opts` itself may be missing. */
  datatype Options = Options(log4js: Option<Log4jsConfig>)

  /** `isLog4jsAviable(opts)`: every step of
      `opts && opts.log4js && opts.log4js.logger && opts.log4js.level` is
      truthy; an empty level string is falsy. */
  predicate Log4jsAvailable(opts: Option<Options>) {
    && opts.Some?
    && opts.value.log4js.Some?
    && opts.value.log4js.value.logger.Some?
    && opts.value.log4js.value.level.Some?
    && opts.value.log4js.value.level.value != ""
  }

  datatype Sink = Log4jsSink(logger: Logger, level: string) | ConsoleSink

  /** The sink an emission point writes to. */
  function SelectSink(opts: Option<Options>): (sink: Sink)
    ensures sink.Log4jsSink? <==> Log4jsAvailable(opts)
    ensures sink.Log4jsSink? ==>
              Some(sink.logger) == opts.value.log4js.value.logger &&
              Some(sink.level) == opts.value.log4js.value.level && sink.level != ""
  {
    if Log4jsAvailable(opts) then
      Log4jsSink(opts.value.log4js.value.logger.value, opts.value.log4js.value.level.value)
    else ConsoleSink
  }

  /** A configured logger with an empty level string still falls back to the
      console: logger and level are not checked independently. */
  lemma EmptyLevelFallsBackToConsole(logger: Logger)
    ensures SelectSink(Some(Options(Some(Log4jsConfig(Some(logger), Some("")))))) == ConsoleSink
    ensures SelectSink(Some(Options(Some(Log4jsConfig(Some(logger), Some("debug")))))) == Log4jsSink(logger, "debug")
  {
  }

  /** The message of `requestBeginWriteToLog4js`. */
  function BeginMessage(httpMethod: string, originalUrl: string): (m: string)
    ensures |m| == |httpMethod| + 1 + |originalUrl|
    ensures m[..|httpMethod|] == httpMethod && m[|httpMethod|] == ' '
    ensures m[|httpMethod| + 1..] == originalUrl
  {
    httpMethod + " " + originalUrl
  }

  /** The message of `requestEndWriteLog4js`: it repeats the begin message
      of the same request and ends with the length field. */
  function EndMessage(p: LogParts): (m: string)
    ensures BeginMessage(p.httpMethod, p.originalUrl) <= m
    ensures |m| > |p.length| && m[|m| - |p.length| - 1..] == " " + p.length
  {
    p.httpMethod + " " + p.originalUrl + " " + IntToString(p.status) + " " + p.time + " " + p.length
  }

  /** `s.split(' ')`: the pieces between single spaces, empty ones included. */
  function SplitOnSpace(s: string): (pieces: seq<string>)
    ensures |pieces| >= 1
    decreases |s|
  {
    if s == [] then [[]]
    else
      var rest := SplitOnSpace(s[1..]);
      if s[0] == ' ' then [[]] + rest
      else [[s[0]] + rest[0]] + rest[1..]
  }

  lemma {:induction false} SplitOnSpaceNoSpace(a: string)
    requires ' ' !in a
    ensures SplitOnSpace(a) == [a]
    decreases |a|
  {
    if a != [] {
      assert ' ' !in a[1..] by {
        forall i | 0 <= i < |a[1..]| ensures a[1..][i] != ' ' {
          assert a[1..][i] == a[i + 1];
        }
      }
      SplitOnSpaceNoSpace(a[1..]);
      assert [a[0]] + a[1..] == a;
    }
  }

  lemma {:induction false} SplitOnSpaceJoin(a: string, b: string)
    requires ' ' !in a
    ensures SplitOnSpace(a + " " + b) == [a] + SplitOnSpace(b)
    decreases |a|
  {
    var s := a + " " + b;
    if a == [] {
      assert s[1..] == b;
    } else {
      assert s[1..] == a[1..] + " " + b;
      assert ' ' !in a[1..] by {
        forall i | 0 <= i < |a[1..]| ensures a[1..][i] != ' ' {
          assert a[1..][i] == a[i + 1];
        }
      }
      SplitOnSpaceJoin(a[1..], b);
      assert [a[0]] + a[1..] == a;
    }
  }

  lemma IntToStringHasNoSpace(i: int)
    ensures ' ' !in IntToString(i)
  {
  }

  /** Five space-free fields joined by single spaces split back into
      themselves. */
  lemma SplitFiveFields(a: string, b: string, c: string, d: string, e: string)
    requires ' ' !in a && ' ' !in b && ' ' !in c && ' ' !in d && ' ' !in e
    ensures SplitOnSpace(a + " " + (b + " " + (c + " " + (d + " " + e)))) == [a, b, c, d, e]
  {
    SplitOnSpaceNoSpace(e);
    SplitOnSpaceJoin(d, e);
    SplitOnSpaceJoin(c, d + " " + e);
    SplitOnSpaceJoin(b, c + " " + (d + " " + e));
    SplitOnSpaceJoin(a, b + " " + (c + " " + (d + " " + e)));
  }

  lemma EndMessageShape(p: LogParts)
    ensures EndMessage(p) == p.httpMethod + " " + (p.originalUrl + " " +
              (IntToString(p.status) + " " + (p.time + " " + p.length)))
  {
  }

  /** When no field contains a space (an HTTP request line cannot), the end
      message splits back into its five fields and the status reads back as
      the reported number. */
  lemma EndMessageFields(p: LogParts)
    requires ' ' !in p.httpMethod && ' ' !in p.originalUrl
    requires ' ' !in p.time && ' ' !in p.length
    ensures SplitOnSpace(EndMessage(p)) ==
              [p.httpMethod, p.originalUrl, IntToString(p.status), p.time, p.length]
    ensures ParseInt(SplitOnSpace(EndMessage(p))[2]) == Some(p.status)
  {
    IntToStringHasNoSpace(p.status);
    IntToStringRoundTrip(p.status);
    EndMessageShape(p);
    SplitFiveFields(p.httpMethod, p.originalUrl, IntToString(p.status), p.time, p.length);
  }

  /** The colour of the upstream marker. */
  function MarkerColor(m: Marker): Color
  {
    match m
    case Errored => Red
    case ClientClosed => Yellow
    case Forwarded => Gray
  }

  /** What one `console.log` call prints, without escape codes.  The begin
      line always shows the gray `<--` arrow. */
  datatype ConsoleLine =
    | BeginLine(httpMethod: string, originalUrl: string)
    | EndLine(marker: string, markerColor: Color, httpMethod: string, originalUrl: string,
              status: int, statusStyle: Style, time: string, length: string)

  datatype Emission =
    | Log4jsCall(logger: Logger, level: string, message: string)
    | ConsoleLog(line: ConsoleLine)

  /** The sink an emission went to. */
  function SinkOf(e: Emission): Sink
  {
    match e
    case Log4jsCall(logger, level, _) => Log4jsSink(logger, level)
    case ConsoleLog(_) => ConsoleSink
  }

  /** The begin notice of a request. */
  function EmitBegin(opts: Option<Options>, ctx: Ctx): (e: Emission)
    ensures SinkOf(e) == SelectSink(opts)
    ensures e.Log4jsCall? ==> e.message == BeginMessage(ctx.httpMethod, ctx.originalUrl)
    ensures e.ConsoleLog? ==> e.line == BeginLine(ctx.httpMethod, ctx.originalUrl)
  {
    match SelectSink(opts)
    case Log4jsSink(logger, level) => Log4jsCall(logger, level, BeginMessage(ctx.httpMethod, ctx.originalUrl))
    case ConsoleSink => ConsoleLog(BeginLine(ctx.httpMethod, ctx.originalUrl))
  }

  function ConsoleEndLine(p: LogParts, style: Style): ConsoleLine
  {
    EndLine(MarkerText(p.upstream), MarkerColor(p.upstream), p.httpMethod, p.originalUrl,
            p.status, style, p.time, p.length)
  }

  /** The error raised by calling `chalk[0]`, which is not a function. */
  datatype TypeError = StyleIsNotAFunction(status: int)

  /** The end record as index.js writes it: on the console, a status whose
      bucket has no colour raises a TypeError instead of printing. */
  function EmitEndAsWritten(opts: Option<Options>, p: LogParts): (r: Result<Emission, TypeError>)
    ensures r.Failure? <==> !Log4jsAvailable(opts) && StatusBucket(p.status) !in ColoredBuckets
    ensures r.Success? ==> SinkOf(r.value) == SelectSink(opts)
  {
    StatusStyleAsWrittenFails(p.status);
    match SelectSink(opts)
    case Log4jsSink(logger, level) => Success(Log4jsCall(logger, level, EndMessage(p)))
    case ConsoleSink =>
      match ChalkStyle(ColorKeyAsWritten(p.status))
      case Some(style) => Success(ConsoleLog(ConsoleEndLine(p, style)))
      case None => Failure(StyleIsNotAFunction(p.status))
  }

  /** A status of 600 with the console sink: the as-written end line fails. */
  lemma EmitEndAsWrittenFailsAt600(p: LogParts)
    requires p.status == 600
    ensures EmitEndAsWritten(None, p).Failure?
  {
  }

  /** The corrected end record: it always reaches its sink, and where the
      as-written one succeeds the two agree. */
  function EmitEnd(opts: Option<Options>, p: LogParts): (e: Emission)
    ensures SinkOf(e) == SelectSink(opts)
    ensures e.Log4jsCall? ==> e.message == EndMessage(p)
    ensures e.ConsoleLog? ==>
              && e.line.EndLine?
              && e.line.httpMethod == p.httpMethod
              && e.line.originalUrl == p.originalUrl
              && e.line.status == p.status
              && e.line.marker == MarkerText(p.upstream)
              && e.line.markerColor == MarkerColor(p.upstream)
              && e.line.time == p.time
              && e.line.length == p.length
              && e.line.statusStyle == StatusStyle(p.status)
    ensures EmitEndAsWritten(opts, p).Success? ==> EmitEndAsWritten(opts, p).value == e
  {
    StatusStyleAgreesAsWritten(p.status);
    match SelectSink(opts)
    case Log4jsSink(logger, level) => Log4jsCall(logger, level, EndMessage(p))
    case ConsoleSink => ConsoleLog(ConsoleEndLine(p, StatusStyle(p.status)))
  }
}
