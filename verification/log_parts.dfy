/** `logParts` of index.js: the record one end line is made from, with the
    reported status, the length field and the upstream marker it picks. */
module Parts {
  import opened Wrappers
  import opened JsText
  import Timing

  /** What `logParts` receives as `err`.  The normal path passes `null`, and
      a handler may throw any falsy value, so all of those are `Falsy`.  A
      thrown object carries its `status` property, where 0 stands for a
      missing or falsy one. */
  datatype ErrValue = Falsy | ErrorObject(status: int)

  /** The transport event that triggered the end record. */
  datatype EndEvent = Finish | Close

  /** The request context as `logParts` reads it; `status` 0 stands for an
      unset (falsy) status. */
  datatype Ctx = Ctx(httpMethod: string, originalUrl: string, status: int)

  /** The two formatting libraries, taken as opaque string functions: the
      byte-count formatter and the number humanizer.  A length is any
      integer: a negative `Content-Length` header reaches `bytes` as is. */
  datatype Formatters = Formatters(bytes: int -> string, humanize: string -> string)

  datatype Marker = Errored | ClientClosed | Forwarded

  datatype LogParts = LogParts(
    upstream: Marker,
    httpMethod: string,
    originalUrl: string,
    status: int,
    time: string,
    length: string)

  /** `err ? (err.status || 500) : (ctx.status || 404)` */
  function ReportedStatus(err: ErrValue, ctxStatus: int): (status: int)
    ensures status != 0
    ensures err.ErrorObject? && err.status != 0 ==> status == err.status
    ensures err.ErrorObject? && err.status == 0 ==> status == 500
    ensures err.Falsy? && ctxStatus != 0 ==> status == ctxStatus
    ensures err.Falsy? && ctxStatus == 0 ==> status == 404
  {
    if err.ErrorObject? then
      (if err.status != 0 then err.status else 500)
    else
      (if ctxStatus != 0 then ctxStatus else 404)
  }

  /** The statuses whose response carries no body. */
  const EmptyBodyStatuses: seq<int> := [204, 205, 304]

  predicate IsEmptyBodyStatus(status: int) {
    status == 204 || status == 205 || status == 304
  }

  /** `Array.prototype.indexOf` with strict equality: the first position of
      `x`, or -1. */
  function IndexOf(xs: seq<int>, x: int): (r: int)
    ensures -1 <= r < |xs|
    ensures r == -1 <==> x !in xs
    ensures 0 <= r ==> xs[r] == x
    ensures forall j :: 0 <= j < r ==> xs[j] != x
  {
    if xs == [] then -1
    else if xs[0] == x then 0
    else
      var k := IndexOf(xs[1..], x);
      if k < 0 then -1 else k + 1
  }

  /** JavaScript's `~` on a small integer. */
  function BitNot(i: int): int {
    -i - 1
  }

  /** The guard `~[204, 205, 304].indexOf(status)` is truthy exactly for
      the three statuses without a body. */
  lemma EmptyBodyGuard(status: int)
    ensures BitNot(IndexOf(EmptyBodyStatuses, status)) != 0 <==> IsEmptyBodyStatus(status)
  {
  }

  /** The length field: empty for a bodiless status whatever `len` is, `-`
      for an unknown length, otherwise the lower-cased formatted byte count. */
  function LengthField(status: int, len: Option<int>, bytes: int -> string): (field: string)
    ensures IsEmptyBodyStatus(status) ==> field == ""
    ensures !IsEmptyBodyStatus(status) && len.None? ==> field == "-"
    ensures !IsEmptyBodyStatus(status) && len.Some? ==> field == ToLower(bytes(len.value))
  {
    EmptyBodyGuard(status);
    if BitNot(IndexOf(EmptyBodyStatuses, status)) != 0 then ""
    else if len.None? then "-"
    else ToLower(bytes(len.value))
  }

  /** The upstream marker: an error wins over the event; a client close
      without an error is the only way to get `-x-`. */
  function Upstream(err: ErrValue, event: Option<EndEvent>): (m: Marker)
    ensures m == Errored <==> err.ErrorObject?
    ensures m == ClientClosed <==> err.Falsy? && event == Some(Close)
    ensures m == Forwarded <==> err.Falsy? && event != Some(Close)
  {
    if err.ErrorObject? then Errored
    else if event == Some(Close) then ClientClosed
    else Forwarded
  }

  function MarkerText(m: Marker): string {
    match m
    case Errored => "xxx"
    case ClientClosed => "-x-"
    case Forwarded => "-->"
  }

  /** The three markers are distinct three-character texts, so the printed
      marker identifies the outcome. */
  lemma MarkerTextInjective(a: Marker, b: Marker)
    ensures |MarkerText(a)| == 3
    ensures MarkerText(a) == MarkerText(b) <==> a == b
  {
  }

  /** `logParts(ctx, start, len, err, event)`, with the elapsed time since
      `start` given as `delta`. */
  function MakeLogParts(ctx: Ctx, delta: int, len: Option<int>, err: ErrValue,
                        event: Option<EndEvent>, fmt: Formatters): (p: LogParts)
    ensures p.httpMethod == ctx.httpMethod && p.originalUrl == ctx.originalUrl
    ensures p.upstream == Upstream(err, event)
    ensures p.upstream == Errored <==> err.ErrorObject?
    ensures err.ErrorObject? ==> p.status == (if err.status != 0 then err.status else 500)
    ensures err.Falsy? ==> p.status == (if ctx.status != 0 then ctx.status else 404)
    ensures IsEmptyBodyStatus(p.status) ==> p.length == ""
    ensures !IsEmptyBodyStatus(p.status) && len.None? ==> p.length == "-"
    ensures !IsEmptyBodyStatus(p.status) && len.Some? ==> p.length == ToLower(fmt.bytes(len.value))
    ensures p.time == fmt.humanize(Timing.TimeText(delta))
  {
    var status := ReportedStatus(err, ctx.status);
    LogParts(Upstream(err, event), ctx.httpMethod, ctx.originalUrl, status,
             Timing.Time(delta, fmt.humanize), LengthField(status, len, fmt.bytes))
  }
}
