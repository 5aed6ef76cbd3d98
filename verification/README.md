# Koa request logger: a Dafny model

This project models the decision logic of a Koa request-logging middleware
(`index.js`). For each request, `dev(opts)` returns a `logger` middleware.
That middleware:

- writes a begin notice;
- awaits the downstream handler;
- on an error, writes one error record and re-throws the same value;
- otherwise, optionally pipes the body through a byte counter and arms
  two one-shot listeners, `finish` and `close`, on the transport. Whichever
  fires first removes both and writes the end record.

A record goes either to an injected log4js logger or to the console.

The modules follow the pieces of `index.js`:

- `JsText`: the JavaScript conversions the code relies on. These are
  integer-to-decimal printing, `toLowerCase` and the `x / 100 | 0`
  arithmetic. Each has a parser or range property it is proved against.
- `Timing`: `time`. Milliseconds below 10000, otherwise rounded seconds.
- `Parts`: `logParts`. Reported status, length field, upstream marker.
- `Colors`: the `colorCodes` lookup for the status colour.
- `Sinks`: `isLog4jsAviable`, the log4js message strings and the console
  records.
- `Middleware`: the counter decision, the finish/close listener machine
  and the whole-request trace.

Inputs the code gets from outside become parameters:

- The elapsed time `delta` replaces `Date.now()`.
- The counter's running total is carried by each transport event.
- The `bytes` and `humanize-number` formatters are opaque functions
  (`Parts.Formatters`).

JavaScript truthiness is modelled explicitly:

- A status of 0 stands for a missing or falsy one.
- A thrown falsy value is `Parts.Falsy`, the same value the normal path
  passes as `null`.
- An empty level string is falsy.

Three behaviours of the code are easy to miss:

- The sink is not fixed when `dev` is called: `isLog4jsAviable(opts)` is
  evaluated again at index.js:42, 53 and 87. `Sinks.SelectSink` is applied
  at each point.
- A request that never sees `finish` or `close` yields no end record
  (`Middleware.AtMostOneEndRecord`).
- A thrown falsy value is not treated as an error. It gets the context
  status (or 404) and the `-->` marker, and is still re-thrown.

## Model

| member | source | states |
|---|---|---|
| `Parts.ReportedStatus` | index.js:103-105 | With an error object: its status, or 500 if that is falsy. Otherwise: the context status, or 404 if unset. The result is never 0. |
| `Parts.IndexOf` | index.js:108 | `indexOf` returns -1 exactly when the value is absent. Otherwise it returns the first position holding it. |
| `Parts.EmptyBodyGuard` | index.js:108 | `~[204,205,304].indexOf(status)` is truthy exactly for statuses 204, 205 and 304. |
| `Parts.LengthField` | index.js:107-114 | Empty for 204/205/304 whatever the length. Otherwise `-` for an unknown length. Otherwise the lower-cased formatted byte count. |
| `Parts.Upstream` | index.js:116-118 | `xxx` exactly when there is an error, even on `close`. `-x-` exactly for `close` without an error. `-->` in every other case. |
| `Parts.MarkerTextInjective` | index.js:116-118 | The three markers are distinct three-character texts. |
| `Parts.MakeLogParts` | index.js:101-128 | The record copies method and URL. Its marker is `Upstream`'s. Its status is the error's or 500, else the context's or 404. Its length is empty for 204/205/304, else `-` for an unknown length, else the lower-cased formatted count. Its time is the humanized time text. |
| `Timing.Time` | index.js:175-180 | Below 10000 the humanizer gets `<delta>ms`. From 10000 on it gets `<(delta+500) div 1000>s`, the rounded seconds. |
| `Timing.Resolution` | index.js:177-179 | Milliseconds exactly when delta < 10000. Otherwise seconds `s` with `1000s - 500 <= delta < 1000s + 500`, i.e. nearest, ties up, at least 10. |
| `Timing.RenderElapsedRoundTrip` | index.js:177-179 | The rendered `<n>ms` or `<n>s` text parses back to the same unit and value. |
| `Timing.TimeTextRoundTrip` | index.js:175-180 | The time text parses back to the chosen resolution. It ends in milliseconds iff delta < 10000. |
| `Timing.TimeTextExamples` | index.js:175-179 | 9999 gives `9999ms`, 10000 and 10499 give `10s`, 10500 gives `11s`, and -3 gives `-3ms`. |
| `JsText.NatToString` | index.js:178 | Decimal printing yields a non-empty string of digits with no leading zero. |
| `JsText.NatToStringRoundTrip` | index.js:178-179 | The printed digits read back as the same natural number. |
| `JsText.IntToStringRoundTrip` | index.js:165 | A printed integer, sign included, parses back to itself. |
| `JsText.IntToStringInjective` | index.js:165 | Two integers print the same iff they are equal. |
| `JsText.ToLower` | index.js:113 | `toLowerCase` keeps the length and maps each character independently. |
| `JsText.ToLowerConcat` | index.js:113 | Lower-casing distributes over concatenation. |
| `JsText.ToLowerIdempotent` | index.js:113 | The lower-cased text holds no capital letter, and lower-casing it again changes nothing. |
| `JsText.TruncDiv` | index.js:140 | `status / 100` before `| 0` is truncated toward zero: same sign as the input, and within one divisor of it. |
| `JsText.ToInt32` | index.js:140 | `| 0` gives a signed 32-bit value congruent to its input modulo 2^32. It is the identity inside that range. |
| `Colors.StatusBucketIsHundreds` | index.js:140 | For statuses from 0 up to 100·2^31 the bucket is `status / 100`. A status in (-100, 0] falls in bucket 0. |
| `Colors.ColorCodes` | index.js:21-29 | Buckets 0-5 and 7 have a colour: 0 and 4 yellow, 1 and 2 green, 3 cyan, 5 red, 7 magenta. No other bucket has one. |
| `Colors.ColorKeyAsWritten` | index.js:140-141 | The stored key is the number 0 exactly when the table lacks the bucket. Otherwise it is the table's colour. |
| `Colors.StatusStyleAsWrittenFails` | index.js:141-145 | As written, no style can be called exactly for buckets outside 0-5 and 7. |
| `Colors.StatusSixHundredHasNoStyle` | index.js:140-145 | Status 600 is one such input. |
| `Colors.StatusStyle` | index.js:140-145 | Corrected lookup: styled exactly for buckets in the table, with the table's colour. Otherwise unstyled. |
| `Colors.StatusStyleAgreesAsWritten` | index.js:140-145 | Wherever the as-written lookup yields a style, the corrected lookup yields the same one. |
| `Colors.StatusStyleExamples` | index.js:21-29 | 200 is green, 302 cyan, 404 yellow, 500 red, 700 magenta, -5 yellow. 600 is unstyled. |
| `Sinks.SelectSink` | index.js:155-157 | log4js is chosen exactly when options, `log4js`, its logger and a non-empty level are all present. The chosen sink carries that logger and level. |
| `Sinks.EmptyLevelFallsBackToConsole` | index.js:155-157 | A configured logger with an empty level falls back to the console. With level `debug` it is used. |
| `Sinks.EndMessageFields` | index.js:164-167 | With space-free fields, the end message splits on spaces back into method, URL, status, time and length. The status parses back as the number. |
| `Sinks.BeginMessage` | index.js:159-162 | The log4js begin message is the method, one space, then the URL. |
| `Sinks.EndMessage` | index.js:164-167 | The log4js end message starts with the same request's begin message and ends with a space and the length field. |
| `Sinks.EmitBegin` | index.js:42-46 | The begin notice goes to the selected sink. It is `METHOD URL` for log4js and the begin line for the console. |
| `Sinks.EmitEndAsWritten` | index.js:138-153 | As written, the end write fails exactly on the console sink with a status bucket outside the table. Every successful write goes to the selected sink. |
| `Sinks.EmitEndAsWrittenFailsAt600` | index.js:138-153 | On the console, status 600 makes the as-written end write fail. |
| `Sinks.EmitEnd` | index.js:138-167 | The corrected end write always reaches the selected sink. log4js gets the end message. The console line carries the record's method, URL, status, marker and marker colour, time and length, with the corrected status style. It agrees with the as-written write wherever that succeeds. |
| `Middleware.CounterDecision` | index.js:65-72 | A counter is installed exactly when the length is unknown and the body is a readable object. A known length, a falsy body or a non-readable body each prevent it. |
| `Middleware.EndLength` | index.js:88-90 | With a counter installed, the length is the counted total. Otherwise it is the original length hint. |
| `Middleware.RemoveListener` | index.js:85-86 | Removing one listener unregisters it and leaves the other unchanged. |
| `Middleware.Deliver` | index.js:78-86 | `done` runs exactly when the event's listener is still registered, and then leaves no listener. An unregistered event changes nothing. |
| `Middleware.Honored` | index.js:78-93 | The events that run `done`: at most one, none once both listeners are gone, and any honoured event had its listener registered. |
| `Middleware.DisarmedHonorsNothing` | index.js:84-86 | Once both listeners are removed, no later event logs anything. |
| `Middleware.HonoredAtMostOne` | index.js:78-93 | From any listener state, at most one event runs `done`. It is one of the delivered events, and its listener was registered. |
| `Middleware.ArmedHonorsFirst` | index.js:78-93 | With both listeners armed, the first event, `finish` or `close`, is the only one honoured. |
| `Middleware.EndRecord` | index.js:88-90 | The end record copies the context's method and URL and times `delta`. It has the `-x-` marker for `close` and `-->` for `finish`. It has the context status or 404, and the length field of the chosen length. |
| `Middleware.ErrorRecord` | index.js:51-57 | The error record copies method and URL and times `delta`. It has the `xxx` marker for an error object. Its status is the error's or 500. Its length field is `-`, or empty for 204/205/304. |
| `Middleware.Handle` | index.js:37-94 | With the corrected end write: one begin write, then one write per end record. Error path: one error record, the same error re-thrown, no counter. Normal path: zero records without events, else one record for the first event. The counter is installed iff the length is unknown and the body is a readable stream. |
| `Middleware.HandleAsWritten` | index.js:37-94 | With the as-written end write: the same writes and outcome as `Handle` whenever the end write succeeds. When it fails, only the begin write happens. On the error path the TypeError replaces the handler's error; on the normal path the middleware returns and the TypeError escapes from `done`. |
| `Middleware.ErrorAt600ReplacedAsWritten` | index.js:51-60 | A handler error with status 600 on the console sink: as written the middleware throws the TypeError instead; the corrected model re-throws the handler's error. |
| `Middleware.FinishAt600EscapesAsWritten` | index.js:84-93 | A response with status 600 on the console sink: as written the TypeError escapes from the `finish` listener. |
| `Middleware.HandleUsesOneSink` | index.js:42-90 | Every write of a request goes to the sink the options select. |
| `Middleware.AtMostOneEndRecord` | index.js:49-93 | A request never yields two end records. It yields one iff the handler threw or an event arrived. |
| `Middleware.ErrorPathRecord` | index.js:51-60 | With the corrected end write, a thrown error with a status is logged with `xxx`, that status (or 500), and an unknown length. It is re-thrown unchanged. |
| `Middleware.CloseBeforeFinish` | index.js:78-93 | `close` then `finish` gives one record with `-x-`, and two writes in all. |
| `Middleware.StreamedLengthIsCounted` | index.js:65-72 | A readable body with no length header reports the counted byte total. 204/205/304 still report an empty length. |
| `Middleware.HelloScenario` | index.js:37-94 | GET /hello, 200, 11 streamed bytes, console sink: two writes, `-->`, status 200, length `bytes(11)` lower-cased. |

## Left out

- Console output and `chalk` escape codes are not modelled. A console write is a record of the texts and colour names it shows.
- `bytes` and `humanize-number` are foreign formatting libraries. They are opaque function parameters (`Parts.Formatters`).
- `passthrough-counter`, `.pipe` and `.on('error', ctx.onerror)` are stream plumbing. The counter is modelled only as the total it reports when an event fires.
- `Date.now()` is not read. The elapsed time is an integer input of each settle or event.
- Koa's `ctx`, `next` and Node's event emitter are abstract. The emitter is a two-flag listener state, and `next` is an outcome, `Middleware.Settled`.
- example-log4js.js is a demo program (logger setup and server start) with no logic of its own.
- Calling `logger[level]` assumes the injected logger has a method of that name. A level naming no method would throw in JavaScript; this is not modelled.
- Mutation of the options object between the three emission points is not modelled. One `opts` value is used at each point.
- Statuses and lengths are integers, negative ones included: a negative `Content-Length` header reaches `bytes` unchanged. Non-numeric or fractional values and NaN are not modelled.
- JsText.IntToString: prints every digit. JavaScript switches to exponent notation from 10^21, which no realistic status or elapsed time reaches.
- Colors.StatusBucket: uses exact truncating division. The float division in `status / 100` can round differently only for magnitudes beyond about 2^40.
- Middleware.Handle: uses the corrected end write. As written, a status whose bucket has no colour, on the console sink, makes the end write throw. On the error path that TypeError replaces the handler's error, and on the normal path it escapes from `done`. `Middleware.HandleAsWritten` states that outcome.
- JsText.ToLower: lower-cases ASCII letters only. JavaScript's `toLowerCase` also maps non-ASCII capitals.

## Findings

| source | as written | input that shows it | evidently intended | confidence | as-written member | corrected member |
|---|---|---|---|---|---|---|
| index.js:141 | A bucket missing from `colorCodes` stores the number 0 as the colour. `chalk[0]('%s')` then calls `undefined` and throws a TypeError. The console end line is never printed, and the exception escapes from `done` or replaces the handler's error. | status 600 (bucket 6) with the console sink | print the status without colour, keeping the table's colours for buckets it has | not executed; high | `Sinks.EmitEndAsWritten` and `Middleware.HandleAsWritten` (witnesses `Sinks.EmitEndAsWrittenFailsAt600`, `Middleware.ErrorAt600ReplacedAsWritten`) | `Sinks.EmitEnd` (with `Colors.StatusStyle`, used by `Middleware.Handle`) |
