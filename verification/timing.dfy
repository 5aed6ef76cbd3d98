/** The `time` helper of index.js: how an elapsed number of milliseconds is
    rendered in an end record.  The clock is not read here; the elapsed
    `delta` (now minus the start stamp) is an input. */
module Timing {
  import opened Wrappers
  import opened JsText

  /** Below ten seconds the record shows milliseconds, otherwise rounded
      seconds. */
  const MillisLimit: int := 10000

  datatype Elapsed = Millis(ms: int) | Seconds(s: nat)

  /** The unit and value `time` chooses: `Math.round(delta / 1000)` on a
      non-negative integer is the nearest integer, ties rounded up. */
  function Resolution(delta: int): (e: Elapsed)
    ensures e.Millis? <==> delta < MillisLimit
    ensures e.Millis? ==> e.ms == delta
    ensures e.Seconds? ==> 10 <= e.s && e.s * 1000 - 500 <= delta < e.s * 1000 + 500
  {
    if delta < MillisLimit then Millis(delta) else Seconds((delta + 500) / 1000)
  }

  function RenderElapsed(e: Elapsed): string
  {
    match e
    case Millis(ms) => IntToString(ms) + "ms"
    case Seconds(s) => NatToString(s) + "s"
  }

  /** The text `time` hands to the number humanizer. */
  function TimeText(delta: int): string
  {
    RenderElapsed(Resolution(delta))
  }

  /** The rendered elapsed time after the (opaque) humanizer. */
  function Time(delta: int, humanize: string -> string): (t: string)
    ensures delta < MillisLimit ==> t == humanize(IntToString(delta) + "ms")
    ensures MillisLimit <= delta ==> t == humanize(NatToString((delta + 500) / 1000) + "s")
  {
    humanize(TimeText(delta))
  }

  /** Reads a rendered elapsed time back: a decimal integer followed by the
      unit `ms`, or a non-negative one followed by `s`. */
  function ParseElapsed(t: string): Option<Elapsed>
  {
    if |t| >= 2 && t[|t| - 2..] == "ms" then
      match ParseInt(t[..|t| - 2])
      case Some(v) => Some(Millis(v))
      case None => None
    else if |t| >= 2 && t[|t| - 1] == 's' && AllDigits(t[..|t| - 1]) then
      Some(Seconds(DigitsValue(t[..|t| - 1])))
    else None
  }

  lemma RenderElapsedRoundTrip(e: Elapsed)
    ensures ParseElapsed(RenderElapsed(e)) == Some(e)
  {
    var t := RenderElapsed(e);
    match e
    case Millis(ms) =>
      assert t[|t| - 2..] == "ms";
      assert t[..|t| - 2] == IntToString(ms);
      IntToStringRoundTrip(ms);
    case Seconds(s) =>
      var digits := NatToString(s);
      assert t[..|t| - 1] == digits;
      assert t[|t| - 2] == digits[|digits| - 1];
      assert t[|t| - 2..] != "ms" by {
        assert IsDigit(t[|t| - 2]);
      }
      NatToStringRoundTrip(s);
  }

  /** The time text determines the elapsed value it was made from:
      milliseconds exactly below the limit, the rounded seconds above it. */
  lemma TimeTextRoundTrip(delta: int)
    ensures ParseElapsed(TimeText(delta)) == Some(Resolution(delta))
    ensures ParseElapsed(TimeText(delta)).value.Millis? <==> delta < MillisLimit
  {
    RenderElapsedRoundTrip(Resolution(delta));
  }

  /** The cases around the ten-second limit. */
  lemma TimeTextExamples()
    ensures TimeText(9999) == "9999ms"
    ensures TimeText(10000) == "10s"
    ensures TimeText(10499) == "10s"
    ensures TimeText(10500) == "11s"
    ensures TimeText(-3) == "-3ms"
  {
  }
}
