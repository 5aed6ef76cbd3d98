/** The `colorCodes` table of index.js and the colour the console end line
    gives the status.  Only the colour names are modelled, not the terminal
    escape codes the styling library writes. */
module Colors {
  import opened Wrappers
  import opened JsText

  datatype Color = Magenta | Red | Yellow | Cyan | Green | Gray

  /** The buckets the table has an entry for. */
  const ColoredBuckets: set<int> := {0, 1, 2, 3, 4, 5, 7}

  /** `colorCodes.hasOwnProperty(bucket) ? colorCodes[bucket] : ...`: the
      table has entries for buckets 0 to 5 and 7. */
  function ColorCodes(bucket: int): (c: Option<Color>)
    ensures c.Some? <==> bucket in ColoredBuckets
    ensures bucket == 0 || bucket == 4 <==> c == Some(Yellow)
    ensures bucket == 1 || bucket == 2 <==> c == Some(Green)
    ensures bucket == 3 <==> c == Some(Cyan)
    ensures bucket == 5 <==> c == Some(Red)
    ensures bucket == 7 <==> c == Some(Magenta)
  {
    if bucket == 7 then Some(Magenta)
    else if bucket == 5 then Some(Red)
    else if bucket == 4 then Some(Yellow)
    else if bucket == 3 then Some(Cyan)
    else if bucket == 2 || bucket == 1 then Some(Green)
    else if bucket == 0 then Some(Yellow)
    else None
  }

  /** `status / 100 | 0`: the quotient truncated toward zero, then reduced to
      a signed 32-bit integer. */
  function StatusBucket(status: int): int
  {
    ToInt32(TruncDiv(status, 100))
  }

  /** For every status an HTTP response can carry, and far beyond, the bucket
      is the hundreds digit group; a small negative status falls in bucket 0. */
  lemma StatusBucketIsHundreds(status: int)
    ensures 0 <= status < 100 * TwoTo31 ==> StatusBucket(status) == status / 100
    ensures -100 < status <= 0 ==> StatusBucket(status) == 0
  {
  }

  /** What index.js stores in `color`: a colour name from the table, or the
      number 0 for every bucket the table lacks. */
  datatype ColorKey = Named(color: Color) | Zero

  function ColorKeyAsWritten(status: int): (key: ColorKey)
    ensures key.Zero? <==> ColorCodes(StatusBucket(status)).None?
    ensures key.Named? ==> Some(key.color) == ColorCodes(StatusBucket(status))
  {
    match ColorCodes(StatusBucket(status))
    case Some(c) => Named(c)
    case None => Zero
  }

  /** How the status text is styled on the console. */
  datatype Style = Styled(color: Color) | Unstyled

  /** `chalk[color]`: the styling library has a style for every colour name
      and nothing under the key 0, so calling it there is a TypeError. */
  function ChalkStyle(key: ColorKey): Option<Style>
  {
    match key
    case Named(c) => Some(Styled(c))
    case Zero => None
  }

  /** As written, the console end line has no style to call, and so throws,
      exactly for the statuses whose bucket the table lacks. */
  lemma StatusStyleAsWrittenFails(status: int)
    ensures ChalkStyle(ColorKeyAsWritten(status)).None? <==> StatusBucket(status) !in ColoredBuckets
  {
  }

  /** The smallest witness: status 600 (bucket 6), which the HTTP server
      accepts, has no style. */
  lemma StatusSixHundredHasNoStyle()
    ensures ChalkStyle(ColorKeyAsWritten(600)).None?
  {
  }

  /** The corrected lookup: a status outside the table is printed without a
      colour instead of failing. */
  function StatusStyle(status: int): (style: Style)
    ensures style.Styled? <==> StatusBucket(status) in ColoredBuckets
    ensures style.Styled? ==> ColorCodes(StatusBucket(status)) == Some(style.color)
  {
    match ColorCodes(StatusBucket(status))
    case Some(c) => Styled(c)
    case None => Unstyled
  }

  /** Wherever the lookup as written succeeds, the corrected one picks the
      same style. */
  lemma StatusStyleAgreesAsWritten(status: int)
    ensures ChalkStyle(ColorKeyAsWritten(status)).Some? ==>
              ChalkStyle(ColorKeyAsWritten(status)) == Some(StatusStyle(status))
  {
  }

  /** Colours of common HTTP statuses. */
  lemma StatusStyleExamples()
    ensures StatusStyle(200) == Styled(Green)
    ensures StatusStyle(302) == Styled(Cyan)
    ensures StatusStyle(404) == Styled(Yellow)
    ensures StatusStyle(500) == Styled(Red)
    ensures StatusStyle(700) == Styled(Magenta)
    ensures StatusStyle(600) == Unstyled
    ensures StatusStyle(-5) == Styled(Yellow)
  {
  }
}
