/** Millisecond differences between two instants, and the coarse units the
    relative-time labels are built from. */
module Clock {

  const MS_PER_MINUTE: int := 60000
  const MS_PER_HOUR: int := 3600000
  const MS_PER_DAY: int := 86400000

  /** `Math.floor(ms / unit)`. Dafny's `/` rounds towards negative infinity
      whenever the divisor is positive, which is what the floor asks for. */
  function FloorDiv(ms: int, unit: int): (q: int)
    requires unit > 0
    ensures q * unit <= ms < q * unit + unit
  {
    ms / unit
  }

  /** How long ago an instant was, bucketed. */
  datatype Elapsed =
    | JustNow
    | MinutesAgo(n: nat)
    | HoursAgo(n: nat)
    | Yesterday
    | DaysAgo(n: nat)
    | Older

  /** A displayed relative time: literal text, or the instant's date in a
      locale format that lies outside this model. */
  datatype Label = Text(text: string) | LocaleDate
}
