/** What every module shares: an optional value and the units of time.
  *
  * A moment is a count of nanoseconds, as Go's time.Time keeps it; a duration is a difference of moments.
  */
module Common {
  datatype Option<+T> = None | Some(value: T)

  /** Go strings are byte strings; where the bytes themselves matter a character stands for one byte. */
  type Byte = c: char | c as int < 256
  type Bytes = seq<Byte>

  const SECOND := 1_000_000_000
  const MINUTE := 60 * SECOND
  const DAY := 24 * 60 * MINUTE
}
