/**
 * The few Go built-in and standard-library value types the core relies on,
 * with the widths and rounding rules of a 64-bit Go platform written out.
 */
module GoTypes {

  /** Bounds of Go's `int` and `int64` on a 64-bit platform. */
  const MIN_INT: int := -0x8000_0000_0000_0000
  const MAX_INT: int := 0x7FFF_FFFF_FFFF_FFFF

  type Int64 = i: int | MIN_INT <= i <= MAX_INT

  type Byte = b: int | 0 <= b < 256

  /** A Go `[]byte`: the nil slice is distinct from an empty, non-nil slice. */
  datatype ByteSlice = Nil | Slice(elems: seq<Byte>)

  /** `time.Duration`: a signed 64-bit count of nanoseconds. */
  type Duration = Int64

  const Second: Duration := 1_000_000_000
  const Minute: Duration := 60 * Second

  /**
   * A `time.Time` as an instant: nanoseconds since January 1, year 1,
   * 00:00:00 UTC, which is the instant of Go's zero `time.Time`.
   */
  datatype Time = Time(nanos: int)

  const ZeroTime: Time := Time(0)

  /** Seconds from the zero time to the Unix epoch (January 1, 1970 UTC). */
  const UnixToInternal: int := 62_135_596_800

  /** `t.Add(d)`. */
  function Add(t: Time, d: Duration): Time
  {
    Time(t.nanos + d)
  }

  /** `t.Unix()`: the whole seconds since the Unix epoch, rounded toward negative infinity. */
  function Unix(t: Time): (s: int)
    ensures s * Second <= t.nanos - UnixToInternal * Second < s * Second + Second
  {
    t.nanos / Second - UnixToInternal
  }

  /**
   * `int(d / time.Second)`: the whole seconds of a duration. Go's integer
   * division truncates toward zero, where Dafny's `/` is Euclidean.
   */
  function WholeSeconds(d: Duration): (n: int)
    ensures 0 <= d ==> 0 <= n * Second <= d < n * Second + Second
    ensures d < 0 ==> n * Second - Second < d <= n * Second <= 0
  {
    if d >= 0 then d / Second else -((-(d as int)) / Second)
  }
}
