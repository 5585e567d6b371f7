/** Values shared by every part of the query node model: optional values,
    results, the errors the handlers create or pass on, the status carried in
    responses, and Go's int64 with its silent wrap-around. */
module Common {

  datatype Option<+T> = None | Some(value: T)

  datatype Result<+T> = Ok(value: T) | Err(error: Error)

  /** Why a strconv number conversion failed. */
  datatype NumErrorKind = ErrSyntax | ErrRange

  /** strconv.NumError: the function that failed, the text it was given, why. */
  datatype NumError = NumError(func: string, num: string, err: NumErrorKind)

  /** The errors of the dispatch layer (the merr wrappers, fmt.Errorf and
      strconv), plus an opaque error coming back from a collaborator. */
  datatype Error =
    | ServiceNotReady
    | ChannelNotFound(channel: string, detail: string)
    | CollectionNotFound(collectionId: int)
    | ParameterInvalid(expected: string, actual: string, detail: string)
    | ServiceUnavailable(reason: string, detail: string)
    | UnknownStatisticField(key: string)
    | ParseFailure(numError: NumError)
    | Foreign(message: string)

  /** commonpb.Status as built by merr.Success() and merr.Status(err). */
  datatype Status = Success | Failure(error: Error)

  const MinInt64: int := -0x8000_0000_0000_0000
  const MaxInt64: int := 0x7fff_ffff_ffff_ffff
  const TwoTo64: int := 0x1_0000_0000_0000_0000

  type Int64 = x: int | MinInt64 <= x <= MaxInt64

  /** The int64 that Go's two's-complement arithmetic yields for the exact
      value x: x shifted by multiples of 2^64 into [MinInt64, MaxInt64]. */
  function Wrap64(x: int): Int64
    decreases if x < MinInt64 then MinInt64 - x else if x > MaxInt64 then x - MaxInt64 else 0
  {
    if x < MinInt64 then Wrap64(x + TwoTo64)
    else if x > MaxInt64 then Wrap64(x - TwoTo64)
    else x
  }

  /** Shifting by 2^64 does not change the wrapped value. */
  lemma Wrap64Period(x: int)
    ensures Wrap64(x + TwoTo64) == Wrap64(x)
  {
  }

  /** Shifting by any multiple of 2^64 does not change the wrapped value. */
  lemma {:induction false} Wrap64Shift(x: int, q: int)
    ensures Wrap64(x + q * TwoTo64) == Wrap64(x)
    decreases if q < 0 then -q else q
  {
    if q > 0 {
      Wrap64Shift(x, q - 1);
      Wrap64Period(x + (q - 1) * TwoTo64);
    } else if q < 0 {
      Wrap64Shift(x, q + 1);
      Wrap64Period(x + q * TwoTo64);
    }
  }

  /** The wrapped value differs from x by a multiple of 2^64, and is x itself
      whenever x fits in an int64. */
  lemma {:induction false} Wrap64Congruent(x: int)
    ensures (x - Wrap64(x)) % TwoTo64 == 0
    ensures MinInt64 <= x <= MaxInt64 ==> Wrap64(x) == x
    decreases if x < MinInt64 then MinInt64 - x else if x > MaxInt64 then x - MaxInt64 else 0
  {
    if x < MinInt64 {
      Wrap64Congruent(x + TwoTo64);
      ShiftMod(x - Wrap64(x), -1);
    } else if x > MaxInt64 {
      Wrap64Congruent(x - TwoTo64);
      ShiftMod(x - Wrap64(x), 1);
    }
  }

  /** Wrapping after every addition is the same as wrapping the exact sum
      once, so a running int64 total equals the exact total modulo 2^64. */
  lemma WrapAdd(a: int, b: int)
    ensures Wrap64(Wrap64(a) + b) == Wrap64(a + b)
  {
    Wrap64Congruent(a);
    var q := (a - Wrap64(a)) / TwoTo64;
    assert Wrap64(a) + b == (a + b) + (-q) * TwoTo64;
    Wrap64Shift(a + b, -q);
  }

  lemma ShiftMod(x: int, q: int)
    ensures (x - q * TwoTo64) % TwoTo64 == x % TwoTo64
  {
    var r := x % TwoTo64;
    var d := x / TwoTo64;
    assert x == d * TwoTo64 + r;
    assert x - q * TwoTo64 == (d - q) * TwoTo64 + r;
  }
}
