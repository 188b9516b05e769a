/** The few JavaScript runtime values the core depends on: a number that may be
    NaN, the errors it throws or rejects with, and `Math.round` as used by the
    metric conversions (`Math.round(x * 100) / 100`). Numbers are exact reals here;
    binary floating point is not modelled. */
module Js {

  /** A JavaScript number as the core produces it: a finite value, or NaN (the
      success rate of an empty batch is `0/0`). */
  datatype JsNumber = NaN | Num(value: real)

  /** The errors the core throws, rejects with or returns. */
  datatype JsError =
    | ReferenceError(name: string)          // an undeclared identifier was read
    | TypeError(message: string)            // a property of `undefined` was read
    | IntegrityError(rate: JsNumber)        // too few downloads succeeded
    | FfmpegError(output: string)           // the transcoder exited with an error
    | DownloadError(url: string)            // one segment could not be fetched

  /** `Math.round`: the nearest integer, halves rounded up (towards +infinity). */
  function MathRound(x: real): (r: int)
    ensures x - 0.5 < r as real <= x + 0.5
  {
    (x + 0.5).Floor
  }

  /** Independent characterisation of `MathRound`: it is the only integer in the
      half-open interval (x - 1/2, x + 1/2]. */
  lemma MathRoundUnique(x: real, h: int)
    requires x - 0.5 < h as real <= x + 0.5
    ensures h == MathRound(x)
  {
    var r := MathRound(x);
    assert r as real - h as real < 1.0 && h as real - r as real < 1.0;
  }

  /** A real that is a whole number of hundredths. */
  predicate IsHundredths(r: real) {
    (r * 100.0).Floor as real == r * 100.0
  }

  /** `Math.round(x * 100) / 100`: x rounded half-up to two decimals. */
  function RoundToHundredths(x: real): (r: real)
    ensures IsHundredths(r)
    ensures x - 0.005 < r <= x + 0.005
  {
    MathRound(x * 100.0) as real / 100.0
  }

  /** `RoundToHundredths(x)` is the only whole number of hundredths in
      (x - 0.005, x + 0.005]. */
  lemma RoundToHundredthsUnique(x: real, r: real)
    requires IsHundredths(r)
    requires x - 0.005 < r <= x + 0.005
    ensures r == RoundToHundredths(x)
  {
    var h := (r * 100.0).Floor;
    assert h as real == r * 100.0;
    MathRoundUnique(x * 100.0, h);
  }

  /** Whole milliseconds to seconds in hundredths, `Math.round((ms/1000) * 100) / 100`. */
  function SecondsFromMillis(ms: int): (s: real)
    ensures IsHundredths(s)
    ensures ms as real / 1000.0 - 0.005 < s <= ms as real / 1000.0 + 0.005
  {
    RoundToHundredths(ms as real / 1000.0)
  }

  /** Whole milliseconds to minutes in hundredths, `Math.round((ms/60000) * 100) / 100`. */
  function MinutesFromMillis(ms: int): (m: real)
    ensures IsHundredths(m)
    ensures ms as real / 60000.0 - 0.005 < m <= ms as real / 60000.0 + 0.005
  {
    RoundToHundredths(ms as real / 60000.0)
  }

  /** The seconds conversion done in integers: hundredths of a second are
      `(ms + 5) / 10` with floor division. */
  lemma SecondsFromMillisInIntegers(ms: int)
    ensures SecondsFromMillis(ms) == ((ms + 5) / 10) as real / 100.0
  {
    var q := (ms + 5) / 10;
    var rem := (ms + 5) % 10;
    assert ms + 5 == 10 * q + rem && 0 <= rem < 10;
    assert ms as real / 1000.0 * 100.0 == ms as real / 10.0;
    assert ms as real / 10.0 == q as real + (rem - 5) as real / 10.0;
    MathRoundUnique(ms as real / 1000.0 * 100.0, q);
  }

  /** The minutes conversion done in integers: hundredths of a minute are
      `(ms + 300) / 600` with floor division. */
  lemma MinutesFromMillisInIntegers(ms: int)
    ensures MinutesFromMillis(ms) == ((ms + 300) / 600) as real / 100.0
  {
    var q := (ms + 300) / 600;
    var rem := (ms + 300) % 600;
    assert ms + 300 == 600 * q + rem && 0 <= rem < 600;
    assert ms as real / 60000.0 * 100.0 == ms as real / 600.0;
    assert ms as real / 600.0 == q as real + (rem - 300) as real / 600.0;
    MathRoundUnique(ms as real / 60000.0 * 100.0, q);
  }
}
