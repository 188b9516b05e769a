/** The pure helpers of utilities/utilities.js: numeric ordering of digit
    strings, the largest of them, the `YYYY-MM-DD` date text and the short random
    identifier used in temporary file names. Calls to `Math.random()` are
    replaced by the sequence of values they returned. */
module Utilities {
  import opened Wrappers
  import opened Js
  import opened Decimal

  /* ---------------------------------------------------------------------
   *  Digit strings as numbers
   * --------------------------------------------------------------------- */

  predicate AllDigitStrings(ss: seq<string>) {
    forall i :: 0 <= i < |ss| ==> IsDigitString(ss[i])
  }

  /** The numbers `Number(s)` reads from each string, in order. */
  function Values(ss: seq<string>): seq<nat>
    requires AllDigitStrings(ss)
  {
    seq(|ss|, i requires 0 <= i < |ss| => DigitsValue(ss[i]))
  }

  predicate Ascending(s: seq<nat>) {
    forall p, q :: 0 <= p < q < |s| ==> s[p] <= s[q]
  }

  /** The first loop of both helpers: `numArray.push(Number(stringNum))` for each
      string, in order. */
  method ToNumArray(stringNumbers: seq<string>) returns (numArray: array<nat>)
    requires AllDigitStrings(stringNumbers)
    ensures fresh(numArray)
    ensures numArray[..] == Values(stringNumbers)
  {
    numArray := new nat[|stringNumbers|];
    for i := 0 to |stringNumbers|
      invariant forall k :: 0 <= k < i ==> numArray[k] == DigitsValue(stringNumbers[k])
    {
      numArray[i] := DigitsValue(stringNumbers[i]);
    }
  }

  /** `numArray.sort((a, b) => a - b)`: an in-place ascending sort (insertion
      sort; the engine's own algorithm is not modelled, only its result). */
  method SortNumbers(a: array<nat>)
    modifies a
    ensures Ascending(a[..])
    ensures multiset(a[..]) == multiset(old(a[..]))
  {
    var i := 0;
    while i < a.Length
      invariant 0 <= i <= a.Length
      invariant forall p, q :: 0 <= p < q < i ==> a[p] <= a[q]
      invariant multiset(a[..]) == multiset(old(a[..]))
    {
      var j := i;
      while j > 0 && a[j - 1] > a[j]
        invariant 0 <= j <= i
        invariant forall p, q :: 0 <= p < q <= i && p != j && q != j ==> a[p] <= a[q]
        invariant forall q :: j < q <= i ==> a[j] < a[q]
        invariant multiset(a[..]) == multiset(old(a[..]))
      {
        a[j - 1], a[j] := a[j], a[j - 1];
        j := j - 1;
      }
      i := i + 1;
    }
  }

  /** `sortArrOfStringNumbers`: the same numbers in ascending order, each written
      back as canonical decimal text, e.g. 8 1 10 7 2 3 becomes 1 2 3 7 8 10. */
  method SortArrOfStringNumbers(stringNumbers: seq<string>) returns (ordered: seq<string>)
    requires AllDigitStrings(stringNumbers)
    ensures |ordered| == |stringNumbers|
    ensures forall i :: 0 <= i < |ordered| ==> IsCanonical(ordered[i])
    ensures AllDigitStrings(ordered) && Ascending(Values(ordered))
    ensures multiset(Values(ordered)) == multiset(Values(stringNumbers))
  {
    var numArray := ToNumArray(stringNumbers);
    SortNumbers(numArray);
    ordered := [];
    for j := 0 to numArray.Length
      invariant |ordered| == j
      invariant forall k :: 0 <= k < j ==> ordered[k] == NatToString(numArray[k])
    {
      ordered := ordered + [NatToString(numArray[j])];
    }
    forall k | 0 <= k < |ordered|
      ensures DigitsValue(ordered[k]) == numArray[k]
    {
      NatToStringRoundTrip(numArray[k]);
    }
    assert Values(ordered) == numArray[..];
  }

  /** `maxValueOfStringNumbers`: the largest number of a non-empty list as
      canonical decimal text; on an empty list `undefined.toString()` throws. */
  method MaxValueOfStringNumbers(stringNumbers: seq<string>) returns (r: Result<string, JsError>)
    requires AllDigitStrings(stringNumbers)
    ensures r.Failure? <==> |stringNumbers| == 0
    ensures r.Failure? ==> r.error.TypeError?
    ensures r.Success? ==> IsCanonical(r.value) && DigitsValue(r.value) in Values(stringNumbers)
    ensures r.Success? ==> forall i :: 0 <= i < |stringNumbers| ==> DigitsValue(stringNumbers[i]) <= DigitsValue(r.value)
  {
    var numArray := ToNumArray(stringNumbers);
    SortNumbers(numArray);
    if numArray.Length == 0 {
      r := Failure(TypeError("Cannot read properties of undefined (reading 'toString')"));
    } else {
      var lastValue := numArray[numArray.Length - 1];
      NatToStringRoundTrip(lastValue);
      assert lastValue in multiset(numArray[..]);
      forall i | 0 <= i < |stringNumbers|
        ensures DigitsValue(stringNumbers[i]) <= lastValue
      {
        assert Values(stringNumbers)[i] in multiset(numArray[..]);
        var k :| 0 <= k < numArray.Length && numArray[k] == Values(stringNumbers)[i];
      }
      r := Success(NatToString(lastValue));
    }
  }

  /* ---------------------------------------------------------------------
   *  Dates
   * --------------------------------------------------------------------- */

  /** `getMonth()`, counted from 0 for January. */
  type MonthIndex = m: int | 0 <= m <= 11

  /** `getDate()`, the day of the month. */
  type DayOfMonth = d: int | 1 <= d <= 31 witness 1

  /** The calendar fields of a `Date` object that the helper reads. */
  datatype CalendarDate = CalendarDate(fullYear: int, monthIndex: MonthIndex, dayOfMonth: DayOfMonth)

  const UndefinedDate := "undefined_date"

  /** `dateStringFromDate`: `YYYY-MM-DD` for a `Date` (None stands for any value
      that is not a `Date`, which yields `'undefined_date'`). The month and the
      day are always exactly two digits and read back as the date's month
      (counted from 1) and day. */
  function DateStringFromDate(date: Option<CalendarDate>): (r: string)
    ensures date.None? <==> r == UndefinedDate
    ensures date.Some? ==>
      var y := IntToString(date.value.fullYear);
      && |r| == |y| + 6
      && r[..|y|] == y && r[|y|] == '-' && r[|y| + 3] == '-'
      && IsDigitString(r[|y| + 1..|y| + 3]) && DigitsValue(r[|y| + 1..|y| + 3]) == date.value.monthIndex + 1
      && IsDigitString(r[|y| + 4..]) && DigitsValue(r[|y| + 4..]) == date.value.dayOfMonth
  {
    match date
    case None => UndefinedDate
    case Some(d) =>
      var year := IntToString(d.fullYear);
      var month := Pad2(d.monthIndex + 1);
      var day := Pad2(d.dayOfMonth);
      DashedFields(year, month, day);
      year + "-" + month + "-" + day
  }

  /** Where the fields sit in `y-mm-dd`, and why it can never be the text
      returned for a non-date. */
  lemma DashedFields(y: string, m: string, d: string)
    requires |m| == 2 && |d| == 2
    ensures var r := y + "-" + m + "-" + d;
            && |r| == |y| + 6
            && r[..|y|] == y && r[|y|] == '-' && r[|y| + 3] == '-'
            && r[|y| + 1..|y| + 3] == m && r[|y| + 4..] == d
            && r != UndefinedDate
  {
    var r := y + "-" + m + "-" + d;
    assert r[..|y|] == y;
    assert r[|y| + 1..|y| + 3] == m;
    assert r[|y| + 4..] == d;
    if |r| == |UndefinedDate| {
      assert UndefinedDate[8] == 'd';
      assert r[8] == '-';
    }
  }

  /* ---------------------------------------------------------------------
   *  Random identifiers
   * --------------------------------------------------------------------- */

  const UidAlphabet := "ABCDEFGHIJKLMNOPQRSTUVWXYZabcdefghijklmnopqrstuvwxyz0123456789"
  const UidLength := 5

  /** What `Math.random()` may return. */
  predicate IsRandomDraw(x: real) {
    0.0 <= x < 1.0
  }

  predicate AreRandomDraws(draws: seq<real>) {
    forall i :: 0 <= i < |draws| ==> IsRandomDraw(draws[i])
  }

  /** `Math.floor(Math.random() * possible.length)`: a position in the alphabet. */
  function AlphabetIndex(x: real): (k: nat)
    requires IsRandomDraw(x)
    ensures k < |UidAlphabet|
  {
    (x * 62.0).Floor
  }

  /** A well-formed identifier: five characters of the 62-character alphabet. */
  predicate IsUid(uid: string) {
    |uid| == UidLength && forall i :: 0 <= i < |uid| ==> uid[i] in UidAlphabet
  }

  /** The identifier the successive draws select. */
  function UidFromDraws(draws: seq<real>): string
    requires |draws| >= UidLength && AreRandomDraws(draws)
  {
    seq(UidLength, i requires 0 <= i < UidLength => UidAlphabet[AlphabetIndex(draws[i])])
  }

  /** `createUID`: five characters, each picked from the alphabet by one draw. */
  method CreateUID(draws: seq<real>) returns (text: string)
    requires |draws| >= UidLength && AreRandomDraws(draws)
    ensures IsUid(text)
    ensures text == UidFromDraws(draws)
  {
    text := "";
    var possible := UidAlphabet;
    for i := 0 to UidLength
      invariant |text| == i
      invariant forall k :: 0 <= k < i ==> text[k] == possible[AlphabetIndex(draws[k])]
    {
      text := text + [possible[AlphabetIndex(draws[i])]];
    }
  }

  /** The position of a character in the alphabet. */
  ghost function IndexInAlphabet(c: char): (k: nat)
    requires c in UidAlphabet
    ensures k < |UidAlphabet| && UidAlphabet[k] == c
  {
    var k :| 0 <= k < |UidAlphabet| && UidAlphabet[k] == c; k
  }

  /** Replacing `Math.random` by a sequence of draws loses nothing: every
      well-formed identifier is produced by some draws. */
  lemma EveryUidIsDrawable(uid: string)
    requires IsUid(uid)
    ensures var draws := seq(UidLength, i requires 0 <= i < UidLength => IndexInAlphabet(uid[i]) as real / 62.0);
            AreRandomDraws(draws) && UidFromDraws(draws) == uid
  {
    var draws := seq(UidLength, i requires 0 <= i < UidLength => IndexInAlphabet(uid[i]) as real / 62.0);
    forall i | 0 <= i < UidLength
      ensures IsRandomDraw(draws[i]) && AlphabetIndex(draws[i]) == IndexInAlphabet(uid[i])
    {
      var k := IndexInAlphabet(uid[i]);
      assert draws[i] * 62.0 == k as real;
    }
  }
}
