/**
 * The capture timestamp carried in a recording's file name: the first
 * `_YYMMDD-HHMMSS` substring, read as a naive date and time to the second.
 */
module Timestamps {
  import opened Wrappers
  import opened Seqs

  /** A naive calendar date and time of day, to the second. */
  datatype DateTime = DateTime(year: int, month: int, day: int, hour: int, minute: int, second: int)

  /** Why a file name yields no timestamp: no `_YYMMDD-HHMMSS` in it, or one that names no real date. */
  datatype ParseError = NoTimestamp | InvalidDate

  /** Length of `_YYMMDD-HHMMSS`. */
  const StampLength: nat := 14

  predicate IsDigit(c: char)
  {
    '0' <= c <= '9'
  }

  predicate DigitPairAt(s: string, i: nat)
  {
    i + 2 <= |s| && IsDigit(s[i]) && IsDigit(s[i + 1])
  }

  /** The two-digit decimal number at `s[i..i+2]`. */
  function DigitPairValue(s: string, i: nat): (v: int)
    requires DigitPairAt(s, i)
    ensures 0 <= v <= 99
  {
    10 * (s[i] as int - '0' as int) + (s[i + 1] as int - '0' as int)
  }

  /** `s[i..i+14]` is `_`, six digits, `-`, six digits. */
  predicate StampAt(s: string, i: nat)
  {
    i + StampLength <= |s| && s[i] == '_' &&
    DigitPairAt(s, i + 1) && DigitPairAt(s, i + 3) && DigitPairAt(s, i + 5) &&
    s[i + 7] == '-' &&
    DigitPairAt(s, i + 8) && DigitPairAt(s, i + 10) && DigitPairAt(s, i + 12)
  }

  /** `i` is where a left-to-right search first finds a stamp. */
  predicate FirstStampAt(s: string, i: nat)
  {
    StampAt(s, i) && forall j: nat :: j < i ==> !StampAt(s, j)
  }

  /** The six fields of the stamp at `i`; the two-digit year counts from 2000. */
  function StampFields(s: string, i: nat): (t: DateTime)
    requires StampAt(s, i)
    ensures InStampRange(t)
  {
    DateTime(2000 + DigitPairValue(s, i + 1), DigitPairValue(s, i + 3), DigitPairValue(s, i + 5),
             DigitPairValue(s, i + 8), DigitPairValue(s, i + 10), DigitPairValue(s, i + 12))
  }

  /** The values a stamp can spell: a year in 2000..2099 and two digits for every other field. */
  predicate InStampRange(t: DateTime)
  {
    2000 <= t.year <= 2099 && 0 <= t.month <= 99 && 0 <= t.day <= 99 &&
    0 <= t.hour <= 99 && 0 <= t.minute <= 99 && 0 <= t.second <= 99
  }

  /** Leftmost stamp at or after `from`, as a regular-expression search finds it. */
  function FindStamp(s: string, from: nat): (r: Option<nat>)
    decreases |s| - from
    ensures r.Some? ==> from <= r.value && StampAt(s, r.value) &&
                        forall j: nat :: from <= j < r.value ==> !StampAt(s, j)
    ensures r.None? ==> forall j: nat :: from <= j ==> !StampAt(s, j)
  {
    if from + StampLength > |s| then None
    else if StampAt(s, from) then Some(from)
    else FindStamp(s, from + 1)
  }

  predicate IsLeapYear(year: int)
  {
    year % 4 == 0 && (year % 100 != 0 || year % 400 == 0)
  }

  function DaysInMonth(year: int, month: int): (n: int)
    requires 1 <= month <= 12
    ensures 28 <= n <= 31
    ensures n == 29 <==> month == 2 && IsLeapYear(year)
  {
    if month == 2 then (if IsLeapYear(year) then 29 else 28)
    else if month == 4 || month == 6 || month == 9 || month == 11 then 30
    else 31
  }

  /** The fields name a real moment of the proleptic Gregorian calendar (years 1..9999). */
  predicate IsValid(t: DateTime)
  {
    1 <= t.year <= 9999 && 1 <= t.month <= 12 && 1 <= t.day <= DaysInMonth(t.year, t.month) &&
    0 <= t.hour <= 23 && 0 <= t.minute <= 59 && 0 <= t.second <= 59
  }

  /**
   * The timestamp of a file name: the fields of its first stamp, or NoTimestamp when it
   * has none, or InvalidDate when those fields name no real date and time.
   */
  function ParseFilenameTimestamp(filename: string): (r: Result<DateTime, ParseError>)
    ensures r == Failure(NoTimestamp) <==> forall i: nat :: !StampAt(filename, i)
    ensures forall i: nat :: FirstStampAt(filename, i) ==>
              if IsValid(StampFields(filename, i)) then r == Success(StampFields(filename, i))
              else r == Failure(InvalidDate)
    ensures r.Success? ==> IsValid(r.value) && InStampRange(r.value)
  {
    match FindStamp(filename, 0)
    case None => Failure(NoTimestamp)
    case Some(i) =>
      var t := StampFields(filename, i);
      if IsValid(t) then Success(t) else Failure(InvalidDate)
  }

  /** Chronological order of naive date-times: the first field that differs decides. */
  predicate Before(a: DateTime, b: DateTime)
  {
    a.year < b.year || (a.year == b.year &&
    (a.month < b.month || (a.month == b.month &&
    (a.day < b.day || (a.day == b.day &&
    (a.hour < b.hour || (a.hour == b.hour &&
    (a.minute < b.minute || (a.minute == b.minute && a.second < b.second)))))))))
  }

  predicate NotAfter(a: DateTime, b: DateTime)
  {
    !Before(b, a)
  }

  /** Before is a strict total order: irreflexive, transitive, and any two distinct values compare. */
  lemma BeforeIsStrictTotalOrder(a: DateTime, b: DateTime, c: DateTime)
    ensures !Before(a, a)
    ensures Before(a, b) && Before(b, c) ==> Before(a, c)
    ensures a != b ==> Before(a, b) || Before(b, a)
    ensures NotAfter(a, b) && NotAfter(b, c) ==> NotAfter(a, c)
  {
  }

  // ---- The stamp text of a date-time, the partner of the parser ----

  function DigitChar(d: int): (c: char)
    requires 0 <= d <= 9
    ensures IsDigit(c) && c as int - '0' as int == d
  {
    ('0' as int + d) as char
  }

  function TwoDigits(n: int): (s: string)
    requires 0 <= n <= 99
    ensures |s| == 2 && DigitPairAt(s, 0) && DigitPairValue(s, 0) == n
  {
    [DigitChar(n / 10), DigitChar(n % 10)]
  }

  /** `_YYMMDD-HHMMSS` for a date-time whose fields a stamp can spell. */
  function FormatStamp(t: DateTime): (s: string)
    requires InStampRange(t)
    ensures |s| == StampLength
  {
    "_" + TwoDigits(t.year - 2000) + TwoDigits(t.month) + TwoDigits(t.day) + "-" +
    TwoDigits(t.hour) + TwoDigits(t.minute) + TwoDigits(t.second)
  }

  /** The formatted stamp is a stamp, and reading its fields gives back the date-time. */
  lemma FormatStampReadsBack(t: DateTime)
    requires InStampRange(t)
    ensures StampAt(FormatStamp(t), 0) && StampFields(FormatStamp(t), 0) == t
  {
    var s := FormatStamp(t);
    var parts := [TwoDigits(t.year - 2000), TwoDigits(t.month), TwoDigits(t.day),
                  TwoDigits(t.hour), TwoDigits(t.minute), TwoDigits(t.second)];
    assert s[1..3] == parts[0] && s[3..5] == parts[1] && s[5..7] == parts[2];
    assert s[8..10] == parts[3] && s[10..12] == parts[4] && s[12..14] == parts[5];
  }

  /** Two digits read as a number and written again are the same two characters. */
  lemma PairFormatsBack(s: string, k: nat)
    requires DigitPairAt(s, k)
    ensures TwoDigits(DigitPairValue(s, k)) == s[k..k + 2]
  {
    var v := DigitPairValue(s, k);
    var hi, lo := s[k] as int - '0' as int, s[k + 1] as int - '0' as int;
    assert v / 10 == hi && v % 10 == lo;
  }

  /** Reading the stamp at `i` and formatting the fields again reproduces the stamp's text. */
  lemma StampFieldsFormatBack(s: string, i: nat)
    requires StampAt(s, i)
    ensures FormatStamp(StampFields(s, i)) == s[i..i + StampLength]
  {
    PairFormatsBack(s, i + 1);
    PairFormatsBack(s, i + 3);
    PairFormatsBack(s, i + 5);
    PairFormatsBack(s, i + 8);
    PairFormatsBack(s, i + 10);
    PairFormatsBack(s, i + 12);
    assert s[i..i + 1] == "_" && s[i + 7..i + 8] == "-";
    SplitSlice(s, i, i + 1, i + 3);
    SplitSlice(s, i, i + 3, i + 5);
    SplitSlice(s, i, i + 5, i + 7);
    SplitSlice(s, i, i + 7, i + 8);
    SplitSlice(s, i, i + 8, i + 10);
    SplitSlice(s, i, i + 10, i + 12);
    SplitSlice(s, i, i + 12, i + 14);
  }

  /** Whether a stamp starts at `i` depends only on the fourteen characters from `i`. */
  lemma StampAtDependsOnWindow(s: string, u: string, i: nat)
    requires i + StampLength <= |s| <= |u| && s == u[..|s|]
    ensures StampAt(u, i) == StampAt(s, i)
  {
    assert forall k :: i <= k < i + StampLength ==> u[k] == s[k];
  }

  /**
   * A file name built as `prefix + FormatStamp(t) + suffix`, where no stamp starts inside
   * the prefix, parses back to `t` whenever `t` is a valid date-time.
   */
  lemma ParseFormattedFilename(prefix: string, t: DateTime, suffix: string)
    requires InStampRange(t) && IsValid(t)
    requires forall j :: 0 <= j < |prefix| ==> !StampAt(prefix + FormatStamp(t), j)
    ensures ParseFilenameTimestamp(prefix + FormatStamp(t) + suffix) == Success(t)
  {
    var stamp := FormatStamp(t);
    var head := prefix + stamp;
    var name := head + suffix;
    FormatStampReadsBack(t);
    assert name[|prefix|..|prefix| + StampLength] == stamp;
    assert StampAt(name, |prefix|) && StampFields(name, |prefix|) == StampFields(stamp, 0);
    assert name[..|head|] == head;
    forall j: nat | j < |prefix|
      ensures !StampAt(name, j)
    {
      StampAtDependsOnWindow(head, name, j);
    }
    assert FirstStampAt(name, |prefix|);
  }

  /** For example, a dash-cam name with `_` in its prefix reads as its stamp's date. */
  lemma DashcamNameParses()
    ensures ParseFilenameTimestamp("cam_front_240229-235959.ts") == Success(DateTime(2024, 2, 29, 23, 59, 59))
  {
    var t := DateTime(2024, 2, 29, 23, 59, 59);
    assert FormatStamp(t) == "_240229-235959";
    assert "cam_front_240229-235959.ts" == "cam_front" + FormatStamp(t) + ".ts";
    forall j | 0 <= j < 9
      ensures !StampAt("cam_front" + FormatStamp(t), j)
    {
      var s := "cam_front" + FormatStamp(t);
      assert s[3] == '_' && s[4] == 'f';
    }
    ParseFormattedFilename("cam_front", t, ".ts");
  }
}
