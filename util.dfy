/**
 * The day-count date codec and the raw C-string copy of src/util.rs.
 *
 * A host date is a day count since 1899-12-30T00:00:00Z; a Unix time is an
 * integer count of milliseconds or seconds since 1970-01-01T00:00:00Z. The
 * `f64` day count is modelled as an exact `real`.
 */
module Util {
  import opened Wrappers
  import opened Types

  /** "Sat, 30 Dec 1899 00:00:00 GMT" as Unix seconds. */
  const StartDateSeconds: int := -2209161600

  const SecondsInADay: int := 24 * 60 * 60

  /** Days since 1970-01-01 of a proleptic Gregorian calendar date. */
  function DaysFromCivil(year: int, month: int, day: int): int
    requires 1 <= month <= 12 && 1 <= day <= 31
  {
    var y := if month <= 2 then year - 1 else year;
    var era := y / 400;
    var yearOfEra := y - era * 400;
    var shiftedMonth := if month > 2 then month - 3 else month + 9;
    var dayOfYear := (153 * shiftedMonth + 2) / 5 + day - 1;
    var dayOfEra := yearOfEra * 365 + yearOfEra / 4 - yearOfEra / 100 + dayOfYear;
    era * 146097 + dayOfEra - 719468
  }

  /** The reference instant is midnight of 30 December 1899, counted from the Unix epoch. */
  lemma StartDateIsDayCountEpoch()
    ensures DaysFromCivil(1970, 1, 1) == 0
    ensures StartDateSeconds == DaysFromCivil(1899, 12, 30) * SecondsInADay
  {
  }

  // ---------------------------------------------------------------------
  // Rust arithmetic on i64 and f64

  /** Rust's `/` on integers: the quotient truncated toward zero. */
  function TruncDiv(a: int, d: int): (q: int)
    requires d > 0
    ensures 0 <= a ==> 0 <= a - q * d < d
    ensures a < 0 ==> -d < a - q * d <= 0
  {
    if a >= 0 then a / d else -((-a) / d)
  }

  /** Dafny's `/` agrees with Rust's exactly when the dividend is non-negative or a multiple. */
  lemma TruncDivVersusEuclidean(a: int, d: int)
    requires d > 0
    ensures TruncDiv(a, d) == a / d <==> (0 <= a || a % d == 0)
  {
    var q, r := a / d, a % d;
    if a < 0 {
      if r == 0 {
        DivUnique(-a, d, -q, 0);
      } else {
        DivUnique(-a, d, -q - 1, d - r);
        assert TruncDiv(a, d) == q + 1;
      }
    }
  }

  /** Euclidean division is determined by any quotient and remainder that fit. */
  lemma DivUnique(n: int, d: int, q: int, r: int)
    requires d > 0 && 0 <= r < d && n == q * d + r
    ensures n / d == q
  {
    var q', r' := n / d, n % d;
    assert n == q' * d + r';
    var k := q - q';
    assert k * d == r' - r by {
      assert k * d == q * d - q' * d;
    }
    assert -d < k * d < d;
    assert k >= 1 ==> k * d >= d;
    assert k <= -1 ==> k * d <= -d;
  }

  /** `f64::round`: the nearest integer, halfway cases away from zero. */
  function RoundHalfAwayFromZero(x: real): (r: int)
    ensures 0.0 <= x ==> x - 0.5 < r as real <= x + 0.5
    ensures x < 0.0 ==> x - 0.5 <= r as real < x + 0.5
  {
    if x >= 0.0 then (x + 0.5).Floor else -((-x + 0.5).Floor)
  }

  /** Rounding a whole number gives that number back. */
  lemma RoundWhole(k: int)
    ensures RoundHalfAwayFromZero(k as real) == k
  {
    var r := RoundHalfAwayFromZero(k as real);
    assert k - 1 < r < k + 1 by {
      assert (k - 1) as real < r as real < (k + 1) as real;
    }
  }

  // ---------------------------------------------------------------------
  // The codec

  /**
   * `timestamp_to_datetime`: the whole Unix second of a millisecond
   * timestamp, dropping the sub-second part toward zero.
   */
  function TimestampToDatetime(timestampMillis: int): (seconds: int)
    ensures 0 <= timestampMillis ==> 0 <= timestampMillis - 1000 * seconds < 1000
    ensures timestampMillis < 0 ==> -1000 < timestampMillis - 1000 * seconds <= 0
  {
    TruncDiv(timestampMillis, 1000)
  }

  /**
   * `epoch_timestamp_to_t6_date`: whole seconds elapsed since the reference
   * instant, divided by the length of a day.
   */
  function EpochTimestampToT6Date(millis: int): (days: real)
    ensures days * SecondsInADay as real == (TimestampToDatetime(millis) - StartDateSeconds) as real
  {
    (TimestampToDatetime(millis) - StartDateSeconds) as real / SecondsInADay as real
  }

  /**
   * `t6_date_to_epoch_timestamp`: the reference instant plus the day count
   * rounded to the nearest whole second, in milliseconds.
   */
  function T6DateToEpochTimestamp(days: real): (millis: int)
    ensures millis % 1000 == 0
    ensures -0.5 <= (millis / 1000 - StartDateSeconds) as real - days * SecondsInADay as real <= 0.5
  {
    (StartDateSeconds + RoundHalfAwayFromZero(days * SecondsInADay as real)) * 1000
  }

  /** The reference instant is day 0, one day later is day 1, and day 0 decodes to the reference instant. */
  lemma DayCountAnchors()
    ensures EpochTimestampToT6Date(StartDateSeconds * 1000) == 0.0
    ensures EpochTimestampToT6Date((StartDateSeconds + SecondsInADay) * 1000) == 1.0
    ensures T6DateToEpochTimestamp(0.0) == StartDateSeconds * 1000
    ensures T6DateToEpochTimestamp(1.0) == (StartDateSeconds + SecondsInADay) * 1000
  {
    RoundWhole(0);
    RoundWhole(SecondsInADay);
  }

  /** Encoding then decoding keeps the whole second of any timestamp. */
  lemma RoundTripMillis(millis: int)
    ensures T6DateToEpochTimestamp(EpochTimestampToT6Date(millis)) == 1000 * TimestampToDatetime(millis)
  {
    var seconds := TimestampToDatetime(millis);
    var elapsed := seconds - StartDateSeconds;
    var days := EpochTimestampToT6Date(millis);
    assert days * SecondsInADay as real == elapsed as real;
    RoundWhole(elapsed);
  }

  /** For a whole-second timestamp the round trip is exact. */
  lemma RoundTripWholeSeconds(millis: int)
    requires millis % 1000 == 0
    ensures T6DateToEpochTimestamp(EpochTimestampToT6Date(millis)) == millis
  {
    RoundTripMillis(millis);
    assert 1000 * TimestampToDatetime(millis) == millis;
  }

  /** A day count that is a whole number of seconds survives decoding then encoding. */
  lemma RoundTripDays(days: real)
    requires (days * SecondsInADay as real).Floor as real == days * SecondsInADay as real
    ensures EpochTimestampToT6Date(T6DateToEpochTimestamp(days)) == days
  {
    var k := (days * SecondsInADay as real).Floor;
    RoundWhole(k);
    var millis := T6DateToEpochTimestamp(days);
    assert millis == (StartDateSeconds + k) * 1000;
    assert TimestampToDatetime(millis) == StartDateSeconds + k;
  }

  // ---------------------------------------------------------------------
  // Raw buffer writes

  /** `copy_nonoverlapping(src, dst, count)`: the first `count` elements of `dst` take those of `src`. */
  method CopyNonoverlapping<T>(src: seq<T>, dst: array<T>, count: nat)
    requires count <= |src| && count <= dst.Length
    modifies dst
    ensures forall i :: 0 <= i < count ==> dst[i] == src[i]
    ensures forall i :: count <= i < dst.Length ==> dst[i] == old(dst[i])
  {
    var i := 0;
    while i < count
      invariant 0 <= i <= count
      invariant forall k :: 0 <= k < i ==> dst[k] == src[k]
      invariant forall k :: i <= k < dst.Length ==> dst[k] == old(dst[k])
    {
      dst[i] := src[i];
      i := i + 1;
    }
  }

  /**
   * The C string a reader finds at the start of `buffer`: the bytes before
   * the first zero, or `None` when the buffer holds no zero at all.
   */
  function CStringOf(buffer: seq<Byte>): (s: Option<seq<Byte>>)
    ensures s.None? <==> 0 !in buffer
    ensures s.Some? ==> |s.value| < |buffer| && s.value == buffer[..|s.value|]
    ensures s.Some? ==> buffer[|s.value|] == 0 && 0 !in s.value
  {
    if |buffer| == 0 then None
    else if buffer[0] == 0 then Some([])
    else match CStringOf(buffer[1..]) {
      case None => None
      case Some(rest) => Some([buffer[0]] + rest)
    }
  }

  /** The buffer contents after `copy_into(src, dst)` as written: `src`, then the old byte, then a zero. */
  function WrittenByCopyInto(src: seq<Byte>, old_dst: seq<Byte>): (dst: seq<Byte>)
    requires |src| + 2 <= |old_dst|
    ensures |dst| == |old_dst| && dst[..|src|] == src
    ensures dst[|src|] == old_dst[|src|] && dst[|src| + 1] == 0
    ensures dst[|src| + 2..] == old_dst[|src| + 2..]
  {
    src + [old_dst[|src|], 0] + old_dst[|src| + 2..]
  }

  /**
   * `copy_into`: copies the bytes of `src` to `dst` and writes a zero at
   * index `|src| + 1`, leaving index `|src|` as it was. The caller must
   * supply a buffer of at least `|src| + 2` bytes.
   */
  method CopyInto(src: seq<Byte>, dst: array<Byte>) returns (r: Result<(), string>)
    requires |src| + 2 <= dst.Length
    modifies dst
    ensures r == Success(())
    ensures forall i :: 0 <= i < |src| ==> dst[i] == src[i]
    ensures dst[|src|] == old(dst[|src|]) && dst[|src| + 1] == 0
    ensures forall i :: |src| + 1 < i < dst.Length ==> dst[i] == old(dst[i])
    ensures dst[..] == WrittenByCopyInto(src, old(dst[..]))
  {
    CopyNonoverlapping(src, dst, |src|);
    dst[|src| + 1] := 0;
    r := Success(());
  }

  /** A buffer holding `text`, a zero, then anything reads back as exactly `text`. */
  lemma {:induction false} CStringOfTerminated(text: seq<Byte>, tail: seq<Byte>)
    requires 0 !in text
    ensures CStringOf(text + [0] + tail) == Some(text)
  {
    var buffer := text + [0] + tail;
    if |text| > 0 {
      assert text[0] in text;
      assert buffer[1..] == text[1..] + [0] + tail;
      CStringOfTerminated(text[1..], tail);
      assert [text[0]] + text[1..] == text;
    }
  }

  /**
   * After the copy as written, the host reads back exactly `src` if and only
   * if the byte at index `|src|`, which the copy skips, was already zero.
   */
  lemma CopyIntoReadBack(src: seq<Byte>, old_dst: seq<Byte>)
    requires 0 !in src && |src| + 2 <= |old_dst|
    ensures CStringOf(WrittenByCopyInto(src, old_dst)) == Some(src) <==> old_dst[|src|] == 0
  {
    var written := WrittenByCopyInto(src, old_dst);
    if old_dst[|src|] == 0 {
      assert written == src + [0] + ([0] + old_dst[|src| + 2..]);
      CStringOfTerminated(src, [0] + old_dst[|src| + 2..]);
    }
  }

  /** "TR" copied over a buffer of ones reads back as "TR\x01". */
  lemma CopyIntoCounterexample()
    ensures CStringOf(WrittenByCopyInto([84, 82], [1, 1, 1, 1])) == Some([84, 82, 1])
  {
    assert WrittenByCopyInto([84, 82], [1, 1, 1, 1]) == [84, 82, 1] + [0] + [];
    CStringOfTerminated([84, 82, 1], []);
  }

  /** The buffer contents after the corrected copy: `src`, then its terminating zero. */
  function WrittenByTerminatedCopy(src: seq<Byte>, old_dst: seq<Byte>): (dst: seq<Byte>)
    requires |src| + 1 <= |old_dst|
    ensures |dst| == |old_dst| && dst[..|src|] == src && dst[|src|] == 0
    ensures dst[|src| + 1..] == old_dst[|src| + 1..]
  {
    src + [0] + old_dst[|src| + 1..]
  }

  /** `copy_into` with the terminator at index `|src|`, where a C string needs it. */
  method CopyIntoTerminated(src: seq<Byte>, dst: array<Byte>) returns (r: Result<(), string>)
    requires |src| + 1 <= dst.Length
    modifies dst
    ensures r == Success(())
    ensures dst[..] == WrittenByTerminatedCopy(src, old(dst[..]))
  {
    CopyNonoverlapping(src, dst, |src|);
    dst[|src|] := 0;
    r := Success(());
  }

  /** After the corrected copy the host always reads back exactly `src`. */
  lemma TerminatedCopyReadBack(src: seq<Byte>, old_dst: seq<Byte>)
    requires 0 !in src && |src| + 1 <= |old_dst|
    ensures CStringOf(WrittenByTerminatedCopy(src, old_dst)) == Some(src)
  {
    CStringOfTerminated(src, old_dst[|src| + 1..]);
  }
}
