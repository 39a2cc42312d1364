/** Unix timestamps as strings (`StrUnixTsToTP`), whose number of digits tells their unit, and the
    decimal parser below it (`std::from_chars` for a uint64, as `StrToNum` calls it). */
module Timestamps {
  import opened Words

  datatype Errc = NoError | InvalidArgument | OutOfRange

  predicate IsDigit(c: char) {
    '0' <= c <= '9'
  }

  predicate AllDigits(s: string) {
    forall i :: 0 <= i < |s| ==> IsDigit(s[i])
  }

  function Digit(c: char): nat
    requires IsDigit(c)
  {
    (c - '0') as nat
  }

  /** The digits that a string starts with. */
  function Leading(s: string): (d: string)
    ensures AllDigits(d) && d <= s && (|d| < |s| ==> !IsDigit(s[|d|]))
  {
    if s != "" && IsDigit(s[0]) then
      assert [s[0]] + s[1..] == s;
      [s[0]] + Leading(s[1..])
    else ""
  }

  /** The number that a string of digits stands for. */
  function Value(d: string): nat
    requires AllDigits(d)
  {
    if d == "" then 0 else 10 * Value(d[..|d| - 1]) + Digit(d[|d| - 1])
  }

  function Pow10(n: nat): nat {
    if n == 0 then 1 else 10 * Pow10(n - 1)
  }

  lemma {:induction false} ValueBelow(d: string)
    requires AllDigits(d)
    ensures Value(d) < Pow10(|d|)
  {
    if d != "" {
      ValueBelow(d[..|d| - 1]);
    }
  }

  // ----- The parser

  /** What `StrToNum` answers, given what its out-parameter held before. */
  function Parsed(s: string, before: uint64): (Errc, uint64) {
    var d := Leading(s);
    if d == "" then (InvalidArgument, before)
    else if Value(d) >= U64 then (OutOfRange, before)
    else (NoError, Value(d))
  }

  /** Reads the digits that the string starts with. What follows them does not matter: the caller
      of `from_chars` looks only at the error code. */
  method StrToNum(s: string, before: uint64) returns (ec: Errc, ret: uint64)
    ensures (ec, ret) == Parsed(s, before)
    ensures ec != NoError ==> ret == before
  {
    var d := Leading(s);
    var i := 0;
    var acc: nat := 0;
    var overflow := false;
    while i < |s| && IsDigit(s[i])
      invariant 0 <= i <= |d| && (i < |d| <==> i < |s| && IsDigit(s[i]))
      invariant AllDigits(d[..i])
      invariant if overflow then Value(d[..i]) >= U64 else acc == Value(d[..i]) < U64
      decreases |s| - i
    {
      assert d[..i + 1][..i] == d[..i] && d[i] == s[i];
      var digit := Digit(s[i]);
      if overflow || acc > (U64 - 1 - digit) / 10 {
        overflow := true;
      } else {
        acc := 10 * acc + digit;
      }
      i := i + 1;
    }
    assert d[..|d|] == d;
    if i == 0 {
      return InvalidArgument, before;
    }
    if overflow {
      return OutOfRange, before;
    }
    return NoError, acc;
  }

  // ----- Time points

  /** Ticks per second of a unit. */
  datatype Unit = Seconds | Milliseconds | Microseconds | Nanoseconds

  function PerSecond(u: Unit): nat {
    match u
    case Seconds => 1
    case Milliseconds => 1000
    case Microseconds => 1000000
    case Nanoseconds => 1000000000
  }

  /** C++ division truncates towards zero. */
  function Quotient(a: int, b: nat): int
    requires b > 0
  {
    if a >= 0 then a / b else -((-a) / b)
  }

  /** `duration_cast` of a count of one unit to another. */
  function Cast(count: int64, from: Unit, to: Unit): int {
    if PerSecond(to) >= PerSecond(from) then count * (PerSecond(to) / PerSecond(from))
    else Quotient(count, PerSecond(from) / PerSecond(to))
  }

  /** `UnixTsToTP`: the count is taken into a signed duration before it is cast. */
  function UnixTsToTP(ts: uint64, from: Unit, to: Unit): int {
    Cast(Signed(ts), from, to)
  }

  /** What becomes of a string: a time point, an error, or nothing that C++ defines, because the
      signed 64-bit count overflowed in the cast. */
  datatype Result = Success(tp: int64) | Failure(ec: Errc) | Undefined

  function Defined(tp: int): Result {
    if -I64 <= tp < I64 then Success(tp) else Undefined
  }

  /** The unit that a length stands for. */
  predicate HasUnit(n: nat) {
    n == 10 || n == 13 || n == 16 || n == 19
  }

  function UnitOf(n: nat): Unit
    requires HasUnit(n)
  {
    if n == 10 then Seconds else if n == 13 then Milliseconds
    else if n == 16 then Microseconds else Nanoseconds
  }

  /** The time point, in ticks of `to`, that a string is turned into. */
  function TimeOf(s: string, to: Unit): Result {
    var (ec, num) := Parsed(s, 0);
    if ec != NoError then Failure(ec)
    else if HasUnit(|s|) then Defined(UnixTsToTP(num, UnitOf(|s|), to))
    else Failure(InvalidArgument)
  }

  method StrUnixTsToTP(str: string, to: Unit, before: int) returns (ec: Errc, ts: int)
    ensures match TimeOf(str, to)
            case Success(tp) => ec == NoError && ts == tp
            case Failure(e) => ec == e && ec != NoError && ts == before
            case Undefined => ec == NoError && !(-I64 <= ts < I64)
  {
    var num: uint64;
    ts := before;
    ec, num := StrToNum(str, 0);
    if ec == NoError {
      match |str|
      case 10 =>
        ts := UnixTsToTP(num, Seconds, to);
      case 13 =>
        ts := UnixTsToTP(num, Milliseconds, to);
      case 16 =>
        ts := UnixTsToTP(num, Microseconds, to);
      case 19 =>
        ts := UnixTsToTP(num, Nanoseconds, to);
      case _ =>
        ec := InvalidArgument;
    }
  }

  // ----- Which strings are accepted

  lemma {:induction false} LeadingOfDigits(s: string)
    requires AllDigits(s)
    ensures Leading(s) == s
  {
    if s != "" {
      LeadingOfDigits(s[1..]);
    }
  }

  /** No string of at most 19 digits overflows the parser. */
  lemma NoAcceptedLengthOverflows(s: string)
    requires |s| <= 19
    ensures Value(Leading(s)) < U64
  {
    ValueBelow(Leading(s));
    Powers(|Leading(s)|);
  }

  lemma Powers(n: nat)
    requires n <= 19
    ensures Pow10(n) < U64
    ensures n <= 16 ==> Pow10(n) <= 10000000000000000
    ensures n <= 13 ==> Pow10(n) <= 10000000000000
    ensures n <= 10 ==> Pow10(n) <= 10000000000
    ensures n == 19 ==> Pow10(n) == 10000000000000000000
  {
    assert Pow10(3) == 1000;
    PowersGrow(n, 10);
    PowersGrow(n, 13);
    PowersGrow(n, 16);
    PowersGrow(n, 19);
    assert Pow10(10) == 10000000000 && Pow10(13) == 10000000000000;
    assert Pow10(16) == 10000000000000000 && Pow10(19) == 10000000000000000000;
  }

  lemma {:induction false} PowersGrow(m: nat, n: nat)
    ensures m <= n ==> Pow10(m) <= Pow10(n)
  {
    if m < n {
      PowersGrow(m, n - 1);
    }
  }

  /** A string is taken as a time exactly if it has one of the four lengths and starts with a digit; what
      comes after the digits that it starts with is not looked at. */
  lemma AcceptedExactly(s: string, to: Unit)
    ensures !TimeOf(s, to).Failure? <==> HasUnit(|s|) && IsDigit(s[0])
  {
    if |s| <= 19 {
      NoAcceptedLengthOverflows(s);
    }
  }

  /** Out of range is reported exactly for a number that does not fit 64 bits, whatever the length;
      and then the length is at least 20. */
  lemma OutOfRangeExactly(s: string, to: Unit)
    ensures TimeOf(s, to) == Failure(OutOfRange) <==> Value(Leading(s)) >= U64
    ensures Value(Leading(s)) >= U64 ==> |s| >= 20
  {
    hide UnixTsToTP, UnitOf, Pow10, Leading;
    if |s| <= 19 {
      NoAcceptedLengthOverflows(s);
    }
  }

  // ----- How the resolutions cohere

  lemma DropThree(d: string)
    requires AllDigits(d) && |d| >= 3
    ensures Value(d[..|d| - 3]) == Value(d) / 1000
  {
    var a, b, c := d[..|d| - 1], d[..|d| - 2], d[..|d| - 3];
    assert a[..|a| - 1] == b && b[..|b| - 1] == c;
    assert Value(b) == 10 * Value(c) + Digit(b[|b| - 1]);
    assert Value(a) == 10 * Value(b) + Digit(a[|a| - 1]);
  }

  /** The number of a 19-digit string at each shorter resolution. */
  lemma Prefixes(s: string)
    requires AllDigits(s) && |s| == 19
    ensures Value(s[..16]) == Value(s) / 1000
    ensures Value(s[..13]) == Value(s) / 1000000
    ensures Value(s[..10]) == Value(s) / 1000000000
  {
    DropThree(s);
    DropThree(s[..16]);
    DropThree(s[..13]);
    assert s[..16][..13] == s[..13] && s[..13][..10] == s[..10];
  }

  lemma TimeOfDigits(s: string, to: Unit)
    requires AllDigits(s) && HasUnit(|s|)
    ensures Value(s) < U64
    ensures TimeOf(s, to) == Defined(UnixTsToTP(Value(s), UnitOf(|s|), to))
  {
    LeadingOfDigits(s);
    NoAcceptedLengthOverflows(s);
  }

  /** Number of ticks of `to` in one tick of the unit of an `n`-digit string, if more than one. */
  function Grain(n: nat, to: Unit): (g: nat)
    requires HasUnit(n)
    ensures g > 0
  {
    var u := PerSecond(UnitOf(n));
    if PerSecond(to) <= u then 1 else PerSecond(to) / u
  }

  /** The first `n` characters of a string are its time, rounded down to their unit; in particular
      the same time, where the time point is no finer than that unit. */
  predicate RoundsDown(s: string, n: nat, to: Unit)
    requires HasUnit(n) && n <= |s|
  {
    && TimeOf(s, to).Success?
    && TimeOf(s[..n], to).Success?
    && TimeOf(s[..n], to).tp == TimeOf(s, to).tp - TimeOf(s, to).tp % Grain(n, to)
  }

  lemma ShortenedPrefix(s: string, n: nat)
    requires AllDigits(s) && |s| == 19 && HasUnit(n)
    ensures Value(s[..n]) == Shortened(Value(s), n)
  {
    Prefixes(s);
    assert s[..19] == s;
  }

  lemma FloorFits(x: nat, g: nat)
    requires g > 0
    ensures 0 <= x - x % g <= x
  {
  }

  lemma RoundsDownBelow(s: string, n: nat, to: Unit)
    requires AllDigits(s) && |s| == 19 && HasUnit(n) && Value(s) < I64
    ensures RoundsDown(s, n, to)
  {
    hide UnixTsToTP, Grain, Shortened;
    ShortenedPrefix(s, n);
    TimeOfDigits(s, to);
    TimeOfDigits(s[..n], to);
    Rounding(Value(s), n, to);
    FloorFits(UnixTsToTP(Value(s), Nanoseconds, to), Grain(n, to));
  }

  /** What a 19-digit number from 2^63 on and its prefixes become: the one a time before 1970, the
      others, if they have a time at all, not. */
  lemma WrapsToThePast(v: uint64, n: nat, to: Unit)
    requires I64 <= v < 10000000000000000000 && HasUnit(n)
    ensures -I64 <= UnixTsToTP(v, Nanoseconds, to) < 0
    ensures n < 19 ==> UnixTsToTP(Shortened(v, n), UnitOf(n), to) >= 0
  {
  }

  lemma RoundsDownAbove(s: string, n: nat, to: Unit)
    requires AllDigits(s) && |s| == 19 && HasUnit(n) && Value(s) >= I64
    ensures RoundsDown(s, n, to) <==> n == 19
  {
    hide UnixTsToTP, Shortened;
    ShortenedPrefix(s, n);
    TimeOfDigits(s, to);
    TimeOfDigits(s[..n], to);
    ValueBelow(s);
    Powers(19);
    WrapsToThePast(Value(s), n, to);
    if n == 19 {
      assert s[..19] == s;
    }
  }

  /** A prefix of an accepted length is the time of a 19-digit string, rounded down, exactly if the
      number is below 2^63 or the prefix is the whole string. */
  lemma PrefixRoundsDownExactly(s: string, n: nat, to: Unit)
    requires AllDigits(s) && |s| == 19 && HasUnit(n)
    ensures RoundsDown(s, n, to) <==> Value(s) < I64 || n == 19
  {
    hide RoundsDown;
    if Value(s) < I64 {
      RoundsDownBelow(s, n, to);
    } else {
      RoundsDownAbove(s, n, to);
    }
  }

  lemma Thousands(v: nat)
    ensures v / 1000 / 1000 == v / 1000000
    ensures v / 1000 / 1000000 == v / 1000000000
    ensures v / 1000000 / 1000 == v / 1000000000
  {
  }

  lemma FloorTo(x: nat, g: nat)
    requires g > 0
    ensures x / g * g == x - x % g
  {
  }

  /** What is left of a number of nanoseconds at a shorter length. */
  function Shortened(v: nat, n: nat): nat
    requires HasUnit(n)
  {
    if n == 19 then v
    else if n == 16 then v / 1000
    else if n == 13 then v / 1000000
    else v / 1000000000
  }

  lemma CastOfNanoseconds(v: nat, to: Unit)
    requires v < I64
    ensures UnixTsToTP(v, Nanoseconds, to) ==
            match to
            case Seconds => v / 1000000000
            case Milliseconds => v / 1000000
            case Microseconds => v / 1000
            case Nanoseconds => v
  {
  }

  /** The arithmetic of rounding down, one target resolution at a time. */
  lemma Rounding(v: nat, n: nat, to: Unit)
    requires v < I64 && HasUnit(n)
    ensures var full := UnixTsToTP(v, Nanoseconds, to);
            UnixTsToTP(Shortened(v, n), UnitOf(n), to) == full - full % Grain(n, to)
    ensures 0 <= UnixTsToTP(v, Nanoseconds, to) < I64
  {
    Thousands(v);
    CastOfNanoseconds(v, to);
    var full := UnixTsToTP(v, Nanoseconds, to);
    FloorTo(full, Grain(n, to));
    RoundingCast(v, n, to);
  }

  lemma RoundingCast(v: nat, n: nat, to: Unit)
    requires v < I64 && HasUnit(n)
    ensures UnixTsToTP(v, Nanoseconds, to) >= 0
    ensures UnixTsToTP(Shortened(v, n), UnitOf(n), to) ==
            UnixTsToTP(v, Nanoseconds, to) / Grain(n, to) * Grain(n, to)
  {
    CastOfNanoseconds(v, to);
    Thousands(v);
    match to
    case Seconds => CastToSeconds(v, n);
    case Milliseconds => CastToMilliseconds(v, n);
    case Microseconds => CastToMicroseconds(v, n);
    case Nanoseconds => CastToNanoseconds(v, n);
  }

  lemma CastToSeconds(v: nat, n: nat)
    requires v < I64 && HasUnit(n)
    ensures UnixTsToTP(Shortened(v, n), UnitOf(n), Seconds) == v / 1000000000
  {
    Thousands(v);
  }

  lemma CastToMilliseconds(v: nat, n: nat)
    requires v < I64 && HasUnit(n)
    ensures UnixTsToTP(Shortened(v, n), UnitOf(n), Milliseconds) ==
            v / 1000000 / Grain(n, Milliseconds) * Grain(n, Milliseconds)
  {
    Thousands(v);
  }

  lemma CastToMicroseconds(v: nat, n: nat)
    requires v < I64 && HasUnit(n)
    ensures UnixTsToTP(Shortened(v, n), UnitOf(n), Microseconds) ==
            v / 1000 / Grain(n, Microseconds) * Grain(n, Microseconds)
  {
    Thousands(v);
  }

  lemma CastToNanoseconds(v: nat, n: nat)
    requires v < I64 && HasUnit(n)
    ensures UnixTsToTP(Shortened(v, n), UnitOf(n), Nanoseconds) ==
            v / Grain(n, Nanoseconds) * Grain(n, Nanoseconds)
  {
  }

  /** The 19-digit string and its 16-digit prefix agree, in every resolution but nanoseconds,
      exactly if the number is below 2^63: above, the signed duration wraps to before 1970. */
  lemma NanosecondsAgreeExactly(s: string, to: Unit)
    requires AllDigits(s) && |s| == 19 && to != Nanoseconds
    ensures TimeOf(s, to) == TimeOf(s[..16], to) <==> Value(s) < I64
  {
    hide UnixTsToTP;
    ShortenedPrefix(s, 16);
    TimeOfDigits(s, to);
    TimeOfDigits(s[..16], to);
    if Value(s) < I64 {
      RoundsDownBelow(s, 16, to);
    } else {
      ValueBelow(s);
      Powers(19);
      WrapsToThePast(Value(s), 16, to);
      CastFits(Value(s), Nanoseconds, to);
    }
  }

  lemma AppendZeros(s: string)
    requires AllDigits(s)
    ensures AllDigits(s + "000") && Value(s + "000") == 1000 * Value(s)
  {
    var t := s + "000";
    assert t[..|t| - 1] == s + "00" && (s + "00")[..|s| + 1] == s + "0" && (s + "0")[..|s|] == s;
    assert Value(s + "0") == 10 * Value(s);
    assert Value(s + "00") == 10 * Value(s + "0");
  }

  lemma ZerosBelow(v: nat, n: nat, to: Unit)
    requires 1000 * v < I64 && (n == 10 || n == 13 || n == 16)
    ensures UnixTsToTP(1000 * v, UnitOf(n + 3), to) == UnixTsToTP(v, UnitOf(n), to)
  {
    if n == 10 {
      ZerosAfterSeconds(v, to);
    } else if n == 13 {
      ZerosAfterMilliseconds(v, to);
    } else {
      ZerosAfterMicroseconds(v, to);
    }
  }

  lemma ZerosAfterSeconds(v: nat, to: Unit)
    requires 1000 * v < I64
    ensures UnixTsToTP(1000 * v, Milliseconds, to) == UnixTsToTP(v, Seconds, to)
  {
    match to
    case Seconds => assert Quotient(1000 * v, 1000) == v;
    case _ =>
  }

  lemma ZerosAfterMilliseconds(v: nat, to: Unit)
    requires 1000 * v < I64
    ensures UnixTsToTP(1000 * v, Microseconds, to) == UnixTsToTP(v, Milliseconds, to)
  {
    assert 1000 * v / 1000 == v;
    assert 1000 * v / 1000000 == v / 1000;
  }

  lemma ZerosAfterMicroseconds(v: nat, to: Unit)
    requires 1000 * v < I64
    ensures UnixTsToTP(1000 * v, Nanoseconds, to) == UnixTsToTP(v, Microseconds, to)
  {
    CastOfNanoseconds(1000 * v, to);
    assert 1000 * v / 1000 == v;
    assert 1000 * v / 1000000 == v / 1000;
    assert 1000 * v / 1000000000 == v / 1000000;
  }

  lemma CastFits(v: uint64, u: Unit, to: Unit)
    requires to != Nanoseconds
    requires u == Seconds ==> v < 10000000000
    requires u == Milliseconds ==> v < 10000000000000
    requires u == Microseconds ==> v < 10000000000000000
    ensures -I64 <= UnixTsToTP(v, u, to) < I64
  {
  }

  lemma CastToNanosecondsFits(v: uint64, u: Unit)
    requires u != Nanoseconds ==> v < I64
    ensures -I64 <= UnixTsToTP(v, u, Nanoseconds) < I64 <==>
            u == Nanoseconds || v * (1000000000 / PerSecond(u)) < I64
  {
  }

  lemma AcceptedValue(s: string)
    requires HasUnit(|s|)
    ensures Value(Leading(s)) < U64
    ensures |s| == 10 ==> Value(Leading(s)) < 10000000000
    ensures |s| == 13 ==> Value(Leading(s)) < 10000000000000
    ensures |s| == 16 ==> Value(Leading(s)) < 10000000000000000
  {
    NoAcceptedLengthOverflows(s);
    ValueBelow(Leading(s));
    PowersGrow(|Leading(s)|, |s|);
    Powers(|s|);
  }

  /** The count overflows exactly if the time point is in nanoseconds, the string is shorter than
      19 characters, and its number, in nanoseconds, is from 2^63 on. In particular no string
      overflows for a time point no finer than microseconds. */
  lemma OverflowsExactly(s: string, to: Unit)
    requires HasUnit(|s|) && IsDigit(s[0])
    ensures TimeOf(s, to) == Undefined <==>
            && to == Nanoseconds
            && |s| < 19
            && Value(Leading(s)) * (1000000000 / PerSecond(UnitOf(|s|))) >= I64
  {
    hide UnixTsToTP;
    AcceptedExactly(s, to);
    AcceptedValue(s);
    if to == Nanoseconds {
      CastToNanosecondsFits(Value(Leading(s)), UnitOf(|s|));
    } else {
      CastFits(Value(Leading(s)), UnitOf(|s|), to);
    }
  }

  /** From 2^63 on, a count of nanoseconds wraps to before 1970, and its first 16 digits do not. */
  lemma ZerosAbove(v: nat, to: Unit)
    requires I64 <= 1000 * v < 10000000000000000000 && to != Nanoseconds
    ensures UnixTsToTP(1000 * v, Nanoseconds, to) < 0 <= UnixTsToTP(v, Microseconds, to)
  {
  }

  /** Three more zeros are the same time in the next unit, exactly if the longer number is below
      2^63, as it always is for 10 and 13 digits. */
  lemma ZerosChangeNothing(s: string, to: Unit)
    requires AllDigits(s) && (|s| == 10 || |s| == 13 || |s| == 16) && to != Nanoseconds
    ensures AllDigits(s + "000")
    ensures TimeOf(s + "000", to) == TimeOf(s, to) <==> Value(s + "000") < I64
    ensures |s| < 16 ==> Value(s + "000") < I64
  {
    hide UnixTsToTP;
    AppendZeros(s);
    LeadingOfDigits(s);
    AcceptedValue(s);
    TimeOfDigits(s, to);
    TimeOfDigits(s + "000", to);
    OverflowsExactly(s, to);
    if 1000 * Value(s) < I64 {
      ZerosBelow(Value(s), |s|, to);
    } else {
      ZerosAbove(Value(s), to);
    }
  }

  /** For nanoseconds they are, whenever the shorter string has a defined time at all. */
  lemma ZerosInNanoseconds(s: string)
    requires AllDigits(s) && (|s| == 10 || |s| == 13 || |s| == 16)
    requires TimeOf(s, Nanoseconds) != Undefined
    ensures TimeOf(s + "000", Nanoseconds) == TimeOf(s, Nanoseconds)
  {
    AppendZeros(s);
    LeadingOfDigits(s);
    AcceptedValue(s);
    TimeOfDigits(s, Nanoseconds);
    TimeOfDigits(s + "000", Nanoseconds);
    OverflowsExactly(s, Nanoseconds);
    hide UnixTsToTP;
    ZerosBelow(Value(s), |s|, Nanoseconds);
  }

  /** Nanoseconds in one tick. */
  function PerTick(to: Unit): (g: nat)
    ensures g > 0
  {
    match to
    case Seconds => 1000000000
    case Milliseconds => 1000000
    case Microseconds => 1000
    case Nanoseconds => 1
  }

  lemma PastOfNanoseconds(v: uint64, to: Unit)
    requires v >= I64
    ensures UnixTsToTP(v, Nanoseconds, to) == -((U64 - v) / PerTick(to))
  {
  }

  /** The time of a 19-digit string, outright: its number of nanoseconds rounded towards 1970, where a
      number from 2^63 on counts as that less 2^64. */
  lemma NanosecondString(s: string, to: Unit)
    requires AllDigits(s) && |s| == 19
    ensures TimeOf(s, to).Success?
    ensures TimeOf(s, to).tp == if Value(s) < I64 then Value(s) / PerTick(to)
                                else -((U64 - Value(s)) / PerTick(to))
  {
    hide UnixTsToTP;
    TimeOfDigits(s, to);
    if Value(s) < I64 {
      CastOfNanoseconds(Value(s), to);
    } else {
      PastOfNanoseconds(Value(s), to);
    }
  }

  // ----- Printed numbers

  function DigitChar(n: nat): (c: char)
    requires n < 10
    ensures IsDigit(c) && Digit(c) == n
  {
    '0' + n as char
  }

  /** A number as people write it. */
  function Decimal(n: nat): (d: string)
    ensures AllDigits(d) && d != ""
  {
    if n < 10 then [DigitChar(n)] else Decimal(n / 10) + [DigitChar(n % 10)]
  }

  /** Reading a printed number gives the number. */
  lemma {:induction false} ValueOfDecimal(n: nat)
    ensures Value(Decimal(n)) == n
  {
    var d := Decimal(n);
    if n < 10 {
      assert d[..0] == "" && Value(d[..0]) == 0;
    } else {
      ValueOfDecimal(n / 10);
      assert d[..|d| - 1] == Decimal(n / 10);
    }
  }

  /** Round trip: a printed count of seconds, milliseconds, microseconds or nanoseconds, of the length
      that stands for its unit, is read as the time point of that count. */
  lemma PrintedTimes(n: nat)
    requires n < I64
    ensures |Decimal(n)| == 10 ==> TimeOf(Decimal(n), Seconds) == Success(n)
    ensures |Decimal(n)| == 13 ==> TimeOf(Decimal(n), Milliseconds) == Success(n)
    ensures |Decimal(n)| == 16 ==> TimeOf(Decimal(n), Microseconds) == Success(n)
    ensures |Decimal(n)| == 19 ==> TimeOf(Decimal(n), Nanoseconds) == Success(n)
  {
    hide Decimal, Value, Leading;
    ValueOfDecimal(n);
    if HasUnit(|Decimal(n)|) {
      TimeOfDigits(Decimal(n), UnitOf(|Decimal(n)|));
    }
  }
}
