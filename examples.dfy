/**
 * The documented examples, evaluated in the model with a small duration
 * collaborator: ms = 1, s = 1000 ms, min = 60 s, h = 60 min, d = 24 h.
 */
module Examples {
  import opened Wrappers
  import opened Tokenizer
  import opened ConvertMany

  /** Milliseconds per unit. */
  function Factor(u: string): (r: Option<real>)
    ensures r.Some? ==> r.value > 0.0
  {
    if u == "ms" then Some(1.0)
    else if u == "s" then Some(1000.0)
    else if u == "min" then Some(60000.0)
    else if u == "h" || u == "hours" then Some(3600000.0)
    else if u == "d" || u == "days" then Some(86400000.0)
    else None
  }

  /** `convert(q, from).to(target)` for durations. */
  function DurationTo(q: real, from: string, target: string): Result<real, Error> {
    match (Factor(from), Factor(target))
    case (Some(f), Some(t)) => Success(q * f / t)
    case _ => Failure(ConversionError("unknown unit"))
  }

  /** `convert(q, from).to('best')` for durations: the largest unit in which
    * the magnitude is at least one. There is a single kind of duration
    * unit, so `kind` does not change the choice. */
  function DurationBest(q: real, from: string, kind: Option<string>): Result<BestConversion, Error> {
    match Factor(from)
    case None => Failure(ConversionError("unknown unit"))
    case Some(f) =>
      var inMs := q * f;
      var size := if inMs < 0.0 then -inMs else inMs;
      var u := if size >= 86400000.0 then "d"
               else if size >= 3600000.0 then "h"
               else if size >= 60000.0 then "min"
               else if size >= 1000.0 then "s"
               else "ms";
      Success(BestConversion(inMs / Factor(u).value, u))
  }

  const Durations := UnitConverter(DurationTo, DurationBest)

  lemma Factors()
    ensures Factor("ms") == Some(1.0) && Factor("s") == Some(1000.0) && Factor("min") == Some(60000.0)
    ensures Factor("h") == Some(3600000.0) && Factor("hours") == Some(3600000.0)
    ensures Factor("d") == Some(86400000.0) && Factor("days") == Some(86400000.0)
  {
  }

  /** A whitespace character starts no match. */
  lemma SkipSpace(s: string, i: nat)
    requires i < |s| && IsSpace(s[i])
    ensures FirstMatch(s, i) == FirstMatch(s, i + 1)
  {
    assert RunEnd(s, i) == i;
  }

  /** A match found at `i` is the one `exec` returns from `i`. */
  lemma Found(s: string, i: nat, q: nat, e: nat)
    requires MatchAt(s, i) == Some(q) && RunEnd(s, i) == e
    ensures FirstMatch(s, i) == Some(Match(i, s[i..i + q], s[i + q..e]))
  {
  }

  /** Nothing matches past the end. */
  lemma AtEnd(s: string)
    ensures FirstMatch(s, |s|) == None
  {
  }

  // ---------------------------------------------------------------------
  // How the pattern splits the string.

  /** `"1.5h"`: one match, quantity `1.5`, unit `h`. */
  lemma DecimalQuantity()
    ensures Tokenize("1.5h") == [Match(0, "1.5", "h")]
  {
    var s := "1.5h";
    assert RunEnd(s, 0) == 4;
    assert DigitRun(s, 0, 4) == 1;
    assert DigitRun(s, 2, 4) == 1;
    assert MatchAt(s, 0) == Some(3);
    assert s[0..3] == "1.5" && s[3..4] == "h";
    AtEnd(s);
  }

  /** `"12"`: the unit takes the last digit, so the quantity is `1` and the
    * unit is `2`. */
  lemma DigitUnit()
    ensures Tokenize("12") == [Match(0, "1", "2")]
  {
    var s := "12";
    assert RunEnd(s, 0) == 2;
    assert DigitRun(s, 0, 2) == 2;
    assert MatchAt(s, 0) == Some(1);
    assert s[0..1] == "1" && s[1..2] == "2";
    AtEnd(s);
  }

  /** `"1d12h"`: the unit runs to the next whitespace, digits included. */
  lemma GreedyUnit()
    ensures Tokenize("1d12h") == [Match(0, "1", "d12h")]
  {
    var s := "1d12h";
    assert RunEnd(s, 0) == 5;
    assert DigitRun(s, 0, 5) == 1;
    assert MatchAt(s, 0) == Some(1);
    assert s[0..1] == "1" && s[1..5] == "d12h";
    AtEnd(s);
  }

  /** `"1d-2h"`: one token whose unit is `d-2h`. */
  lemma SignInsideUnit()
    ensures Tokenize("1d-2h") == [Match(0, "1", "d-2h")]
  {
    var s := "1d-2h";
    assert RunEnd(s, 0) == 5;
    assert DigitRun(s, 0, 5) == 1;
    assert MatchAt(s, 0) == Some(1);
    assert s[0..1] == "1" && s[1..5] == "d-2h";
    AtEnd(s);
  }

  /** A string without a quantity followed by a unit makes `convertMany`
    * throw `RangeError`. */
  lemma NoQuantity()
    ensures ConvertManyTo("h", "ms", None, Durations) == Failure(RangeError)
    ensures ConvertManyTo("", "ms", None, Durations) == Failure(RangeError)
  {
    var s := "h";
    assert RunEnd(s, 0) == 1;
    assert MatchAt(s, 0) == None;
    AtEnd(s);
    AtEnd("");
  }

  // ---------------------------------------------------------------------
  // `convertMany('1d 12h').to('hours') === 36`

  lemma DayHoursFirst()
    ensures FirstMatch("1d 12h", 0) == Some(Match(0, "1", "d"))
  {
    var s := "1d 12h";
    assert RunEnd(s, 0) == 2;
    assert DigitRun(s, 0, 2) == 1;
    assert MatchAt(s, 0) == Some(1);
    assert s[0..1] == "1" && s[1..2] == "d";
  }

  lemma DayHoursAt3()
    ensures RunEnd("1d 12h", 3) == 6 && MatchAt("1d 12h", 3) == Some(2)
  {
    var s := "1d 12h";
    assert RunEnd(s, 3) == 6;
    assert DigitRun(s, 3, 6) == 2;
  }

  lemma DayHoursSecond()
    ensures FirstMatch("1d 12h", 2) == Some(Match(3, "12", "h"))
  {
    var s := "1d 12h";
    SkipSpace(s, 2);
    DayHoursAt3();
    Found(s, 3, 2, 6);
    assert s[3..5] == "12" && s[5..6] == "h";
  }

  lemma TokensDayHours()
    ensures Tokenize("1d 12h") == [Match(0, "1", "d"), Match(3, "12", "h")]
  {
    DayHoursFirst();
    DayHoursSecond();
    AtEnd("1d 12h");
  }

  lemma ParseIntegers()
    ensures ParseQuantity("1") == 1.0 && ParseQuantity("2") == 2.0
    ensures ParseQuantity("12") == 12.0 && ParseQuantity("30") == 30.0
  {
    assert PointIndex("12") == None by { assert "12"[1..] == "2"; }
    assert DigitsValue("12") == 12 by { assert "12"[..1] == "1"; }
    assert PointIndex("30") == None by { assert "30"[1..] == "0"; }
    assert DigitsValue("30") == 30 by { assert "30"[..1] == "3"; }
  }

  lemma AddendsDayHours()
    ensures Addend(Match(0, "1", "d"), "hours", Durations) == Success(24.0)
    ensures Addend(Match(3, "12", "h"), "hours", Durations) == Success(12.0)
  {
    ParseIntegers();
    Factors();
  }

  lemma SumDayHours()
    ensures Aggregate([Match(0, "1", "d"), Match(3, "12", "h")], "hours", None, Durations) == Success(Plain(36.0))
  {
    AddendsDayHours();
    var tokens := [Match(0, "1", "d"), Match(3, "12", "h")];
    SumConvertedAppend([], tokens[0], "hours", Durations);
    SumConvertedAppend([tokens[0]], tokens[1], "hours", Durations);
    assert [tokens[0]] + [tokens[1]] == tokens;
  }

  lemma DayHoursInHours()
    ensures ConvertManyTo("1d 12h", "hours", None, Durations) == Success(Plain(36.0))
  {
    TokensDayHours();
    SumDayHours();
  }

  // ---------------------------------------------------------------------
  // `ms('1d 2h 30min') === 95400000`

  lemma ThreeTokensAt0()
    ensures RunEnd("1d 2h 30min", 0) == 2 && MatchAt("1d 2h 30min", 0) == Some(1)
  {
    var s := "1d 2h 30min";
    assert RunEnd(s, 0) == 2;
    assert DigitRun(s, 0, 2) == 1;
  }

  lemma ThreeTokensFrom0()
    ensures FirstMatch("1d 2h 30min", 0) == Some(Match(0, "1", "d"))
  {
    var s := "1d 2h 30min";
    ThreeTokensAt0();
    Found(s, 0, 1, 2);
    assert s[0..1] == "1" && s[1..2] == "d";
  }

  lemma ThreeTokensAt3()
    ensures RunEnd("1d 2h 30min", 3) == 5 && MatchAt("1d 2h 30min", 3) == Some(1)
  {
    var s := "1d 2h 30min";
    assert RunEnd(s, 3) == 5;
    assert DigitRun(s, 3, 5) == 1;
  }

  lemma ThreeTokensFrom2()
    ensures FirstMatch("1d 2h 30min", 2) == Some(Match(3, "2", "h"))
  {
    var s := "1d 2h 30min";
    SkipSpace(s, 2);
    ThreeTokensAt3();
    Found(s, 3, 1, 5);
    assert s[3..4] == "2" && s[4..5] == "h";
  }

  lemma ThreeTokensAt6()
    ensures RunEnd("1d 2h 30min", 6) == 11 && MatchAt("1d 2h 30min", 6) == Some(2)
  {
    var s := "1d 2h 30min";
    assert RunEnd(s, 6) == 11;
    assert DigitRun(s, 6, 11) == 2;
  }

  lemma ThreeTokensFrom5()
    ensures FirstMatch("1d 2h 30min", 5) == Some(Match(6, "30", "min"))
  {
    var s := "1d 2h 30min";
    SkipSpace(s, 5);
    ThreeTokensAt6();
    Found(s, 6, 2, 11);
    assert s[6..8] == "30" && s[8..11] == "min";
  }

  lemma TokensDayHoursMinutes()
    ensures Tokenize("1d 2h 30min") == [Match(0, "1", "d"), Match(3, "2", "h"), Match(6, "30", "min")]
  {
    ThreeTokensFrom0();
    ThreeTokensFrom2();
    ThreeTokensFrom5();
    AtEnd("1d 2h 30min");
  }

  lemma AddendsDayHoursMinutes()
    ensures Addend(Match(0, "1", "d"), "ms", Durations) == Success(86400000.0)
    ensures Addend(Match(3, "2", "h"), "ms", Durations) == Success(7200000.0)
    ensures Addend(Match(6, "30", "min"), "ms", Durations) == Success(1800000.0)
  {
    ParseIntegers();
    Factors();
  }

  lemma SumDayHoursPrefix()
    ensures SumConverted([Match(0, "1", "d"), Match(3, "2", "h")], "ms", Durations) == Success(93600000.0)
  {
    AddendsDayHoursMinutes();
    var t0, t1 := Match(0, "1", "d"), Match(3, "2", "h");
    SumConvertedAppend([], t0, "ms", Durations);
    SumConvertedAppend([t0], t1, "ms", Durations);
    assert [t0] + [t1] == [t0, t1];
  }

  lemma SumDayHoursMinutes()
    ensures Aggregate([Match(0, "1", "d"), Match(3, "2", "h"), Match(6, "30", "min")], "ms", None, Durations)
         == Success(Plain(95400000.0))
  {
    AddendsDayHoursMinutes();
    SumDayHoursPrefix();
    var prefix, last := [Match(0, "1", "d"), Match(3, "2", "h")], Match(6, "30", "min");
    SumConvertedAppend(prefix, last, "ms", Durations);
    assert prefix + [last] == [Match(0, "1", "d"), Match(3, "2", "h"), Match(6, "30", "min")];
  }

  lemma DayHoursMinutesInMs()
    ensures ConvertManyTo("1d 2h 30min", "ms", None, Durations) == Success(Plain(95400000.0))
  {
    TokensDayHoursMinutes();
    SumDayHoursMinutes();
  }

  /** `ms('1d 2h 30min')` through the handle and its loop. */
  method MsExample(pattern: SplitExpression) returns (r: Result<real, Error>)
    modifies pattern
    ensures r == Success(95400000.0)
  {
    DayHoursMinutesInMs();
    r := Ms("1d 2h 30min", pattern, Durations);
  }

  // ---------------------------------------------------------------------
  // A negative token: `"2d -1d"` in days is 1.

  lemma SignedAt0()
    ensures RunEnd("2d -1d", 0) == 2 && MatchAt("2d -1d", 0) == Some(1)
  {
    var s := "2d -1d";
    assert RunEnd(s, 0) == 2;
    assert DigitRun(s, 0, 2) == 1;
  }

  lemma SignedFrom0()
    ensures FirstMatch("2d -1d", 0) == Some(Match(0, "2", "d"))
  {
    var s := "2d -1d";
    SignedAt0();
    Found(s, 0, 1, 2);
    assert s[0..1] == "2" && s[1..2] == "d";
  }

  lemma SignedAt3()
    ensures RunEnd("2d -1d", 3) == 6 && MatchAt("2d -1d", 3) == Some(2)
  {
    var s := "2d -1d";
    assert RunEnd(s, 3) == 6;
    assert DigitRun(s, 4, 6) == 1;
  }

  lemma SignedFrom2()
    ensures FirstMatch("2d -1d", 2) == Some(Match(3, "-1", "d"))
  {
    var s := "2d -1d";
    SkipSpace(s, 2);
    SignedAt3();
    Found(s, 3, 2, 6);
    assert s[3..5] == "-1" && s[5..6] == "d";
  }

  lemma AddendsSigned()
    ensures Addend(Match(0, "2", "d"), "days", Durations) == Success(2.0)
    ensures Addend(Match(3, "-1", "d"), "days", Durations) == Success(-1.0)
  {
    ParseIntegers();
    assert "-1"[1..] == "1";
    assert ParseQuantity("-1") == -1.0;
    Factors();
  }

  lemma TokensSigned()
    ensures Tokenize("2d -1d") == [Match(0, "2", "d"), Match(3, "-1", "d")]
  {
    SignedFrom0();
    SignedFrom2();
    AtEnd("2d -1d");
  }

  lemma SumSigned()
    ensures Aggregate([Match(0, "2", "d"), Match(3, "-1", "d")], "days", None, Durations) == Success(Plain(1.0))
  {
    var tokens := [Match(0, "2", "d"), Match(3, "-1", "d")];
    AddendsSigned();
    SumConvertedAppend([], tokens[0], "days", Durations);
    SumConvertedAppend([tokens[0]], tokens[1], "days", Durations);
    assert [tokens[0]] + [tokens[1]] == tokens;
  }

  lemma NegativeToken()
    ensures ConvertManyTo("2d -1d", "days", None, Durations) == Success(Plain(1.0))
  {
    TokensSigned();
    SumSigned();
  }

  // ---------------------------------------------------------------------
  // `'best'`: `"30min 1h"` gives 1.5 h.

  lemma BestTokensAt0()
    ensures RunEnd("30min 1h", 0) == 5 && MatchAt("30min 1h", 0) == Some(2)
  {
    var s := "30min 1h";
    assert RunEnd(s, 0) == 5;
    assert DigitRun(s, 0, 5) == 2;
  }

  lemma BestTokensFrom0()
    ensures FirstMatch("30min 1h", 0) == Some(Match(0, "30", "min"))
  {
    var s := "30min 1h";
    BestTokensAt0();
    Found(s, 0, 2, 5);
    assert s[0..2] == "30" && s[2..5] == "min";
  }

  lemma BestTokensAt6()
    ensures RunEnd("30min 1h", 6) == 8 && MatchAt("30min 1h", 6) == Some(1)
  {
    var s := "30min 1h";
    assert RunEnd(s, 6) == 8;
    assert DigitRun(s, 6, 8) == 1;
  }

  lemma BestTokensFrom5()
    ensures FirstMatch("30min 1h", 5) == Some(Match(6, "1", "h"))
  {
    var s := "30min 1h";
    SkipSpace(s, 5);
    BestTokensAt6();
    Found(s, 6, 1, 8);
    assert s[6..7] == "1" && s[7..8] == "h";
  }

  lemma BestOfThirtyMinutes()
    ensures DurationBest(30.0, "min", None) == Success(BestConversion(30.0, "min"))
  {
    Factors();
  }

  lemma HourInMinutes()
    ensures Addend(Match(6, "1", "h"), "min", Durations) == Success(60.0)
  {
    ParseIntegers();
    Factors();
  }

  lemma BestOfNinetyMinutes()
    ensures DurationBest(90.0, "min", None) == Success(BestConversion(1.5, "h"))
  {
    Factors();
  }

  lemma TokensBest()
    ensures Tokenize("30min 1h") == [Match(0, "30", "min"), Match(6, "1", "h")]
  {
    BestTokensFrom0();
    BestTokensFrom5();
    AtEnd("30min 1h");
  }

  lemma SumBest()
    ensures Aggregate([Match(0, "30", "min"), Match(6, "1", "h")], "best", None, Durations)
         == Success(Best(BestConversion(1.5, "h")))
  {
    var tokens := [Match(0, "30", "min"), Match(6, "1", "h")];
    ParseIntegers();
    BestOfThirtyMinutes();
    HourInMinutes();
    BestOfNinetyMinutes();
    assert tokens[1..] == [tokens[1]];
    SumConvertedAppend([], tokens[1], "min", Durations);
    assert [] + [tokens[1]] == [tokens[1]];
  }

  /** The first token picks minutes, the hour is added as 60 minutes, and
    * the 90 minutes are re-expressed as 1.5 h. */
  lemma BestAnchorsFirstUnit()
    ensures ConvertManyTo("30min 1h", "best", None, Durations) == Success(Best(BestConversion(1.5, "h")))
  {
    TokensBest();
    SumBest();
  }
}
