/**
 * `convertMany`, the handle it returns with its `to` operation, and `ms`.
 *
 * The single-unit `convert` collaborator is a parameter: a pair of total
 * functions, one for `convert(q, u).to(target)` with a concrete target and
 * one for `convert(q, u).to('best', kind)`. Either may fail; a failure is
 * passed on unchanged and no partial result is returned.
 */
module ConvertMany {
  import opened Wrappers
  import opened Tokenizer

  /** What a conversion can fail with: the `RangeError` of `convertMany`
    * when nothing matches, or whatever the collaborator reports. */
  datatype Error = RangeError | ConversionError(reason: string)

  /** `BestConversion`: a quantity together with the unit chosen for it. */
  datatype BestConversion = BestConversion(quantity: real, unit: string)

  /** What `to` returns: a plain number for a concrete unit, a best
    * conversion for `'best'`. */
  datatype Converted = Plain(value: real) | Best(conversion: BestConversion)

  /** The `convert` collaborator. `best`'s last argument is the optional
    * `kind`. */
  datatype UnitConverter = UnitConverter(
    to: (real, string, string) -> Result<real, Error>,
    best: (real, string, Option<string>) -> Result<BestConversion, Error>)

  // ---------------------------------------------------------------------
  // `Number(text)` on a quantity capture, as exact decimal arithmetic.

  function DigitValue(c: char): nat { if IsDigit(c) then c as int - '0' as int else 0 }

  /** The value of a string of decimal digits. */
  function DigitsValue(w: string): nat
    decreases |w|
  {
    if w == [] then 0 else 10 * DigitsValue(w[..|w| - 1]) + DigitValue(w[|w| - 1])
  }

  function Pow10(n: nat): (p: nat)
    ensures 0 < p
  {
    if n == 0 then 1 else 10 * Pow10(n - 1)
  }

  /** The position of the first `.` in `w`, if any. */
  function PointIndex(w: string): (r: Option<nat>)
    ensures r.Some? ==> r.value < |w| && w[r.value] == '.'
    ensures r.Some? ==> forall k :: 0 <= k < r.value ==> w[k] != '.'
    ensures r.None? ==> forall k :: 0 <= k < |w| ==> w[k] != '.'
    decreases |w|
  {
    if w == [] then None
    else if w[0] == '.' then Some(0)
    else match PointIndex(w[1..])
      case None => None
      case Some(j) => Some(j + 1)
  }

  /** The value of `\d*\.?\d+`: integer part plus fraction. */
  function UnsignedValue(w: string): real {
    match PointIndex(w)
    case None => DigitsValue(w) as real
    case Some(j) => DigitsValue(w[..j]) as real + DigitsValue(w[j + 1..]) as real / Pow10(|w| - j - 1) as real
  }

  /** `Number(q)` for a quantity capture `q`. */
  function ParseQuantity(w: string): real {
    if |w| > 0 && w[0] == '-' then -UnsignedValue(w[1..]) else UnsignedValue(w)
  }

  /** A quantity with a leading `-` is the negation of the numeral after
    * the sign; one without is never negative. */
  lemma ParseQuantitySign(w: string)
    requires IsQuantityText(w)
    ensures w[0] == '-' ==> ParseQuantity(w) == -ParseQuantity(w[1..]) <= 0.0
    ensures w[0] != '-' ==> ParseQuantity(w) >= 0.0
  {
    if w[0] == '-' {
      UnsignedStart(w[1..]);
      assert w[1..][0] != '-';
    }
  }

  // ---------------------------------------------------------------------
  // The specification of `to`.

  /** The collaborator's conversion of one token into `target`. */
  function Addend(m: Match, target: string, convert: UnitConverter): Result<real, Error> {
    convert.to(ParseQuantity(m.quantity), m.unit, target)
  }

  /** `0` plus the addends of the tokens into `target`, accumulated in
    * token order; the first failing conversion is the result. */
  function SumConverted(tokens: seq<Match>, target: string, convert: UnitConverter): Result<real, Error>
    decreases |tokens|
  {
    if tokens == [] then Success(0.0)
    else
      match SumConverted(tokens[..|tokens| - 1], target, convert)
      case Failure(e) => Failure(e)
      case Success(total) =>
        match Addend(tokens[|tokens| - 1], target, convert)
        case Failure(e) => Failure(e)
        case Success(v) => Success(total + v)
  }

  /** Every token converts into `target`. */
  ghost predicate AllConvert(tokens: seq<Match>, target: string, convert: UnitConverter) {
    forall k :: 0 <= k < |tokens| ==> Addend(tokens[k], target, convert).Success?
  }

  /** A reference sum of the addends, taken from the front. */
  ghost function Total(tokens: seq<Match>, target: string, convert: UnitConverter): real
    requires AllConvert(tokens, target, convert)
    decreases |tokens|
  {
    if tokens == [] then 0.0
    else Addend(tokens[0], target, convert).value + Total(tokens[1..], target, convert)
  }

  /** One more token adds its addend to a successful sum. */
  lemma SumConvertedAppend(tokens: seq<Match>, m: Match, target: string, convert: UnitConverter)
    requires SumConverted(tokens, target, convert).Success? && Addend(m, target, convert).Success?
    ensures SumConverted(tokens + [m], target, convert)
         == Success(SumConverted(tokens, target, convert).value + Addend(m, target, convert).value)
  {
    assert (tokens + [m])[..|tokens|] == tokens;
  }

  /** Once a prefix of the tokens fails to convert, the whole sum fails
    * the same way, whatever follows. */
  lemma {:induction false} SumConvertedFailureStays(tokens: seq<Match>, rest: seq<Match>, target: string, convert: UnitConverter)
    requires SumConverted(tokens, target, convert).Failure?
    ensures SumConverted(tokens + rest, target, convert) == SumConverted(tokens, target, convert)
    decreases |rest|
  {
    if rest == [] {
      assert tokens + rest == tokens;
    } else {
      var init := rest[..|rest| - 1];
      SumConvertedFailureStays(tokens, init, target, convert);
      assert (tokens + rest)[..|tokens + rest| - 1] == tokens + init;
    }
  }

  /** The reference sum is additive over consecutive runs of tokens. */
  lemma {:induction false} TotalConcat(a: seq<Match>, b: seq<Match>, target: string, convert: UnitConverter)
    requires AllConvert(a, target, convert) && AllConvert(b, target, convert)
    ensures AllConvert(a + b, target, convert)
    ensures Total(a + b, target, convert) == Total(a, target, convert) + Total(b, target, convert)
    decreases |a|
  {
    assert forall k :: 0 <= k < |a + b| ==> (a + b)[k] == if k < |a| then a[k] else b[k - |a|];
    if a != [] {
      assert AllConvert(a[1..], target, convert) by {
        assert forall k :: 0 <= k < |a[1..]| ==> a[1..][k] == a[k + 1];
      }
      TotalConcat(a[1..], b, target, convert);
      assert (a + b)[1..] == a[1..] + b;
    } else {
      assert a + b == b;
    }
  }

  /** `SumConverted` succeeds exactly when every token converts, and its
    * value is then the reference sum: the loop's accumulation order does
    * not change the (exact) total. */
  lemma {:induction false} SumConvertedIsTotal(tokens: seq<Match>, target: string, convert: UnitConverter)
    ensures SumConverted(tokens, target, convert).Success? <==> AllConvert(tokens, target, convert)
    ensures AllConvert(tokens, target, convert) ==> SumConverted(tokens, target, convert).value == Total(tokens, target, convert)
    decreases |tokens|
  {
    if tokens != [] {
      var init := tokens[..|tokens| - 1];
      var last := tokens[|tokens| - 1];
      assert tokens == init + [last];
      assert forall k :: 0 <= k < |init| ==> init[k] == tokens[k];
      SumConvertedIsTotal(init, target, convert);
      if AllConvert(tokens, target, convert) {
        assert AllConvert(init, target, convert);
        assert AllConvert([last], target, convert);
        TotalConcat(init, [last], target, convert);
        assert Total([last], target, convert) == Addend(last, target, convert).value + Total([last][1..], target, convert);
        assert [last][1..] == [];
      } else if AllConvert(init, target, convert) {
        assert Addend(last, target, convert).Failure?;
      }
    }
  }

  /** A failing sum fails with the error of the first token that does not
    * convert. */
  lemma SumConvertedFirstFailure(tokens: seq<Match>, k: nat, target: string, convert: UnitConverter)
    requires k < |tokens| && AllConvert(tokens[..k], target, convert) && Addend(tokens[k], target, convert).Failure?
    ensures SumConverted(tokens, target, convert) == Failure(Addend(tokens[k], target, convert).error)
  {
    var upto := tokens[..k + 1];
    assert upto[..|upto| - 1] == tokens[..k];
    assert upto[|upto| - 1] == tokens[k];
    SumConvertedIsTotal(tokens[..k], target, convert);
    assert SumConverted(upto, target, convert) == Failure(Addend(tokens[k], target, convert).error);
    SumConvertedFailureStays(upto, tokens[k + 1..], target, convert);
    assert upto + tokens[k + 1..] == tokens;
  }

  /** What `to(unit, kind)` returns for the given tokens. For a concrete
    * unit: the sum of the tokens converted into it. For `'best'`: the first
    * token converted to `'best'` fixes the unit, the remaining tokens are
    * converted into that unit, and the total is converted to `'best'` with
    * the caller's `kind`. */
  function Aggregate(tokens: seq<Match>, unit: string, kind: Option<string>, convert: UnitConverter): Result<Converted, Error>
    requires tokens != []
  {
    if unit != "best" then
      match SumConverted(tokens, unit, convert)
      case Failure(e) => Failure(e)
      case Success(total) => Success(Plain(total))
    else
      var first := tokens[0];
      match convert.best(ParseQuantity(first.quantity), first.unit, None)
      case Failure(e) => Failure(e)
      case Success(anchor) =>
        match SumConverted(tokens[1..], anchor.unit, convert)
        case Failure(e) => Failure(e)
        case Success(rest) =>
          match convert.best(anchor.quantity + rest, anchor.unit, kind)
          case Failure(e) => Failure(e)
          case Success(b) => Success(Best(b))
  }

  /** For a concrete unit, `to` succeeds exactly when every token converts
    * into it, and returns the sum of the converted tokens. */
  lemma AggregateUnit(tokens: seq<Match>, unit: string, kind: Option<string>, convert: UnitConverter)
    requires tokens != [] && unit != "best"
    ensures Aggregate(tokens, unit, kind, convert).Success? <==> AllConvert(tokens, unit, convert)
    ensures AllConvert(tokens, unit, convert) ==> Aggregate(tokens, unit, kind, convert) == Success(Plain(Total(tokens, unit, convert)))
  {
    SumConvertedIsTotal(tokens, unit, convert);
  }

  /** For `'best'`: the first token's best conversion fixes the anchor unit;
    * every later token is converted into that unit (not to `'best'`); and
    * the anchor quantity plus their sum is converted to `'best'` with the
    * caller's `kind`. */
  lemma AggregateBest(tokens: seq<Match>, kind: Option<string>, convert: UnitConverter, anchor: BestConversion)
    requires tokens != []
    requires convert.best(ParseQuantity(tokens[0].quantity), tokens[0].unit, None) == Success(anchor)
    requires AllConvert(tokens[1..], anchor.unit, convert)
    ensures Aggregate(tokens, "best", kind, convert) ==
      match convert.best(anchor.quantity + Total(tokens[1..], anchor.unit, convert), anchor.unit, kind)
      case Failure(e) => Failure(e)
      case Success(b) => Success(Best(b))
  {
    SumConvertedIsTotal(tokens[1..], anchor.unit, convert);
  }

  /** For `'best'`, when a later token does not convert into the anchor
    * unit, the first such failure is the result. */
  lemma AggregateBestFailure(tokens: seq<Match>, k: nat, kind: Option<string>, convert: UnitConverter, anchor: BestConversion)
    requires 1 <= k < |tokens|
    requires convert.best(ParseQuantity(tokens[0].quantity), tokens[0].unit, None) == Success(anchor)
    requires AllConvert(tokens[1..k], anchor.unit, convert) && Addend(tokens[k], anchor.unit, convert).Failure?
    ensures Aggregate(tokens, "best", kind, convert) == Failure(Addend(tokens[k], anchor.unit, convert).error)
  {
    var later := tokens[1..];
    assert later[..k - 1] == tokens[1..k];
    assert later[k - 1] == tokens[k];
    SumConvertedFirstFailure(later, k - 1, anchor.unit, convert);
  }

  /** What `convertMany(value).to(unit, kind)` evaluates to. */
  function ConvertManyTo(value: string, unit: string, kind: Option<string>, convert: UnitConverter): Result<Converted, Error> {
    var tokens := Tokenize(value);
    if tokens == [] then Failure(RangeError) else Aggregate(tokens, unit, kind, convert)
  }

  /** One pass of the loop in `to` over token `m`, from the values
    * `result` and `resolvedUnit` had before it. */
  function Pass(m: Match, unit: string, isFirstPass: bool, result: real, resolvedUnit: string, convert: UnitConverter): Result<(real, string), Error> {
    var quantity := ParseQuantity(m.quantity);
    if unit == "best" && isFirstPass then
      match convert.best(quantity, m.unit, None)
      case Failure(e) => Failure(e)
      case Success(anchor) => Success((result + anchor.quantity, anchor.unit))
    else
      match convert.to(quantity, m.unit, if unit == "best" then resolvedUnit else unit)
      case Failure(e) => Failure(e)
      case Success(v) => Success((result + v, resolvedUnit))
  }

  /** The values of `result` and `resolvedUnit` once the loop in `to` has
    * run over the tokens `done`, or the failure that ended it. */
  ghost function Progress(done: seq<Match>, unit: string, convert: UnitConverter): Result<(real, string), Error>
    decreases |done|
  {
    if done == [] then Success((0.0, ""))
    else
      match Progress(done[..|done| - 1], unit, convert)
      case Failure(e) => Failure(e)
      case Success(state) => Pass(done[|done| - 1], unit, unit != "best" || |done| == 1, state.0, state.1, convert)
  }

  /** `Progress` read without the loop: for a concrete unit the running sum,
    * for `'best'` the first token's best conversion plus the sum of the
    * others in its unit. */
  ghost function Partial(done: seq<Match>, unit: string, convert: UnitConverter): Result<(real, string), Error> {
    if unit != "best" then
      match SumConverted(done, unit, convert)
      case Failure(e) => Failure(e)
      case Success(total) => Success((total, ""))
    else if done == [] then Success((0.0, ""))
    else
      match convert.best(ParseQuantity(done[0].quantity), done[0].unit, None)
      case Failure(e) => Failure(e)
      case Success(anchor) =>
        match SumConverted(done[1..], anchor.unit, convert)
        case Failure(e) => Failure(e)
        case Success(rest) => Success((anchor.quantity + rest, anchor.unit))
  }

  /** One more pass after a successful prefix, read through `Partial`. */
  lemma PartialNext(done: seq<Match>, m: Match, unit: string, convert: UnitConverter)
    requires Partial(done, unit, convert).Success?
    ensures var state := Partial(done, unit, convert).value;
      Partial(done + [m], unit, convert) == Pass(m, unit, unit != "best" || done == [], state.0, state.1, convert)
  {
    assert (done + [m])[..|done|] == done;
    if unit == "best" {
      if done == [] {
        assert [m][1..] == [];
      } else {
        var prior := done[1..];
        assert (done + [m])[0] == done[0];
        assert (done + [m])[1..] == prior + [m];
        assert (prior + [m])[..|prior|] == prior;
      }
    }
  }

  /** A failure stays a failure when more tokens follow. */
  lemma PartialFailureStays(done: seq<Match>, rest: seq<Match>, unit: string, convert: UnitConverter)
    requires done != [] && Partial(done, unit, convert).Failure?
    ensures Partial(done + rest, unit, convert) == Partial(done, unit, convert)
  {
    if unit != "best" {
      SumConvertedFailureStays(done, rest, unit, convert);
    } else {
      assert (done + rest)[0] == done[0];
      assert (done + rest)[1..] == done[1..] + rest;
      match convert.best(ParseQuantity(done[0].quantity), done[0].unit, None)
      case Failure(e) =>
      case Success(anchor) => SumConvertedFailureStays(done[1..], rest, anchor.unit, convert);
    }
  }

  /** The loop's running state is `Partial`. */
  lemma {:induction false} ProgressIsPartial(done: seq<Match>, unit: string, convert: UnitConverter)
    ensures Progress(done, unit, convert) == Partial(done, unit, convert)
    decreases |done|
  {
    if done != [] {
      var init := done[..|done| - 1];
      var m := done[|done| - 1];
      assert done == init + [m];
      ProgressIsPartial(init, unit, convert);
      if Partial(init, unit, convert).Success? {
        PartialNext(init, m, unit, convert);
      } else {
        PartialFailureStays(init, [m], unit, convert);
      }
    }
  }

  /** A failure is final: `to` stops with it whatever tokens are left. */
  lemma ProgressFailureIsFinal(done: seq<Match>, rest: seq<Match>, unit: string, kind: Option<string>, convert: UnitConverter)
    requires done != [] && Progress(done, unit, convert).Failure?
    ensures Aggregate(done + rest, unit, kind, convert) == Failure(Progress(done, unit, convert).error)
  {
    ProgressIsPartial(done, unit, convert);
    PartialFailureStays(done, rest, unit, convert);
  }

  /** After the last token, `to` returns the sum, or its `'best'`
    * conversion in the resolved unit. */
  lemma ProgressComplete(all: seq<Match>, unit: string, kind: Option<string>, convert: UnitConverter)
    requires all != [] && Progress(all, unit, convert).Success?
    ensures var state := Progress(all, unit, convert).value;
      Aggregate(all, unit, kind, convert) ==
        if unit != "best" then Success(Plain(state.0))
        else match convert.best(state.0, state.1, kind)
          case Failure(e) => Failure(e)
          case Success(b) => Success(Best(b))
  {
    ProgressIsPartial(all, unit, convert);
  }

  // ---------------------------------------------------------------------
  // The handle.

  /** One pass of the loop in `to`: convert the token, to `'best'` on the
    * first pass of a `'best'` aggregation and to the target (or the anchor
    * unit) otherwise, and add it to the running total. When `result` and
    * `resolvedUnit` are the declarative reading of the tokens `done`, the
    * pass yields the declarative reading of `done + [m]`. */
  method Step(m: Match, unit: string, isBest: bool, isFirstPass: bool, result: real, resolvedUnit: string, convert: UnitConverter, ghost done: seq<Match>)
    returns (r: Result<(real, string), Error>)
    requires isBest <==> unit == "best"
    requires isFirstPass <==> (!isBest || done == [])
    requires Partial(done, unit, convert) == Success((result, resolvedUnit))
    ensures r == Partial(done + [m], unit, convert)
  {
    PartialNext(done, m, unit, convert);
    var quantity := ParseQuantity(m.quantity);
    if isBest && isFirstPass {
      var converted := convert.best(quantity, m.unit, None);
      if converted.Failure? {
        return Failure(converted.error);
      }
      return Success((result + converted.value.quantity, converted.value.unit));
    }
    var converted := convert.to(quantity, m.unit, if isBest then resolvedUnit else unit);
    if converted.Failure? {
      return Failure(converted.error);
    }
    return Success((result + converted.value, resolvedUnit));
  }

  /** The object `to` is bound to: the current match (`Search`), the
    * parsed string (`Value`), and the shared pattern whose cursor `to`
    * advances. */
  class Converter {
    var search: Option<Match>
    const value: string
    const pattern: SplitExpression

    constructor (search: Option<Match>, value: string, pattern: SplitExpression)
      ensures this.search == search && this.value == value && this.pattern == pattern
    {
      this.search := search;
      this.value := value;
      this.pattern := pattern;
    }

    /** The tokens `to` will still process: the current match, then every
      * match the shared cursor goes on to find. */
    ghost function Pending(): seq<Match>
      reads this, pattern
    {
      match search
      case None => []
      case Some(m) => [m] + Scan(value, pattern.lastIndex)
    }

    /** `this[Search] = splitExpression.exec(this[Value])`: move on to the
      * next token, leaving the cursor at 0 after the last one. */
    method Advance()
      requires search.Some?
      modifies this, pattern
      ensures Pending() == old(Pending())[1..]
      ensures search.None? ==> pattern.lastIndex == 0
    {
      ghost var from := pattern.lastIndex;
      search := pattern.Exec(value);
      assert old(Pending())[1..] == Scan(value, from);
    }

    /** `to(unit, kind)`: a do-while loop over the token stream. `passes`
      * counts the loop's iterations. */
    method To(unit: string, kind: Option<string>, convert: UnitConverter) returns (r: Result<Converted, Error>, ghost passes: nat)
      requires search.Some?
      modifies this, pattern
      ensures r == Aggregate(old(Pending()), unit, kind, convert)
      ensures r.Success? ==> search == None && pattern.lastIndex == 0 && passes == |old(Pending())|
    {
      var isBest := unit == "best";
      var result := 0.0;
      var resolvedUnit := "";
      var isFirstPass := true;
      ghost var all := Pending();
      ghost var done: seq<Match> := [];
      passes := 0;
      // a do-while loop: the precondition supplies the first match
      while search.Some?
        invariant search.None? ==> pattern.lastIndex == 0
        invariant all == done + Pending()
        invariant passes == |done|
        invariant isFirstPass <==> (!isBest || done == [])
        invariant Progress(done, unit, convert) == Success((result, resolvedUnit))
        decreases |Pending()|
      {
        var m := search.value;
        ghost var rest := Pending()[1..];
        assert Pending() == [m] + rest;
        assert all == (done + [m]) + rest;
        ProgressIsPartial(done, unit, convert);
        var next := Step(m, unit, isBest, isFirstPass, result, resolvedUnit, convert, done);
        ProgressIsPartial(done + [m], unit, convert);
        if next.Failure? {
          ProgressFailureIsFinal(done + [m], rest, unit, kind, convert);
          return Failure(next.error), passes;
        }
        result, resolvedUnit := next.value.0, next.value.1;
        if isBest {
          isFirstPass := false;
        }
        done := done + [m];
        passes := passes + 1;
        Advance();
      }
      assert all == done;
      ProgressComplete(all, unit, kind, convert);
      if isBest {
        var converted := convert.best(result, resolvedUnit, kind);
        if converted.Failure? {
          return Failure(converted.error), passes;
        }
        return Success(Best(converted.value)), passes;
      }
      return Success(Plain(result)), passes;
    }
  }

  /** `convertMany(value)`: reset the cursor, take the first match eagerly,
    * and fail with `RangeError` when there is none. */
  method ConvertMany(value: string, pattern: SplitExpression) returns (r: Result<Converter, Error>)
    modifies pattern
    ensures r.Failure? <==> NoMatchFrom(value, 0)
    ensures r.Failure? <==> Tokenize(value) == []
    ensures r.Failure? ==> r.error == RangeError && pattern.lastIndex == 0
    ensures r.Success? ==> r.value.search.Some? && IsLeftmostLongest(value, 0, r.value.search.value)
    ensures r.Success? ==> && fresh(r.value) && r.value.value == value && r.value.pattern == pattern
                           && r.value.search == FirstMatch(value, 0)
                           && r.value.Pending() == Tokenize(value)
    ensures r.Success? ==> 2 * |r.value.Pending()| <= |value|
  {
    pattern.lastIndex := 0;
    var search := pattern.Exec(value);
    FirstMatchCorrect(value, 0);
    ScanBound(value, 0);
    if search.None? {
      return Failure(RangeError);
    }
    var handle := new Converter(search, value, pattern);
    return Success(handle);
  }

  /** `ms(value)`: `convertMany(value).to('ms')`. */
  method Ms(value: string, pattern: SplitExpression, convert: UnitConverter) returns (r: Result<real, Error>)
    modifies pattern
    ensures ConvertManyTo(value, "ms", None, convert) == match r
      case Success(v) => Success(Plain(v))
      case Failure(e) => Failure(e)
  {
    var handle :- ConvertMany(value, pattern);
    var converted, _ := handle.To("ms", None, convert);
    match converted
    case Failure(e) =>
      return Failure(e);
    case Success(c) =>
      return Success(c.value);
  }
}
