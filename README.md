# convertMany: parsing and summing multi-unit quantity strings

This project models `src/convert-many.ts`. That file turns a string such as
`"1d 12h 30min"` into a single number in one unit. It has three parts:

- **Tokenizer.** A global regular expression `/(-?(?:\d+)?\.?\d+)(\S+)/g`
  with a mutable `lastIndex` cursor. Each `exec` returns the next
  quantity–unit pair.
- **`convertMany(value)`.** It resets the cursor, takes the first match or
  throws `RangeError`, and returns a handle bound to that match and the
  string.
- **`to(unit, kind)`.** A do-while loop. Each pass converts the current
  token with the single-unit `convert` collaborator, adds it to a running
  total, and calls `exec` again. When `unit` is `'best'`, the first token
  is converted to `'best'`. The unit chosen for it is then the target of
  every later token, and the total is converted to `'best'` once more with
  the caller's `kind`.

`ms(value)` is `convertMany(value).to('ms')`.

The model has four modules:

- **`Wrappers`** (`wrappers.dfy`): `Option` and `Result`.
- **`Tokenizer`** (`tokenizer.dfy`). It describes the regular expression in
  two ways:
  - declaratively: `IsMatchAt`, `IsLeftmostLongest`, `IsTokenization`;
  - as a scanner: `RunEnd`, `DigitRun`, `UnsignedAt`, `MatchAt`,
    `FirstMatch`, `Scan`.

  The lemmas prove the two agree. The scanner works like this:
  - the match starts at the leftmost position at or after the cursor;
  - the unit capture `\S+` is greedy, so a match always ends at the next
    whitespace or at the end of the string;
  - the quantity capture is the longest `-?\d*\.?\d+` text that still
    leaves one character for the unit. That is where the backtracking
    matcher settles, because the greedy quantifiers give back as little as
    possible;
  - a leading `-` is only taken when an unsigned numeral follows it.

  `SplitExpression` is the regular-expression object. Its only field is
  `lastIndex`, and its `Exec` method is a search loop proved equal to
  `FirstMatch`.
- **`ConvertMany`** (`convert_many.dfy`):
  - `Converter` is the handle. It holds the current match (`search`), the
    string (`value`) and a reference to the shared pattern.
  - `Converter.To` is the do-while loop. It is proved against the
    specification function `Aggregate`.
  - The file also holds the `ConvertMany` and `Ms` methods.
- **`Examples`** (`examples.dfy`). It proves the documented examples
  with a concrete duration collaborator.

`convert` from `./convert.js` is outside this model. It becomes a
parameter `UnitConverter` with two total functions:
- `to(q, from, target)` for a concrete target unit;
- `best(q, from, kind)` for `'best'`.

Either function may fail. A failure propagates unchanged, and no partial
sum is returned.

Quantities are `real`. `Number(text)` on a quantity capture is exact
decimal parsing (`ParseQuantity`).

Some consequences of the code that the model makes explicit:
- **A second `to` on one handle.** When `to` ends, the last `exec` has
  failed, so the handle's stored match is `null` and the shared cursor is
  0 (src/convert-many.ts:53-54). A second `to` would read a property of
  `null`, so `Converter.To` requires a current match.
- **`"1d-2h"`.** The greedy `\S+` makes it one token, quantity `1` and
  unit `d-2h` (`SignInsideUnit`).
- **Where the unit stops.** The unit runs to the next whitespace or the
  end of the string, digits included, so `"1d12h"` is one token with unit
  `d12h` (`GreedyUnit`).
- **The cursor.** The pattern is one module-level object
  (src/convert-many.ts:16), so its `lastIndex` is shared by every handle.
  The model passes that object by reference to `ConvertMany`, and the
  handle keeps it.

## Model

| member | source | states |
|---|---|---|
| Tokenizer.RunEndBounds | src/convert-many.ts:16 | the unit run from a position holds no whitespace and ends at whitespace or at the end of the string (greedy `\S+`) |
| Tokenizer.DigitRunBounds | src/convert-many.ts:16 | the counted characters are all digits and the count stops at a non-digit or at the bound (greedy `\d+`) |
| Tokenizer.UnsignedAtSound | src/convert-many.ts:16 | what the scanner takes for `(?:\d+)?\.?\d+` is an unsigned numeral |
| Tokenizer.UnsignedAtLongest | src/convert-many.ts:16 | every unsigned numeral at a position that leaves a unit character is no longer than what the scanner takes |
| Tokenizer.MatchAtSound | src/convert-many.ts:16 | a match the scanner finds at a position is a quantity text followed by a non-empty unit |
| Tokenizer.MatchAtLongest | src/convert-many.ts:16 | if the pattern can match at a position, the scanner finds a match there with the longest possible quantity |
| Tokenizer.FirstMatchCorrect | src/convert-many.ts:16 | `FirstMatch` from a cursor is None exactly when no match starts at or after the cursor, and otherwise is the leftmost-longest match |
| Tokenizer.SplitExpression.Exec | src/convert-many.ts:53 | `exec` on the global pattern returns `FirstMatch` from `lastIndex`; on success it moves `lastIndex` to the end of the match, and on failure it resets it to 0 |
| Tokenizer.ScanIsTokenization | src/convert-many.ts:53-54 | the matches returned by repeated `exec` calls are the declarative tokenization: each is leftmost-longest from the end of the previous one, and nothing matches after the last |
| Tokenizer.TokenizationUnique | src/convert-many.ts:16 | a string has exactly one tokenization from a given cursor |
| Tokenizer.LeftmostLongestUnique | src/convert-many.ts:16 | there is at most one leftmost-longest match from a cursor |
| Tokenizer.TokenizationEmpty | src/convert-many.ts:16 | a tokenization is empty exactly when nothing matches from its cursor |
| Tokenizer.TokenizeEmpty | src/convert-many.ts:76-79 | the token list of a string is empty exactly when the pattern matches nowhere from index 0 |
| Tokenizer.ScanOrdered | src/convert-many.ts:53 | the tokens lie strictly left to right: each starts at or after the cursor and before its end, which is within the string, and each ends at or before the next one starts |
| Tokenizer.ScanBound | src/convert-many.ts:39-54 | there are at most half as many tokens as characters after the cursor, so the loop in `to` runs at most `|value| / 2` times |
| Tokenizer.QuantityEndsInDigit | src/convert-many.ts:16 | a quantity text is non-empty and ends in a digit |
| Tokenizer.MatchShape | src/convert-many.ts:16 | a match has a quantity text ending in a digit and a non-empty unit without whitespace; together they are the input from the match start to its end, which is at whitespace or at the end of the string |
| Tokenizer.TokenShape | src/convert-many.ts:16 | every token of a scan has the shape stated by `MatchShape` |
| Tokenizer.TokenCursor | src/convert-many.ts:53 | each token of a tokenization is the leftmost-longest match from some cursor |
| ConvertMany.ParseQuantitySign | src/convert-many.ts:41 | `Number` of a quantity with a leading `-` is the negation of the numeral after the sign and is never positive; without the sign it is never negative |
| ConvertMany.TotalConcat | src/convert-many.ts:50 | the sum of converted tokens is additive over consecutive runs of tokens |
| ConvertMany.SumConvertedIsTotal | src/convert-many.ts:35-50 | the running sum starts at 0 and succeeds exactly when every token converts into the target. It then equals the sum of the converted tokens |
| ConvertMany.SumConvertedFailureStays | src/convert-many.ts:40-43 | once a token fails to convert, later tokens do not change the outcome |
| ConvertMany.SumConvertedFirstFailure | src/convert-many.ts:40-43 | a failing sum fails with the error of the first token that does not convert |
| ConvertMany.AggregateUnit | src/convert-many.ts:35-60 | for a concrete unit, `to` succeeds exactly when every token converts into it, and returns the sum of the converted quantities |
| ConvertMany.AggregateBest | src/convert-many.ts:43-57 | for `'best'`: the first token's best conversion fixes the anchor unit, every later token is converted into that unit, and the anchor quantity plus that sum is converted to `'best'` with `kind` |
| ConvertMany.AggregateBestFailure | src/convert-many.ts:43-50 | for `'best'`, the first later token that does not convert into the anchor unit decides the failure |
| ConvertMany.ProgressIsPartial | src/convert-many.ts:35-54 | after any number of passes, the loop's `result` and `resolvedUnit` are the anchor plus the sum of the tokens done so far, or the first failure |
| ConvertMany.ProgressFailureIsFinal | src/convert-many.ts:40-43 | a conversion failure in some pass is the result of `to`, whatever tokens remain |
| ConvertMany.ProgressComplete | src/convert-many.ts:56-60 | after the last token, `to` returns the total, or for `'best'` its best conversion in the resolved unit with `kind` |
| ConvertMany.Step | src/convert-many.ts:40-51 | from a running total and resolved unit that are the anchor plus the sum of the tokens done so far, one pass over the next token gives the anchor plus the sum of the tokens done including it, or the first failure, as the declarative reading `Partial` states it |
| ConvertMany.Converter.constructor | src/convert-many.ts:88-93 | the handle holds the first match, the string and the shared pattern |
| ConvertMany.Converter.Advance | src/convert-many.ts:53 | `exec` moves the handle to the next of its pending tokens and leaves the cursor at 0 after the last |
| ConvertMany.Converter.To | src/convert-many.ts:32-61 | the do-while loop returns `Aggregate` of the tokens pending on entry; on success the stored match is null, the cursor is 0, and the body ran once per token |
| ConvertMany.ConvertMany | src/convert-many.ts:75-94 | `RangeError`, with the cursor at 0, exactly when the pattern matches nowhere in the string; otherwise a new handle whose match is the leftmost-longest one from index 0 and whose pending tokens are the whole token list, at most half the string's length |
| ConvertMany.Ms | src/convert-many.ts:114-116 | `ms(value)` returns what `convertMany(value).to('ms')` evaluates to |
| Examples.DecimalQuantity | src/convert-many.ts:16 | `"1.5h"` is one token, quantity `1.5` and unit `h` |
| Examples.DigitUnit | src/convert-many.ts:16 | `"12"` is one token, quantity `1` and unit `2` |
| Examples.GreedyUnit | src/convert-many.ts:16 | `"1d12h"` is one token, quantity `1` and unit `d12h` |
| Examples.SignInsideUnit | src/convert-many.ts:16 | `"1d-2h"` is one token, quantity `1` and unit `d-2h` |
| Examples.NoQuantity | src/convert-many.ts:79-84 | `convertMany` fails with `RangeError` on `"h"` and on `""` |
| Examples.DayHoursInHours | src/convert-many.ts:68 | `convertMany('1d 12h').to('hours')` is 36 |
| Examples.DayHoursMinutesInMs | src/convert-many.ts:105 | `convertMany('1d 2h 30min').to('ms')` is 95400000 |
| Examples.MsExample | src/convert-many.ts:105 | `ms('1d 2h 30min')` returns 95400000 through the handle and its loop |
| Examples.NegativeToken | src/convert-many.ts:41-50 | `"2d -1d"` in days is 1: a signed token is summed as a negative addend |
| Examples.BestAnchorsFirstUnit | src/convert-many.ts:43-57 | `"30min 1h"` to `'best'`: minutes are chosen first, the hour is added as 60 minutes, and the 90 minutes come back as 1.5 h |

## Left out

- The unit table, conversion factors and best-unit rules of `./convert.js` are not part of this model. `convert` is the parameter `UnitConverter`. The duration factors in `Examples` exist only to evaluate the documented examples.
- IEEE-754 arithmetic. `Number()` and `+=` are modelled as exact decimal parsing and exact `real` addition, so rounding is not captured.
- The `__DEV__` message text of the `RangeError`, the minified property names, `Function.prototype.bind` and the TypeScript casts are left out. They do not change behaviour. The error is modelled as the value `RangeError`.
- Several live handles over the one module-level pattern are not modelled. Each operation is verified for one handle at a time, and the shared cursor is explicit state.
- A second `to` on a handle whose last `to` completed is not modelled. The code would read a property of `null` there; `Converter.To` requires a current match.
- ConvertMany.Converter.To: on a failed conversion the model states the result, but not where the stored match and the cursor are left. The source throws at that point, after the failing pass's `convert` call.
- Strings are sequences of Unicode scalar values, not UTF-16 code units. `\s` is the ECMAScript set of white-space and line-terminator code points.
