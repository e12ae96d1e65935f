/**
 * The tokenizer of `convertMany`: the global pattern
 * `/(-?(?:\d+)?\.?\d+)(\S+)/g` and its `lastIndex` cursor.
 *
 * The pattern is modelled in two ways. `IsMatchAt` and `IsLeftmostLongest`
 * say declaratively which matches `exec` may return: the leftmost start at
 * or after the cursor, the longest quantity text at that start that leaves
 * at least one character for the unit, and a unit that runs greedily to the
 * next whitespace. `MatchAt` and `FirstMatch` compute that match by
 * scanning, and the lemmas below prove the two agree.
 */
module Tokenizer {
  import opened Wrappers

  /** A successful `exec`: where the match starts, capture group 1 (the
    * quantity text) and capture group 2 (the unit text). */
  datatype Match = Match(index: nat, quantity: string, unit: string) {
    /** The index just past the whole match: `lastIndex` after the `exec`. */
    function End(): nat { index + |quantity| + |unit| }
  }

  /** `\d` */
  predicate IsDigit(c: char) { '0' <= c <= '9' }

  /** `\s`: the white-space and line-terminator code points of ECMAScript. */
  predicate IsSpace(c: char) {
    var n := c as int;
    n == 0x09 || n == 0x0A || n == 0x0B || n == 0x0C || n == 0x0D || n == 0x20 ||
    n == 0xA0 || n == 0x1680 || (0x2000 <= n <= 0x200A) || n == 0x2028 || n == 0x2029 ||
    n == 0x202F || n == 0x205F || n == 0x3000 || n == 0xFEFF
  }

  predicate AllDigits(w: string) { forall k :: 0 <= k < |w| ==> IsDigit(w[k]) }

  predicate NoSpace(w: string) { forall k :: 0 <= k < |w| ==> !IsSpace(w[k]) }

  /** Text matched by `(?:\d+)?\.?\d+`: digits, or digits, a point and at least one digit. */
  predicate IsUnsignedNumeral(w: string) {
    || (|w| > 0 && AllDigits(w))
    || (exists j :: 0 <= j < |w| - 1 && w[j] == '.' && AllDigits(w[..j]) && AllDigits(w[j + 1..]))
  }

  /** Text matched by capture group 1, `-?(?:\d+)?\.?\d+`. */
  predicate IsQuantityText(w: string) {
    IsUnsignedNumeral(w) || (|w| > 0 && w[0] == '-' && IsUnsignedNumeral(w[1..]))
  }

  /** The end of the run of non-whitespace characters that starts at `i`. */
  function RunEnd(s: string, i: nat): (e: nat)
    requires i <= |s|
    ensures i <= e <= |s|
    decreases |s| - i
  {
    if i == |s| || IsSpace(s[i]) then i else RunEnd(s, i + 1)
  }

  /** The run from `i` holds no whitespace and stops at whitespace or at
    * the end of the string. */
  lemma {:induction false} RunEndBounds(s: string, i: nat)
    requires i <= |s|
    ensures forall k :: i <= k < RunEnd(s, i) ==> !IsSpace(s[k])
    ensures RunEnd(s, i) < |s| ==> IsSpace(s[RunEnd(s, i)])
    decreases |s| - i
  {
    if i < |s| && !IsSpace(s[i]) {
      RunEndBounds(s, i + 1);
    }
  }

  /** The number of consecutive digits from `i`, looking no further than `end`. */
  function DigitRun(s: string, i: nat, end: nat): (n: nat)
    requires i <= end <= |s|
    ensures i + n <= end
    decreases end - i
  {
    if i == end || !IsDigit(s[i]) then 0 else 1 + DigitRun(s, i + 1, end)
  }

  /** The counted characters are digits, and the count stops at a
    * non-digit or at `end`. */
  lemma {:induction false} DigitRunBounds(s: string, i: nat, end: nat)
    requires i <= end <= |s|
    ensures forall k :: i <= k < i + DigitRun(s, i, end) ==> IsDigit(s[k])
    ensures i + DigitRun(s, i, end) < end ==> !IsDigit(s[i + DigitRun(s, i, end)])
    decreases end - i
  {
    if i < end && IsDigit(s[i]) {
      DigitRunBounds(s, i + 1, end);
    }
  }

  /** The smaller of `a` and `b`. */
  function Min(a: int, b: int): int { if a <= b then a else b }

  /** An attempt to match `(?:\d+)?\.?\d+` at `a` that leaves at least one
    * character before `e` for `\S+`: the length taken, as the backtracking
    * matcher settles it. */
  function UnsignedAt(s: string, a: nat, e: nat): (r: Option<nat>)
    requires a <= e <= |s|
    ensures r.Some? ==> 0 < r.value && a + r.value < e
  {
    var d := DigitRun(s, a, e);
    if a + d + 2 < e && s[a + d] == '.' && DigitRun(s, a + d + 1, e) > 0 then
      // all leading digits, the point, and as many digits as leave a unit
      Some(d + 1 + Min(DigitRun(s, a + d + 1, e), e - (a + d + 2)))
    else if 0 < d && a + d < e then
      Some(d)
    else if 1 < d then
      // the digits run to the end: give the last one to the unit
      Some(d - 1)
    else
      None
  }

  /** An attempt to match the whole pattern starting exactly at `i`: the
    * length of the quantity capture, or None when no match starts there. */
  function MatchAt(s: string, i: nat): (r: Option<nat>)
    ensures r.Some? ==> i < |s| && 0 < r.value && i + r.value < RunEnd(s, i)
  {
    if i >= |s| then None
    else
      var e := RunEnd(s, i);
      var sign := if s[i] == '-' then 1 else 0;
      match UnsignedAt(s, i + sign, e)
      case None => None
      case Some(n) => Some(sign + n)
  }

  /** The pattern can match at `i` with a quantity capture of length `q`
    * (the unit capture is then the rest of the non-whitespace run). */
  ghost predicate IsMatchAt(s: string, i: nat, q: nat) {
    i < |s| && i + q < RunEnd(s, i) && IsQuantityText(s[i..i + q])
  }

  /** No match starts at or after `from`. */
  ghost predicate NoMatchFrom(s: string, from: nat) {
    forall i: nat, q: nat :: from <= i ==> !IsMatchAt(s, i, q)
  }

  /** `m` is what `exec` returns from cursor `from`: the leftmost start, the
    * longest quantity there, and a unit up to the next whitespace or the end. */
  ghost predicate IsLeftmostLongest(s: string, from: nat, m: Match) {
    && from <= m.index
    && IsMatchAt(s, m.index, |m.quantity|)
    && m.quantity == s[m.index..m.index + |m.quantity|]
    && m.unit == s[m.index + |m.quantity|..RunEnd(s, m.index)]
    && (forall i: nat, q: nat :: from <= i < m.index ==> !IsMatchAt(s, i, q))
    && (forall q: nat :: IsMatchAt(s, m.index, q) ==> q <= |m.quantity|)
  }

  /** The match `exec` finds when the cursor is at `from`. */
  function FirstMatch(s: string, from: nat): (r: Option<Match>)
    ensures r.Some? ==> && from <= r.value.index < |s|
                        && 0 < |r.value.quantity| && 0 < |r.value.unit|
                        && r.value.End() == RunEnd(s, r.value.index)
    decreases |s| - from
  {
    if from >= |s| then None
    else
      match MatchAt(s, from)
      case Some(q) => Some(Match(from, s[from..from + q], s[from + q..RunEnd(s, from)]))
      case None => FirstMatch(s, from + 1)
  }

  /** The successive matches `exec` returns from cursor `from`, up to the
    * first failing call. */
  function Scan(s: string, from: nat): seq<Match>
    decreases |s| - from
  {
    match FirstMatch(s, from)
    case None => []
    case Some(m) => [m] + Scan(s, m.End())
  }

  /** The tokens of `value`: the matches found from a cursor reset to 0. */
  function Tokenize(value: string): seq<Match> { Scan(value, 0) }

  /** The declarative reading of repeated `exec` calls: each match is the
    * leftmost-longest one from the end of the previous match, and after the
    * last one nothing matches. */
  ghost predicate IsTokenization(s: string, from: nat, ts: seq<Match>)
    decreases |ts|
  {
    if ts == [] then NoMatchFrom(s, from)
    else IsLeftmostLongest(s, from, ts[0]) && IsTokenization(s, ts[0].End(), ts[1..])
  }

  /** The global regular expression object; its only state is the cursor. */
  class SplitExpression {
    var lastIndex: nat

    constructor ()
      ensures lastIndex == 0
    {
      lastIndex := 0;
    }

    /** `exec` on a global pattern: search from `lastIndex`; on success move
      * the cursor past the match, on failure reset it to 0. */
    method Exec(value: string) returns (r: Option<Match>)
      modifies this
      ensures r == FirstMatch(value, old(lastIndex))
      ensures lastIndex == if r.Some? then r.value.End() else 0
    {
      ghost var start := lastIndex;
      var i := lastIndex;
      while i < |value|
        invariant start <= i
        invariant FirstMatch(value, start) == FirstMatch(value, i)
        decreases |value| - i
      {
        var q := MatchAt(value, i);
        if q.Some? {
          var e := RunEnd(value, i);
          r := Some(Match(i, value[i..i + q.value], value[i + q.value..e]));
          FirstMatchStep(value, i);
          lastIndex := r.value.End();
          return;
        }
        FirstMatchStep(value, i);
        i := i + 1;
      }
      r := None;
      lastIndex := 0;
    }
  }

  /** One step of the search that `exec` performs. */
  lemma FirstMatchStep(s: string, i: nat)
    requires i < |s|
    ensures MatchAt(s, i).None? ==> FirstMatch(s, i) == FirstMatch(s, i + 1)
    ensures MatchAt(s, i).Some? ==>
      FirstMatch(s, i) == Some(Match(i, s[i..i + MatchAt(s, i).value], s[i + MatchAt(s, i).value..RunEnd(s, i)]))
  {
  }

  // ---------------------------------------------------------------------
  // The scanner agrees with the declarative reading of the pattern.

  lemma DigitsBetween(s: string, a: nat, b: nat)
    requires a <= b <= |s|
    ensures AllDigits(s[a..b]) <==> forall k :: a <= k < b ==> IsDigit(s[k])
  {
    if AllDigits(s[a..b]) {
      forall k | a <= k < b ensures IsDigit(s[k]) { assert s[a..b][k - a] == s[k]; }
    }
  }

  /** An unsigned numeral starts with a digit or a point, never with a sign. */
  lemma UnsignedStart(w: string)
    requires IsUnsignedNumeral(w)
    ensures |w| > 0 && (IsDigit(w[0]) || w[0] == '.')
  {
    if !(|w| > 0 && AllDigits(w)) {
      var j :| 0 <= j < |w| - 1 && w[j] == '.' && AllDigits(w[..j]) && AllDigits(w[j + 1..]);
      if j > 0 { assert w[..j][0] == w[0]; }
    }
  }

  /** What `UnsignedAt` takes is an unsigned numeral. */
  lemma UnsignedAtSound(s: string, a: nat, e: nat)
    requires a <= e <= |s| && UnsignedAt(s, a, e).Some?
    ensures IsUnsignedNumeral(s[a..a + UnsignedAt(s, a, e).value])
  {
    var n := UnsignedAt(s, a, e).value;
    var d := DigitRun(s, a, e);
    DigitRunBounds(s, a, e);
    if a + d + 2 < e && s[a + d] == '.' && DigitRun(s, a + d + 1, e) > 0 {
      DigitRunBounds(s, a + d + 1, e);
      FractionNumeral(s, a, d, n);
    } else {
      DigitsBetween(s, a, a + n);
    }
  }

  /** Digits, a point and digits make an unsigned numeral. */
  lemma FractionNumeral(s: string, a: nat, d: nat, n: nat)
    requires d + 1 < n && a + n <= |s|
    requires forall k :: a <= k < a + d ==> IsDigit(s[k])
    requires s[a + d] == '.'
    requires forall k :: a + d + 1 <= k < a + n ==> IsDigit(s[k])
    ensures IsUnsignedNumeral(s[a..a + n])
  {
    var w := s[a..a + n];
    assert w[d] == '.';
    assert w[..d] == s[a..a + d];
    assert w[d + 1..] == s[a + d + 1..a + n];
    DigitsBetween(s, a, a + d);
    DigitsBetween(s, a + d + 1, a + n);
    assert 0 <= d < |w| - 1 && w[d] == '.' && AllDigits(w[..d]) && AllDigits(w[d + 1..]);
  }

  /** A run of `n` digits from `a` is counted in full. */
  lemma {:induction false} DigitRunCovers(s: string, a: nat, e: nat, n: nat)
    requires a + n <= e <= |s|
    requires forall k :: a <= k < a + n ==> IsDigit(s[k])
    ensures n <= DigitRun(s, a, e)
    decreases n
  {
    if n > 0 {
      DigitRunCovers(s, a + 1, e, n - 1);
    }
  }

  /** A non-digit at `a + j` ends the run there at the latest. */
  lemma {:induction false} DigitRunStops(s: string, a: nat, e: nat, j: nat)
    requires a + j < e <= |s| && !IsDigit(s[a + j])
    ensures DigitRun(s, a, e) <= j
    decreases j
  {
    if j > 0 {
      DigitRunStops(s, a + 1, e, j - 1);
    }
  }

  /** `UnsignedAt` takes at least a run of `n` digits that leaves a unit. */
  lemma UnsignedAtCoversDigits(s: string, a: nat, e: nat, n: nat)
    requires 0 < n && a + n < e <= |s| && AllDigits(s[a..a + n])
    ensures UnsignedAt(s, a, e).Some? && n <= UnsignedAt(s, a, e).value
  {
    DigitsBetween(s, a, a + n);
    DigitRunCovers(s, a, e, n);
  }

  /** `UnsignedAt` takes at least `j` digits, a point and `n - j - 1` digits
    * that leave a unit. */
  lemma UnsignedAtCoversFraction(s: string, a: nat, e: nat, j: nat, n: nat)
    requires j + 1 < n && a + n < e <= |s|
    requires AllDigits(s[a..a + j]) && s[a + j] == '.' && AllDigits(s[a + j + 1..a + n])
    ensures UnsignedAt(s, a, e).Some? && n <= UnsignedAt(s, a, e).value
  {
    DigitsBetween(s, a, a + j);
    DigitsBetween(s, a + j + 1, a + n);
    DigitRunCovers(s, a, e, j);
    DigitRunStops(s, a, e, j);
    DigitRunCovers(s, a + j + 1, e, n - j - 1);
  }

  /** `UnsignedAt` takes the longest unsigned numeral at `a` that leaves a
    * character before `e`. */
  lemma UnsignedAtLongest(s: string, a: nat, e: nat, n: nat)
    requires a + n < e <= |s| && IsUnsignedNumeral(s[a..a + n])
    ensures UnsignedAt(s, a, e).Some? && n <= UnsignedAt(s, a, e).value
  {
    var w := s[a..a + n];
    if |w| > 0 && AllDigits(w) {
      UnsignedAtCoversDigits(s, a, e, n);
    } else {
      var j :| 0 <= j < |w| - 1 && w[j] == '.' && AllDigits(w[..j]) && AllDigits(w[j + 1..]);
      assert w[..j] == s[a..a + j];
      assert w[j + 1..] == s[a + j + 1..a + n];
      assert w[j] == s[a + j];
      UnsignedAtCoversFraction(s, a, e, j, n);
    }
  }

  /** What `MatchAt` finds is a match of the pattern. */
  lemma MatchAtSound(s: string, i: nat)
    requires MatchAt(s, i).Some?
    ensures IsMatchAt(s, i, MatchAt(s, i).value)
  {
    var q := MatchAt(s, i).value;
    var e := RunEnd(s, i);
    var sign := if s[i] == '-' then 1 else 0;
    UnsignedAtSound(s, i + sign, e);
    if sign == 1 {
      assert s[i..i + q][1..] == s[i + 1..i + q];
    }
  }

  /** Every match at `i` has a quantity no longer than the one `MatchAt`
    * finds; in particular `MatchAt` finds one whenever one exists. */
  lemma MatchAtLongest(s: string, i: nat, q: nat)
    requires IsMatchAt(s, i, q)
    ensures MatchAt(s, i).Some? && q <= MatchAt(s, i).value
  {
    var w := s[i..i + q];
    var e := RunEnd(s, i);
    if IsUnsignedNumeral(w) {
      UnsignedStart(w);
      assert w[0] == s[i];
      UnsignedAtLongest(s, i, e, q);
    } else {
      assert w[0] == s[i] == '-';
      assert w[1..] == s[i + 1..i + q];
      UnsignedAtLongest(s, i + 1, e, q - 1);
    }
  }

  /** When a match starts at the cursor, `FirstMatch` returns it. */
  lemma FirstMatchHere(s: string, from: nat)
    requires MatchAt(s, from).Some?
    ensures FirstMatch(s, from).Some? && IsLeftmostLongest(s, from, FirstMatch(s, from).value)
  {
    var q := MatchAt(s, from).value;
    MatchAtSound(s, from);
    forall q': nat | IsMatchAt(s, from, q') ensures q' <= q { MatchAtLongest(s, from, q'); }
  }

  /** When no match starts at the cursor, `FirstMatch` moves on by one. */
  lemma FirstMatchSkip(s: string, from: nat)
    requires from < |s| && MatchAt(s, from).None?
    ensures FirstMatch(s, from) == FirstMatch(s, from + 1)
    ensures forall q: nat :: !IsMatchAt(s, from, q)
  {
    forall q: nat ensures !IsMatchAt(s, from, q) {
      if IsMatchAt(s, from, q) { MatchAtLongest(s, from, q); }
    }
  }

  /** `FirstMatch` is the leftmost-longest match from the cursor, and it is
    * None exactly when nothing matches from the cursor on. */
  lemma {:induction false} FirstMatchCorrect(s: string, from: nat)
    ensures FirstMatch(s, from).None? <==> NoMatchFrom(s, from)
    ensures FirstMatch(s, from).Some? ==> IsLeftmostLongest(s, from, FirstMatch(s, from).value)
    decreases |s| - from
  {
    if from >= |s| {
      assert NoMatchFrom(s, from);
    } else if MatchAt(s, from).Some? {
      FirstMatchHere(s, from);
    } else {
      FirstMatchCorrect(s, from + 1);
      FirstMatchCorrectSkip(s, from);
    }
  }

  /** The step of `FirstMatchCorrect` past a position where nothing matches. */
  lemma FirstMatchCorrectSkip(s: string, from: nat)
    requires from < |s| && MatchAt(s, from).None?
    requires FirstMatch(s, from + 1).None? <==> NoMatchFrom(s, from + 1)
    requires FirstMatch(s, from + 1).Some? ==> IsLeftmostLongest(s, from + 1, FirstMatch(s, from + 1).value)
    ensures FirstMatch(s, from).None? <==> NoMatchFrom(s, from)
    ensures FirstMatch(s, from).Some? ==> IsLeftmostLongest(s, from, FirstMatch(s, from).value)
  {
    FirstMatchSkip(s, from);
    NoMatchAtStep(s, from);
    if FirstMatch(s, from).Some? {
      LeftmostStep(s, from, FirstMatch(s, from).value);
    }
  }

  /** Past a position where nothing matches, "no match from here" is
    * unchanged. */
  lemma NoMatchAtStep(s: string, from: nat)
    requires forall q: nat :: !IsMatchAt(s, from, q)
    ensures NoMatchFrom(s, from) <==> NoMatchFrom(s, from + 1)
  {
  }

  /** The leftmost match after a position where nothing matches is also the
    * leftmost one from that position. */
  lemma LeftmostStep(s: string, from: nat, m: Match)
    requires forall q: nat :: !IsMatchAt(s, from, q)
    requires IsLeftmostLongest(s, from + 1, m)
    ensures IsLeftmostLongest(s, from, m)
  {
  }

  // ---------------------------------------------------------------------
  // The token stream.

  /** The matches `Scan` returns are exactly the declarative tokenization. */
  lemma {:induction false} ScanIsTokenization(s: string, from: nat)
    ensures IsTokenization(s, from, Scan(s, from))
    decreases |s| - from
  {
    FirstMatchCorrect(s, from);
    match FirstMatch(s, from)
    case None =>
    case Some(m) =>
      ScanIsTokenization(s, m.End());
      assert Scan(s, from)[1..] == Scan(s, m.End());
  }

  /** Two leftmost-longest matches from the same cursor are the same match. */
  lemma LeftmostLongestUnique(s: string, from: nat, m1: Match, m2: Match)
    requires IsLeftmostLongest(s, from, m1) && IsLeftmostLongest(s, from, m2)
    ensures m1 == m2
  {
    assert IsMatchAt(s, m1.index, |m1.quantity|) && IsMatchAt(s, m2.index, |m2.quantity|);
    assert m1.index == m2.index;
    assert |m1.quantity| == |m2.quantity|;
  }

  /** A tokenization is empty exactly when nothing matches from its cursor. */
  lemma TokenizationEmpty(s: string, from: nat, ts: seq<Match>)
    requires IsTokenization(s, from, ts)
    ensures ts == [] <==> NoMatchFrom(s, from)
  {
    if ts != [] {
      assert IsMatchAt(s, ts[0].index, |ts[0].quantity|);
    }
  }

  /** The declarative tokenization from a cursor is unique. */
  lemma {:induction false} TokenizationUnique(s: string, from: nat, ts1: seq<Match>, ts2: seq<Match>)
    requires IsTokenization(s, from, ts1) && IsTokenization(s, from, ts2)
    ensures ts1 == ts2
    decreases |ts1|
  {
    TokenizationEmpty(s, from, ts1);
    TokenizationEmpty(s, from, ts2);
    if ts1 != [] {
      LeftmostLongestUnique(s, from, ts1[0], ts2[0]);
      TokenizationUnique(s, ts1[0].End(), ts1[1..], ts2[1..]);
      assert ts1 == [ts1[0]] + ts1[1..] && ts2 == [ts2[0]] + ts2[1..];
    }
  }

  /** `Tokenize(value)` is empty exactly when the pattern matches nowhere
    * in `value`. */
  lemma TokenizeEmpty(value: string)
    ensures Tokenize(value) == [] <==> NoMatchFrom(value, 0)
  {
    FirstMatchCorrect(value, 0);
  }

  /** Matches are found strictly left to right, each non-empty, none
    * overlapping the one before, all inside the input. */
  lemma {:induction false} ScanOrdered(s: string, from: nat)
    ensures forall k :: 0 <= k < |Scan(s, from)| ==>
      from <= Scan(s, from)[k].index < Scan(s, from)[k].End() <= |s|
    ensures forall j, k :: 0 <= j < k < |Scan(s, from)| ==> Scan(s, from)[j].End() <= Scan(s, from)[k].index
    decreases |s| - from
  {
    match FirstMatch(s, from)
    case None =>
    case Some(m) =>
      ScanOrdered(s, m.End());
      var ts := Scan(s, from);
      assert ts[1..] == Scan(s, m.End());
      forall j, k | 0 <= j < k < |ts| ensures ts[j].End() <= ts[k].index {
        if j > 0 { assert ts[j] == ts[1..][j - 1] && ts[k] == ts[1..][k - 1]; }
        else { assert ts[k] == ts[1..][k - 1]; }
      }
  }

  /** There are at most half as many tokens as characters after the cursor,
    * so the loop over them ends within `|s|` passes. */
  lemma {:induction false} ScanBound(s: string, from: nat)
    requires from <= |s|
    ensures 2 * |Scan(s, from)| <= |s| - from
    decreases |s| - from
  {
    match FirstMatch(s, from)
    case None =>
    case Some(m) => ScanBound(s, m.End());
  }

  /** A quantity text always ends in a digit. */
  lemma QuantityEndsInDigit(w: string)
    requires IsQuantityText(w)
    ensures |w| > 0 && IsDigit(w[|w| - 1])
  {
    var u := if IsUnsignedNumeral(w) then w else w[1..];
    assert IsUnsignedNumeral(u);
    if !(|u| > 0 && AllDigits(u)) {
      var j :| 0 <= j < |u| - 1 && u[j] == '.' && AllDigits(u[..j]) && AllDigits(u[j + 1..]);
      assert u[j + 1..][|u| - j - 2] == u[|u| - 1];
    }
    assert u[|u| - 1] == w[|w| - 1];
  }

  /** The shape of a match: a quantity text ending in a digit, then a
    * non-empty unit without whitespace; together they are the input between
    * the match's start and its end, and the match ends at whitespace or at
    * the end of the input. */
  lemma MatchShape(s: string, cursor: nat, m: Match)
    requires IsLeftmostLongest(s, cursor, m)
    ensures && IsQuantityText(m.quantity) && IsDigit(m.quantity[|m.quantity| - 1])
            && 0 < |m.unit| && NoSpace(m.unit)
            && m.End() <= |s| && s[m.index..m.End()] == m.quantity + m.unit
            && (m.End() == |s| || IsSpace(s[m.End()]))
  {
    QuantityEndsInDigit(m.quantity);
    RunEndBounds(s, m.index);
    var e := RunEnd(s, m.index);
    var q := |m.quantity|;
    assert m.End() == e;
    forall k | 0 <= k < |m.unit| ensures !IsSpace(m.unit[k]) {
      assert m.unit[k] == s[m.index + q + k];
    }
    assert s[m.index..e] == s[m.index..m.index + q] + s[m.index + q..e];
  }

  /** Every token has the shape of `MatchShape`. */
  lemma TokenShape(s: string, from: nat, k: nat)
    requires k < |Scan(s, from)|
    ensures var m := Scan(s, from)[k];
      && IsQuantityText(m.quantity) && IsDigit(m.quantity[|m.quantity| - 1])
      && 0 < |m.unit| && NoSpace(m.unit)
      && m.End() <= |s| && s[m.index..m.End()] == m.quantity + m.unit
      && (m.End() == |s| || IsSpace(s[m.End()]))
  {
    ScanIsTokenization(s, from);
    var cursor := TokenCursor(s, from, Scan(s, from), k);
    MatchShape(s, cursor, Scan(s, from)[k]);
  }

  /** The cursor from which the `k`-th token of a tokenization was found. */
  lemma {:induction false} TokenCursor(s: string, from: nat, ts: seq<Match>, k: nat) returns (cursor: nat)
    requires IsTokenization(s, from, ts) && k < |ts|
    ensures IsLeftmostLongest(s, cursor, ts[k])
    decreases k
  {
    if k == 0 {
      cursor := from;
    } else {
      cursor := TokenCursor(s, ts[0].End(), ts[1..], k - 1);
      assert ts[1..][k - 1] == ts[k];
    }
  }
}
