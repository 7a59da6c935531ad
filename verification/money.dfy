/**
 * The numeric patterns both extractors use to read amounts of money out of
 * an utterance.  Each function here reproduces what one regular expression
 * of the widget captures, scanning the lower-cased text left to right the
 * way `String.prototype.match` does: the first position at which the whole
 * pattern succeeds wins.
 *
 * A number is `\d+(?:[.,]\d+)?`; `parseFloat(n.replace(',', '.')) * unit`
 * is computed exactly on whole and fractional digits and truncated to whole
 * reais.
 */
module Money {

  import opened Json
  import opened Text

  /** A matched `\d+(?:[.,]\d+)?`: its integer part and its fraction digits. */
  datatype Decimal = Decimal(whole: nat, frac: string)

  predicate WellFormed(d: Decimal) { AllDigits(d.frac) }

  function Pow10(n: nat): (r: nat)
    ensures r >= 1
  {
    if n == 0 then 1 else 10 * Pow10(n - 1)
  }

  /** `parseFloat(d) * unit`, truncated to a whole number. */
  function Scale(d: Decimal, unit: nat): int
    requires WellFormed(d)
  {
    d.whole * unit + (ParseNat(d.frac) * unit) / Pow10(|d.frac|)
  }

  /** A whole number is scaled exactly. */
  lemma ScaleWhole(n: nat, unit: nat)
    ensures WellFormed(Decimal(n, "")) && Scale(Decimal(n, ""), unit) == n * unit
  {
  }

  /**
   * Greedy `\d+(?:[.,]\d+)?` at position `i`: the number and the position
   * after it.  Shorter matches never let the rest of any pattern below
   * succeed (the rest never starts with a digit, a dot or a comma), so the
   * greedy match is the one the regular expression keeps.
   */
  function DecimalAt(s: string, i: nat): (r: Option<(Decimal, nat)>)
    ensures r.Some? ==> WellFormed(r.value.0) && i < r.value.1 <= |s|
    ensures r.Some? <==> i < |s| && IsDigit(s[i])
  {
    if i >= |s| || !IsDigit(s[i]) then None
    else
      var j := DigitsEnd(s, i);
      if j + 1 < |s| && (s[j] == '.' || s[j] == ',') && IsDigit(s[j + 1]) then
        var k := DigitsEnd(s, j + 1);
        Some((Decimal(ParseNat(s[i..j]), s[j + 1..k]), k))
      else
        Some((Decimal(ParseNat(s[i..j]), ""), j))
  }

  /** `\b` just after position `j - 1` when `s[j - 1]` is a word character. */
  predicate WordEndsAt(s: string, j: nat) {
    j >= |s| || !IsWordChar(s[j])
  }

  // ------------------------------------------------------------ units

  /**
   * `milh[oõ]e` at `k`: what `milh[oõ]es?` needs before its optional `s`.
   * "milho" or "milhõ" with no `e` after it is not a million word.
   */
  predicate MillionStemAt(s: string, k: nat) {
    OccursAt(s, "milhoe", k) || OccursAt(s, "milhõe", k)
  }

  /**
   * `milh[oõ]es?|m[ií]lh[oõ]es?`: the second alternative covers the first,
   * and nothing follows in the patterns that use it, so the optional `s`
   * never decides a match.
   */
  predicate MillionUnitAt(s: string, k: nat) {
    MillionStemAt(s, k) || OccursAt(s, "mílhoe", k) || OccursAt(s, "mílhõe", k)
  }

  /** Where greedy `milh[oõ]es?` ends when its stem is at `k`. */
  function MillionWordEnd(s: string, k: nat): (e: nat)
    requires MillionStemAt(s, k)
    ensures k + 6 <= e <= |s| && (e == k + 7 <==> k + 6 < |s| && s[k + 6] == 's')
  {
    if k + 6 < |s| && s[k + 6] == 's' then k + 7 else k + 6
  }

  /** `(mil|k)\b` */
  predicate ThousandWordAt(s: string, k: nat) {
    (OccursAt(s, "mil", k) && WordEndsAt(s, k + 3)) || (OccursAt(s, "k", k) && WordEndsAt(s, k + 1))
  }

  /** `(mil|k)` without the word boundary. */
  predicate ThousandUnitAt(s: string, k: nat) {
    OccursAt(s, "mil", k) || OccursAt(s, "k", k)
  }

  /** `milh[oõ]es?` as a plain test (the lead extractor's million switch). */
  predicate HasMillionWord(s: string) {
    Contains(s, "milhoe") || Contains(s, "milhõe")
  }

  // ---------------------------------------------------- single amounts

  /** `NUM\s*(?:milh[oõ]es?|m[ií]lh[oõ]es?)` starting at `i`. */
  function MillionAt(s: string, i: nat): (r: Option<Decimal>)
    ensures r.Some? ==> WellFormed(r.value)
  {
    match DecimalAt(s, i)
    case None => None
    case Some((d, j)) => if MillionUnitAt(s, SpacesEnd(s, j)) then Some(d) else None
  }

  /** `NUM\s*(mil|k)\b` starting at `i`. */
  function ThousandAt(s: string, i: nat): (r: Option<Decimal>)
    ensures r.Some? ==> WellFormed(r.value)
  {
    match DecimalAt(s, i)
    case None => None
    case Some((d, j)) => if ThousandWordAt(s, SpacesEnd(s, j)) then Some(d) else None
  }

  /**
   * The number captured by the single-amount million pattern.  The optional
   * prefixes `até`, `uns`, `r$` before the number never change which number
   * is captured: they contain no digit, so the leftmost match starts at or
   * before the same number.
   */
  function FirstMillion(s: string): (r: Option<Decimal>)
    ensures r.Some? ==> WellFormed(r.value)
  {
    match Leftmost(|s|, 0, MillionMatcher(s))
    case None => None
    case Some((_, d)) => Some(d)
  }

  function MillionMatcher(s: string): nat -> Option<Decimal> {
    (i: nat) => MillionAt(s, i)
  }

  function FirstThousand(s: string): (r: Option<Decimal>)
    ensures r.Some? ==> WellFormed(r.value)
  {
    match Leftmost(|s|, 0, ThousandMatcher(s))
    case None => None
    case Some((_, d)) => Some(d)
  }

  function ThousandMatcher(s: string): nat -> Option<Decimal> {
    (i: nat) => ThousandAt(s, i)
  }

  /** The single amount found at the first position where the pattern matches. */
  lemma FirstThousandIs(s: string, p: nat)
    requires p <= |s| && ThousandAt(s, p).Some?
    requires forall j :: 0 <= j < p ==> ThousandAt(s, j).None?
    ensures FirstThousand(s) == ThousandAt(s, p)
  {
    LeftmostAt(|s|, 0, ThousandMatcher(s), p);
  }

  lemma FirstMillionIs(s: string, p: nat)
    requires p <= |s| && MillionAt(s, p).Some?
    requires forall j :: 0 <= j < p ==> MillionAt(s, j).None?
    ensures FirstMillion(s) == MillionAt(s, p)
  {
    LeftmostAt(|s|, 0, MillionMatcher(s), p);
  }

  // ------------------------------------------------------------ ranges

  datatype Unit = Millions | Thousands | Captured(text: string)

  /**
   * The unit that closes a range at position `k`: the million word
   * `milh[oõ]es?`, the thousand word `(mil|k)`, or the criteria extractor's
   * capturing group `(milh[oõ]es?|mil|k)` whose text is returned.
   */
  function RangeUnitAt(s: string, k: nat, u: Unit): (r: Option<string>)
  {
    match u
    case Millions => if MillionStemAt(s, k) then Some(s[k..MillionWordEnd(s, k)]) else None
    case Thousands => if ThousandUnitAt(s, k) then Some("") else None
    case Captured(_) => UnitCapture(s, k)
  }

  /**
   * Greedy `(milh[oõ]es?|mil|k)` at `k`, returning the text it captured.
   * Where "milho" has no `e` after it the first alternative fails and `mil`
   * is captured, as the alternation tries its branches in order.
   */
  function UnitCapture(s: string, k: nat): (r: Option<string>)
    ensures r.Some? ==> k + |r.value| <= |s| && r.value == s[k..k + |r.value|]
  {
    if MillionStemAt(s, k) then Some(s[k..MillionWordEnd(s, k)])
    else if OccursAt(s, "mil", k) then Some(s[k..k + 3])
    else if OccursAt(s, "k", k) then Some(s[k..k + 1])
    else None
  }

  /** "milho" is no million word: the unit captured there is `mil`, and "milhões" is captured whole. */
  lemma MilhoCapturesMil(p: string)
    ensures !MillionUnitAt(p + "milho", |p|) && UnitCapture(p + "milho", |p|) == Some("mil")
    ensures UnitCapture(p + "milhões", |p|) == Some("milhões")
  {
    var s := p + "milho";
    assert s[|p|..|p| + 3] == "mil";
    var t := p + "milhões";
    assert t[|p|..|p| + 6] == "milhõe";
    assert t[|p|..|p| + 7] == "milhões";
  }

  /** The separators `(?:a|até|-)`, tried in this order. */
  const Separators: seq<string> := ["a", "até", "-"]

  /** `\s*SEP\s*NUM\s*UNIT` after a first number ending at `j`, trying separator `n` onwards. */
  function RangeTail(s: string, j: nat, u: Unit, n: nat): (r: Option<(Decimal, string)>)
    requires j <= |s|
    decreases |Separators| - n
    ensures r.Some? ==> WellFormed(r.value.0)
  {
    if n >= |Separators| then None
    else
      var k := SpacesEnd(s, j);
      var sep := Separators[n];
      if OccursAt(s, sep, k) then
        match DecimalAt(s, SpacesEnd(s, k + |sep|))
        case Some((d2, j2)) =>
          (match RangeUnitAt(s, SpacesEnd(s, j2), u)
           case Some(text) => Some((d2, text))
           case None => RangeTail(s, j, u, n + 1))
        case None => RangeTail(s, j, u, n + 1)
      else RangeTail(s, j, u, n + 1)
  }

  datatype RangeMatch = RangeMatch(low: Decimal, high: Decimal, unit: string)

  /** `NUM\s*(?:a|até|-)\s*NUM\s*UNIT` starting at `i`. */
  function RangeAt(s: string, i: nat, u: Unit): (r: Option<RangeMatch>)
    ensures r.Some? ==> WellFormed(r.value.low) && WellFormed(r.value.high)
  {
    match DecimalAt(s, i)
    case None => None
    case Some((d1, j)) =>
      match RangeTail(s, j, u, 0)
      case None => None
      case Some((d2, text)) => Some(RangeMatch(d1, d2, text))
  }

  function FirstRange(s: string, u: Unit): (r: Option<RangeMatch>)
    ensures r.Some? ==> WellFormed(r.value.low) && WellFormed(r.value.high)
  {
    match Leftmost(|s|, 0, RangeMatcher(s, u))
    case None => None
    case Some((_, m)) => Some(m)
  }

  function RangeMatcher(s: string, u: Unit): nat -> Option<RangeMatch> {
    (i: nat) => RangeAt(s, i, u)
  }

  lemma FirstRangeIs(s: string, u: Unit, p: nat)
    requires p <= |s| && RangeAt(s, p, u).Some?
    requires forall j :: 0 <= j < p ==> RangeAt(s, j, u).None?
    ensures FirstRange(s, u) == RangeAt(s, p, u)
  {
    LeftmostAt(|s|, 0, RangeMatcher(s, u), p);
  }

  lemma FirstRangeNone(s: string, u: Unit)
    requires forall j :: 0 <= j <= |s| ==> RangeAt(s, j, u).None?
    ensures FirstRange(s, u).None?
  {
    LeftmostNone(|s|, 0, RangeMatcher(s, u));
  }

  /** Every separator starts with `a` or `-`. */
  lemma SeparatorHeads(n: nat)
    requires n < |Separators|
    ensures |Separators[n]| > 0 && (Separators[n][0] == 'a' || Separators[n][0] == '-')
  {
  }

  /** Without an `a` or a `-` ahead, the rest of a range cannot match. */
  lemma {:induction false} NoSeparatorNoTail(s: string, j: nat, u: Unit, n: nat)
    requires j <= |s|
    requires forall k :: j <= k < |s| ==> s[k] != 'a' && s[k] != '-'
    ensures RangeTail(s, j, u, n).None?
    decreases |Separators| - n
  {
    if n < |Separators| {
      var k := SpacesEnd(s, j);
      SeparatorHeads(n);
      if k + |Separators[n]| <= |s| {
        assert s[k..k + |Separators[n]|][0] == s[k];
      }
      NoSeparatorNoTail(s, j, u, n + 1);
    }
  }

  /** A range starting at `i` needs an `a` or a `-` after `i`. */
  lemma NoSeparatorNoRange(s: string, i: nat, u: Unit)
    requires forall k :: i < k < |s| ==> s[k] != 'a' && s[k] != '-'
    ensures RangeAt(s, i, u).None?
  {
    match DecimalAt(s, i)
    case None =>
    case Some((d, j)) => NoSeparatorNoTail(s, j, u, 0);
  }

  /** A whole number written out is read back as itself, up to the character after it. */
  lemma DecimalOfShown(p: string, n: nat, b: string)
    requires |b| > 0 && !IsDigit(b[0]) && b[0] != '.' && b[0] != ','
    ensures DecimalAt(p + ShowNat(n) + b, |p|) == Some((Decimal(n, ""), |p| + |ShowNat(n)|))
  {
    var d := ShowNat(n);
    var s := p + d + b;
    DigitsEndShift(p, d, b);
    assert s[|p|..|p| + |d|] == d;
    assert s[|p| + |d|] == b[0];
    ParseShowNat(n);
  }

  /** Read from anywhere inside a digit run, a number ends where the run does. */
  lemma DecimalInRun(s: string, j: nat, e: nat)
    requires j < e <= |s|
    requires forall k :: j <= k < e ==> IsDigit(s[k])
    requires e == |s| || (!IsDigit(s[e]) && s[e] != '.' && s[e] != ',')
    ensures DecimalAt(s, j).Some? && DecimalAt(s, j).value.1 == e
  {
    DigitsEndUnique(s, j, e);
  }

  lemma FirstThousandNone(s: string)
    requires forall j :: 0 <= j <= |s| ==> ThousandAt(s, j).None?
    ensures FirstThousand(s).None?
  {
    LeftmostNone(|s|, 0, ThousandMatcher(s));
  }

  /** Without `a` or `-` after its first character, a text holds no range of either unit. */
  lemma NoRangesWithoutSeparator(s: string)
    requires forall k :: 0 < k < |s| ==> s[k] != 'a' && s[k] != '-'
    ensures FirstRange(s, Millions).None? && FirstRange(s, Thousands).None?
  {
    forall j | 0 <= j <= |s| ensures RangeAt(s, j, Millions).None? && RangeAt(s, j, Thousands).None? {
      NoSeparatorNoRange(s, j, Millions);
      NoSeparatorNoRange(s, j, Thousands);
    }
    FirstRangeNone(s, Millions);
    FirstRangeNone(s, Thousands);
  }

  /** Without an `h`, a text has no plural million word. */
  lemma NoMillionWordWithoutH(s: string)
    requires forall k :: 0 <= k < |s| ==> s[k] != 'h'
    ensures !HasMillionWord(s)
  {
    AbsentChar(s, "milhoe", 3);
    AbsentChar(s, "milhõe", 3);
  }

  /** A range needs a digit: a text without digits has none. */
  lemma NoDigitNoRange(s: string, u: Unit)
    requires forall k :: 0 <= k < |s| ==> !IsDigit(s[k])
    ensures FirstRange(s, u).None?
  {
  }
}
