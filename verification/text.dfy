/**
 * Text primitives shared by the extractors: case folding, substring search,
 * JavaScript whitespace, trimming, dotted paths and decimal digits.
 *
 * Regular expressions of the widget are keyword alternations tested against
 * the lower-cased utterance; `ContainsAny` is such a test.  Case folding
 * covers ASCII and the Latin-1 letters used by Portuguese.
 */
module Text {

  import opened Json

  // ---------------------------------------------------------------- case

  predicate IsUpper(c: char) {
    ('A' <= c <= 'Z') || ('À' <= c <= 'Þ' && c != '×')
  }

  function LowerChar(c: char): char {
    if IsUpper(c) then (c as int + 32) as char else c
  }

  /** `toLowerCase()` restricted to ASCII and Latin-1; the length is kept. */
  function Lower(s: string): string {
    seq(|s|, i requires 0 <= i < |s| => LowerChar(s[i]))
  }

  predicate IsLower(c: char) {
    ('a' <= c <= 'z') || ('à' <= c <= 'þ' && c != '÷')
  }

  function UpperChar(c: char): (u: char)
    ensures LowerChar(u) == LowerChar(c)
  {
    if IsLower(c) then (c as int - 32) as char else c
  }

  /** `s.charAt(0).toUpperCase() + s.slice(1)` */
  function Capitalize(s: string): (r: string)
    ensures |r| == |s| && (s != [] ==> r[1..] == s[1..])
    ensures Lower(r) == Lower(s)
  {
    if s == [] then [] else [UpperChar(s[0])] + s[1..]
  }

  lemma LowerIdempotent(s: string)
    ensures Lower(Lower(s)) == Lower(s)
  {
    forall i | 0 <= i < |s| ensures LowerChar(LowerChar(s[i])) == LowerChar(s[i]) {}
  }

  // ----------------------------------------------------------- substrings

  predicate OccursAt(s: string, w: string, i: int) {
    0 <= i && i + |w| <= |s| && s[i..i + |w|] == w
  }

  /** `s.includes(w)`, and the test of a one-word regular expression. */
  predicate Contains(s: string, w: string) {
    exists i | 0 <= i <= |s| - |w| :: OccursAt(s, w, i)
  }

  /** The test of an alternation `w0|w1|...`. */
  predicate ContainsAny(s: string, ws: seq<string>) {
    exists k | 0 <= k < |ws| :: Contains(s, ws[k])
  }

  lemma ContainsAnyIntro(s: string, ws: seq<string>, k: nat)
    requires k < |ws| && Contains(s, ws[k])
    ensures ContainsAny(s, ws)
  {
  }

  /** `s.indexOf(w, from)`: the first occurrence at or after `from`, or -1. */
  function IndexFrom(s: string, w: string, from: nat): (r: int)
    decreases |s| - from
    ensures r == -1 || (from <= r && OccursAt(s, w, r))
    ensures r >= 0 ==> forall j :: from <= j < r ==> !OccursAt(s, w, j)
    ensures r == -1 ==> forall j :: from <= j ==> !OccursAt(s, w, j)
  {
    if from + |w| > |s| then -1
    else if OccursAt(s, w, from) then from
    else IndexFrom(s, w, from + 1)
  }

  function IndexOf(s: string, w: string): (r: int)
    ensures r >= 0 <==> Contains(s, w)
    ensures r >= 0 ==> OccursAt(s, w, r) && forall j :: 0 <= j < r ==> !OccursAt(s, w, j)
  {
    IndexFrom(s, w, 0)
  }

  lemma OccursInConcat(a: string, w: string, b: string, i: int)
    requires OccursAt(a, w, i)
    ensures OccursAt(a + b, w, i) && Contains(a + b, w)
  {
    assert (a + b)[i..i + |w|] == a[i..i + |w|];
    assert OccursAt(a + b, w, i);
  }

  lemma OccursShift(a: string, w: string, b: string, i: int)
    requires OccursAt(b, w, i)
    ensures OccursAt(a + b, w, |a| + i) && Contains(a + b, w)
  {
    assert (a + b)[|a| + i..|a| + i + |w|] == b[i..i + |w|];
    assert OccursAt(a + b, w, |a| + i);
  }

  lemma ContainsSelf(w: string)
    ensures Contains(w, w)
  {
    assert OccursAt(w, w, 0);
  }

  /**
   * An occurrence inside `a + sep + b` of a word without `sep` lies in `a`
   * or in `b`.
   */
  lemma SplitOccurrence(a: string, sep: char, b: string, w: string, i: int)
    requires OccursAt(a + [sep] + b, w, i)
    requires forall k :: 0 <= k < |w| ==> w[k] != sep
    ensures Contains(a, w) || Contains(b, w)
  {
    var s := a + [sep] + b;
    assert s[|a|] == sep;
    forall k | i <= k < i + |w| ensures s[k] != sep {
      assert s[k] == w[k - i];
    }
    if i + |w| <= |a| {
      assert a[i..i + |w|] == s[i..i + |w|];
      assert OccursAt(a, w, i);
    } else if i > |a| {
      assert b[i - |a| - 1..i - |a| - 1 + |w|] == s[i..i + |w|];
      assert OccursAt(b, w, i - |a| - 1);
    } else {
      assert false;
    }
  }

  // -------------------------------------------------- words on one line

  /** Line terminators, the characters that `.` in a regular expression does not match. */
  predicate IsLineTerminator(c: char) {
    c == '\n' || c == '\r' || c == '\U{2028}' || c == '\U{2029}'
  }

  predicate NoLineBreak(s: string, i: int, j: int)
    requires 0 <= i <= j <= |s|
  {
    forall k :: i <= k < j ==> !IsLineTerminator(s[k])
  }

  /** The test of `a.*b`: `b` occurs after `a` with no line break between them. */
  predicate Followed2(s: string, a: string, b: string) {
    exists i, j | 0 <= i && i + |a| <= j <= |s| - |b| ::
      OccursAt(s, a, i) && OccursAt(s, b, j) && NoLineBreak(s, i, j)
  }

  /** The test of `a.*b.*c`. */
  predicate Followed3(s: string, a: string, b: string, c: string) {
    exists i, j, k | 0 <= i && i + |a| <= j && j + |b| <= k <= |s| - |c| ::
      OccursAt(s, a, i) && OccursAt(s, b, j) && OccursAt(s, c, k) && NoLineBreak(s, i, k)
  }

  // ----------------------------------------------------- subsequences

  /** `a` is `b` with some elements dropped and the rest in their order. */
  predicate Subsequence<T(==)>(a: seq<T>, b: seq<T>)
    decreases |b|
  {
    if b == [] then a == []
    else (a != [] && a[0] == b[0] && Subsequence(a[1..], b[1..])) || Subsequence(a, b[1..])
  }

  /** The empty sequence is a subsequence of any sequence. */
  lemma {:induction false} SubsequenceEmpty<T>(b: seq<T>)
    ensures Subsequence([], b)
  {
    if b != [] {
      SubsequenceEmpty(b[1..]);
    }
  }

  /** A subsequence of a subsequence is a subsequence. */
  lemma {:induction false} SubsequenceTrans<T>(a: seq<T>, b: seq<T>, c: seq<T>)
    requires Subsequence(a, b) && Subsequence(b, c)
    ensures Subsequence(a, c)
    decreases |c|
  {
    if c == [] {
    } else if b == [] {
      SubsequenceEmpty(c);
    } else if b[0] == c[0] && Subsequence(b[1..], c[1..]) {
      if a != [] && a[0] == b[0] && Subsequence(a[1..], b[1..]) {
        SubsequenceTrans(a[1..], b[1..], c[1..]);
      } else {
        SubsequenceTrans(a, b[1..], c[1..]);
      }
    } else {
      SubsequenceTrans(a, b, c[1..]);
    }
  }

  /** Appending at most the same element to both keeps a subsequence a subsequence. */
  lemma {:induction false} SubsequenceSnoc<T>(a: seq<T>, b: seq<T>, tail: seq<T>, x: T)
    requires Subsequence(a, b)
    requires tail == [] || tail == [x]
    ensures Subsequence(a + tail, b + [x])
    decreases |b|
  {
    if b == [] {
      assert a == [];
      if tail == [] {
        SubsequenceEmpty([x]);
      } else {
        assert (a + tail)[1..] == [];
        assert (b + [x])[1..] == [];
      }
    } else {
      assert (b + [x])[1..] == b[1..] + [x];
      if a != [] && a[0] == b[0] && Subsequence(a[1..], b[1..]) {
        SubsequenceSnoc(a[1..], b[1..], tail, x);
        assert (a + tail)[1..] == a[1..] + tail;
      } else {
        SubsequenceSnoc(a, b[1..], tail, x);
      }
    }
  }

  /** A subsequence is no longer than the sequence it is taken from. */
  lemma {:induction false} SubsequenceLength<T>(a: seq<T>, b: seq<T>)
    requires Subsequence(a, b)
    ensures |a| <= |b|
  {
    if b != [] {
      if a != [] && a[0] == b[0] && Subsequence(a[1..], b[1..]) {
        SubsequenceLength(a[1..], b[1..]);
      } else {
        SubsequenceLength(a, b[1..]);
      }
    }
  }

  /** No element occurs twice. */
  predicate Distinct<T(==)>(s: seq<T>) {
    forall i, j | 0 <= i < j < |s| :: s[i] != s[j]
  }

  /** Every element of a subsequence is an element of the sequence. */
  lemma {:induction false} SubsequenceIn<T>(a: seq<T>, b: seq<T>)
    requires Subsequence(a, b)
    ensures forall x | x in a :: x in b
    decreases |b|
  {
    if b != [] {
      if a != [] && a[0] == b[0] && Subsequence(a[1..], b[1..]) {
        SubsequenceIn(a[1..], b[1..]);
        forall x | x in a ensures x in b {
          if x != a[0] {
            assert x in a[1..];
          }
        }
      } else {
        SubsequenceIn(a, b[1..]);
      }
    }
  }

  /** A subsequence of a sequence without repetitions has none either. */
  lemma {:induction false} SubsequenceDistinct<T>(a: seq<T>, b: seq<T>)
    requires Subsequence(a, b) && Distinct(b)
    ensures Distinct(a)
    decreases |b|
  {
    if b != [] {
      assert Distinct(b[1..]) by {
        forall i, j | 0 <= i < j < |b[1..]| ensures b[1..][i] != b[1..][j] {
          assert b[1..][i] == b[i + 1] && b[1..][j] == b[j + 1];
        }
      }
      if a != [] && a[0] == b[0] && Subsequence(a[1..], b[1..]) {
        SubsequenceDistinct(a[1..], b[1..]);
        SubsequenceIn(a[1..], b[1..]);
        assert b[0] !in b[1..] by {
          forall k | 0 <= k < |b[1..]| ensures b[1..][k] != b[0] {
            assert b[1..][k] == b[k + 1];
          }
        }
        forall i, j | 0 <= i < j < |a| ensures a[i] != a[j] {
          assert a[j] == a[1..][j - 1];
          if i > 0 {
            assert a[i] == a[1..][i - 1];
          } else {
            assert a[j] in b[1..];
          }
        }
      } else {
        SubsequenceDistinct(a, b[1..]);
      }
    }
  }

  /** The tags of a table of tags and their words. */
  function Tags<X>(table: seq<(string, X)>): (r: seq<string>)
    ensures |r| == |table|
    ensures forall i | 0 <= i < |table| :: r[i] == table[i].0
  {
    if table == [] then [] else [table[0].0] + Tags(table[1..])
  }

  /** The tags of the table whose words occur in `lv`, in the table's order (a chain of `if (includes...) push`). */
  function Tagged(lv: string, table: seq<(string, seq<string>)>): (r: seq<string>)
    ensures Subsequence(r, Tags(table))
    ensures forall i | 0 <= i < |table| && ContainsAny(lv, table[i].1) :: table[i].0 in r
    ensures forall c | c in r :: exists i | 0 <= i < |table| :: table[i].0 == c && ContainsAny(lv, table[i].1)
  {
    if table == [] then []
    else
      var rest := Tagged(lv, table[1..]);
      var names := Tags(table);
      assert names[1..] == Tags(table[1..]);
      if ContainsAny(lv, table[0].1) then
        var r := [table[0].0] + rest;
        assert r[1..] == rest;
        r
      else rest
  }

  // ----------------------------------------------------------- whitespace

  /** The characters of JavaScript's `\s` (and of `String.prototype.trim`). */
  predicate IsSpace(c: char) {
    c == ' ' || c == '\t' || c == '\n' || c == '\U{B}' || c == '\U{C}' || c == '\r'
    || c == '\U{A0}' || c == '\U{1680}' || ('\U{2000}' <= c <= '\U{200A}')
    || c == '\U{2028}' || c == '\U{2029}' || c == '\U{202F}' || c == '\U{205F}'
    || c == '\U{3000}' || c == '\U{FEFF}'
  }

  /** End of the run of whitespace starting at `i` (greedy `\s*`). */
  function SpacesEnd(s: string, i: nat): (j: nat)
    requires i <= |s|
    decreases |s| - i
    ensures i <= j <= |s|
    ensures forall k :: i <= k < j ==> IsSpace(s[k])
    ensures j == |s| || !IsSpace(s[j])
  {
    if i < |s| && IsSpace(s[i]) then SpacesEnd(s, i + 1) else i
  }

  function TrimRight(s: string, a: nat, j: nat): (b: nat)
    requires a <= j <= |s|
    decreases j
    ensures a <= b <= j
    ensures forall k :: b <= k < j ==> IsSpace(s[k])
    ensures b == a || !IsSpace(s[b - 1])
  {
    if j > a && IsSpace(s[j - 1]) then TrimRight(s, a, j - 1) else j
  }

  /** `s.trim()`: the slice left once leading and trailing whitespace is cut. */
  function Trim(s: string): (r: string)
    ensures r == [] || (!IsSpace(r[0]) && !IsSpace(r[|r| - 1]))
    ensures exists a, b | 0 <= a <= b <= |s| ::
      (r == s[a..b]
       && (forall k :: 0 <= k < a ==> IsSpace(s[k]))
       && (forall k :: b <= k < |s| ==> IsSpace(s[k])))
  {
    var a := SpacesEnd(s, 0);
    var b := TrimRight(s, a, |s|);
    s[a..b]
  }

  lemma TrimAllSpaces(s: string)
    requires forall k :: 0 <= k < |s| ==> IsSpace(s[k])
    ensures Trim(s) == []
  {
  }

  // ---------------------------------------------------------- UTF-16 size

  /** The UTF-16 code units of one character: two outside the BMP. */
  function Units(c: char): nat {
    if c as int > 0xFFFF then 2 else 1
  }

  /** `s.length` in JavaScript: characters outside the BMP count twice. */
  function Utf16Length(s: string): (n: nat)
    ensures |s| <= n <= 2 * |s|
  {
    if s == [] then 0
    else Units(s[0]) + Utf16Length(s[1..])
  }

  lemma {:induction false} Utf16Append(a: string, b: string)
    ensures Utf16Length(a + b) == Utf16Length(a) + Utf16Length(b)
  {
    if a == [] {
      assert a + b == b;
    } else {
      assert (a + b)[0] == a[0];
      assert (a + b)[1..] == a[1..] + b;
      Utf16Append(a[1..], b);
    }
  }

  lemma LowerAppend(a: string, b: string)
    ensures Lower(a + b) == Lower(a) + Lower(b)
  {
  }

  /** Lower-casing keeps the UTF-16 length: it only maps Latin letters to Latin letters. */
  lemma {:induction false} Utf16Lower(s: string)
    ensures Utf16Length(Lower(s)) == Utf16Length(s)
  {
    if s != [] {
      assert Lower(s)[1..] == Lower(s[1..]);
      Utf16Lower(s[1..]);
    }
  }

  /**
   * `s.substring(a, b)` with `a` and `b` counted in UTF-16 units: the
   * characters all of whose units lie in `[a, b)`.  When a bound falls
   * inside a character outside the BMP, JavaScript keeps a lone surrogate
   * half at that end; it is dropped here, and no word of BMP characters can
   * match across it.
   */
  function UnitSlice(s: string, a: int, b: int): string {
    if s == [] then []
    else if a <= 0 && Units(s[0]) <= b then [s[0]] + UnitSlice(s[1..], a - Units(s[0]), b - Units(s[0]))
    else UnitSlice(s[1..], a - Units(s[0]), b - Units(s[0]))
  }

  /** The first character of a concatenation, and what follows it. */
  lemma ConcatHead(x: string, y: string)
    requires x != []
    ensures (x + y)[0] == x[0] && (x + y)[1..] == x[1..] + y
  {
  }

  /** A slice of a concatenation is the slices of the two parts, the second shifted by the length of the first. */
  lemma {:induction false} UnitSliceAppend(x: string, y: string, a: int, b: int)
    ensures UnitSlice(x + y, a, b) == UnitSlice(x, a, b) + UnitSlice(y, a - Utf16Length(x), b - Utf16Length(x))
  {
    if x == [] {
      assert x + y == y;
    } else {
      var w := Units(x[0]);
      var ux := Utf16Length(x[1..]);
      var tail := UnitSlice(x[1..], a - w, b - w);
      var rest := UnitSlice(y, a - w - ux, b - w - ux);
      ConcatHead(x, y);
      UnitSliceAppend(x[1..], y, a - w, b - w);
      if a <= 0 && w <= b {
        assert UnitSlice(x + y, a, b) == [x[0]] + (tail + rest);
        assert [x[0]] + (tail + rest) == ([x[0]] + tail) + rest;
      }
    }
  }

  /** `x + y + z` sliced over a range that covers the units of `y`: `y` survives whole, between two slices. */
  lemma UnitSliceCovers(x: string, y: string, z: string, a: int, b: int) returns (p: string, q: string)
    requires a <= Utf16Length(x) && Utf16Length(x) + Utf16Length(y) <= b
    ensures UnitSlice(x + y + z, a, b) == p + y + q
  {
    var ux := Utf16Length(x);
    UnitSliceAppend(x + y, z, a, b);
    UnitSliceAppend(x, y, a, b);
    Utf16Append(x, y);
    UnitSliceWhole(y, a - ux, b - ux);
    p, q := UnitSlice(x, a, b), UnitSlice(z, a - ux - Utf16Length(y), b - ux - Utf16Length(y));
  }

  /** Lower-casing commutes with slicing. */
  lemma LowerSlice(s: string, i: nat, j: nat)
    requires i <= j <= |s|
    ensures Lower(s[i..j]) == Lower(s)[i..j]
  {
  }

  /** The lower-cased middle of a concatenation occurs in the lower-cased whole. */
  lemma LowerContainsMiddle(p: string, y: string, q: string)
    ensures Contains(Lower(p + y + q), Lower(y))
  {
    var lp, ly, lq := Lower(p), Lower(y), Lower(q);
    LowerAppend(p + y, q);
    LowerAppend(p, y);
    assert Lower(p + y + q) == lp + (ly + lq);
    assert (ly + lq)[0..|ly|] == ly;
    OccursShift(lp, ly, ly + lq, 0);
  }

  /** The units of a text are those of a prefix plus those of the rest. */
  lemma Utf16Split(s: string, i: nat)
    requires i <= |s|
    ensures Utf16Length(s) == Utf16Length(s[..i]) + Utf16Length(s[i..])
  {
    assert s == s[..i] + s[i..];
    Utf16Append(s[..i], s[i..]);
  }

  /** A range that covers the whole text keeps all of it. */
  lemma {:induction false} UnitSliceWhole(s: string, a: int, b: int)
    requires a <= 0 && Utf16Length(s) <= b
    ensures UnitSlice(s, a, b) == s
  {
    if s != [] {
      UnitSliceWhole(s[1..], a - Units(s[0]), b - Units(s[0]));
    }
  }

  /** The slice spans at most the units of its range. */
  lemma {:induction false} UnitSliceSize(s: string, a: int, b: int)
    ensures Utf16Length(UnitSlice(s, a, b)) <= if b <= a || b <= 0 then 0 else b - (if a < 0 then 0 else a)
  {
    if s != [] {
      var w := Units(s[0]);
      var rest := UnitSlice(s[1..], a - w, b - w);
      UnitSliceSize(s[1..], a - w, b - w);
      if a <= 0 && w <= b {
        assert UnitSlice(s, a, b) == [s[0]] + rest;
        assert ([s[0]] + rest)[1..] == rest;
      } else {
        assert UnitSlice(s, a, b) == rest;
      }
    }
  }

  /** On a text inside the BMP, units are characters and the slice is the usual one. */
  lemma {:induction false} UnitSliceBmp(s: string, a: nat, b: nat)
    requires Utf16Length(s) == |s| && a <= b <= |s|
    ensures UnitSlice(s, a, b) == s[a..b]
    decreases |s|
  {
    if s != [] {
      assert Units(s[0]) == 1;
      UnitSliceAppend([s[0]], s[1..], a, b);
      assert [s[0]] + s[1..] == s;
      if a == 0 {
        if b > 0 {
          assert UnitSlice([s[0]], a, b) == [s[0]];
          UnitSliceNegative(s[1..], -1, b - 1);
          assert s[0..b] == [s[0]] + s[1..][..b - 1];
        } else {
          UnitSliceEmpty(s, 0, 0);
        }
      } else {
        assert UnitSlice([s[0]], a, b) == [];
        UnitSliceBmp(s[1..], a - 1, b - 1);
        assert s[a..b] == s[1..][a - 1..b - 1];
      }
    }
  }

  lemma {:induction false} UnitSliceNegative(s: string, a: int, b: nat)
    requires Utf16Length(s) == |s| && a <= 0 && b <= |s|
    ensures UnitSlice(s, a, b) == s[..b]
  {
    if s != [] {
      assert Units(s[0]) == 1;
      if b > 0 {
        UnitSliceNegative(s[1..], a - 1, b - 1);
        assert s[..b] == [s[0]] + s[1..][..b - 1];
      } else {
        UnitSliceEmpty(s, a, 0);
      }
    }
  }

  lemma {:induction false} UnitSliceEmpty(s: string, a: int, b: int)
    requires b <= 0
    ensures UnitSlice(s, a, b) == []
  {
    if s != [] {
      UnitSliceEmpty(s[1..], a - Units(s[0]), b - Units(s[0]));
    }
  }

  // ----------------------------------------------------------- dot paths

  /** `s.split(sep)`: never empty, and no piece holds the separator. */
  function Split(s: string, sep: char): (r: seq<string>)
    ensures |r| > 0
    ensures forall k :: 0 <= k < |r| ==> sep !in r[k]
  {
    if s == [] then [[]]
    else if s[0] == sep then [[]] + Split(s[1..], sep)
    else var rest := Split(s[1..], sep); [[s[0]] + rest[0]] + rest[1..]
  }

  /** A split has one piece more than the text has separators. */
  lemma {:induction false} SplitCount(s: string, sep: char)
    ensures |Split(s, sep)| == 1 + multiset(s)[sep]
  {
    if s != [] {
      SplitCount(s[1..], sep);
      assert s == [s[0]] + s[1..];
    }
  }

  /** `parts.join(sep)` */
  function Join(parts: seq<string>, sep: string): string {
    if parts == [] then []
    else if |parts| == 1 then parts[0]
    else parts[0] + sep + Join(parts[1..], sep)
  }

  /** Joining one more part adds the separator and that part at the end. */
  lemma {:induction false} JoinAppend(parts: seq<string>, sep: string, last: string)
    requires parts != []
    ensures Join(parts + [last], sep) == Join(parts, sep) + sep + last
  {
    if |parts| > 1 {
      JoinAppend(parts[1..], sep, last);
      assert (parts + [last])[1..] == parts[1..] + [last];
    }
  }

  /** A first piece without the separator becomes the head of the first part. */
  lemma {:induction false} SplitPrefix(a: string, b: string, sep: char)
    requires sep !in a
    ensures Split(a + b, sep) == [a + Split(b, sep)[0]] + Split(b, sep)[1..]
  {
    if a != [] {
      SplitPrefix(a[1..], b, sep);
      assert (a + b)[1..] == a[1..] + b;
      assert [a[0]] + (a[1..] + Split(b, sep)[0]) == a + Split(b, sep)[0];
    } else {
      var r := Split(b, sep);
      assert a + b == b && a + r[0] == r[0];
      assert r == [r[0]] + r[1..];
    }
  }

  /** Joining parts free of the separator and splitting again gives back the parts. */
  lemma {:induction false} SplitJoin(parts: seq<string>, sep: char)
    requires parts != []
    requires forall k | 0 <= k < |parts| :: sep !in parts[k]
    ensures Split(Join(parts, [sep]), sep) == parts
  {
    if |parts| == 1 {
      SplitPrefix(parts[0], [], sep);
      assert parts[0] + [] == parts[0];
    } else {
      SplitJoin(parts[1..], sep);
      var rest := Join(parts[1..], [sep]);
      assert Join(parts, [sep]) == parts[0] + ([sep] + rest);
      SplitPrefix(parts[0], [sep] + rest, sep);
      assert ([sep] + rest)[1..] == rest;
      assert Split([sep] + rest, sep) == [[]] + parts[1..];
      assert parts[0] + [] == parts[0];
    }
  }

  /** A word found in one of the texts is found in the texts joined by single spaces. */
  lemma {:induction false} JoinContainsIntro(ts: seq<string>, w: string, k: nat)
    requires k < |ts| && Contains(ts[k], w)
    ensures Contains(Join(ts, " "), w)
  {
    if |ts| > 1 {
      var rest := Join(ts[1..], " ");
      assert Join(ts, " ") == ts[0] + ([' '] + rest) == (ts[0] + [' ']) + rest;
      if k == 0 {
        var i :| 0 <= i <= |ts[0]| - |w| && OccursAt(ts[0], w, i);
        OccursInConcat(ts[0], w, [' '] + rest, i);
      } else {
        assert ts[1..][k - 1] == ts[k];
        JoinContainsIntro(ts[1..], w, k - 1);
        var i :| 0 <= i <= |rest| - |w| && OccursAt(rest, w, i);
        OccursShift(ts[0] + [' '], w, rest, i);
      }
    }
  }

  /** A word without spaces found in the joined texts is found in one of them. */
  lemma {:induction false} JoinContainsElim(ts: seq<string>, w: string) returns (k: nat)
    requires w != [] && ' ' !in w && Contains(Join(ts, " "), w)
    ensures k < |ts| && Contains(ts[k], w)
  {
    if ts == [] {
      assert false;
    } else if |ts| == 1 {
      k := 0;
    } else {
      var rest := Join(ts[1..], " ");
      assert Join(ts, " ") == ts[0] + [' '] + rest;
      var i :| 0 <= i <= |Join(ts, " ")| - |w| && OccursAt(Join(ts, " "), w, i);
      SplitOccurrence(ts[0], ' ', rest, w, i);
      if Contains(ts[0], w) {
        k := 0;
      } else {
        var j := JoinContainsElim(ts[1..], w);
        assert ts[1..][j] == ts[j + 1];
        k := j + 1;
      }
    }
  }

  /** One word of a space-free list occurs in space-joined texts exactly when it occurs in one of them. */
  lemma JoinContainsAny(ts: seq<string>, ws: seq<string>)
    requires forall j | 0 <= j < |ws| :: ws[j] != [] && ' ' !in ws[j]
    ensures ContainsAny(Join(ts, " "), ws) <==> exists k | 0 <= k < |ts| :: ContainsAny(ts[k], ws)
  {
    if ContainsAny(Join(ts, " "), ws) {
      var j :| 0 <= j < |ws| && Contains(Join(ts, " "), ws[j]);
      var k := JoinContainsElim(ts, ws[j]);
      assert ContainsAny(ts[k], ws);
    }
    if exists k | 0 <= k < |ts| :: ContainsAny(ts[k], ws) {
      var k :| 0 <= k < |ts| && ContainsAny(ts[k], ws);
      var j :| 0 <= j < |ws| && Contains(ts[k], ws[j]);
      JoinContainsIntro(ts, ws[j], k);
    }
  }

  /**
   * `${v}` for the values the widget shows; inside an array, as
   * `Array.join` writes it, an absent element is empty.
   */
  function Display(v: Value): string
    decreases v
  {
    match v
    case Null => ""
    case Bool(b) => if b then "true" else "false"
    case Num(n) => ShowInt(n)
    case Str(s) => s
    case Arr(items) => Join(seq(|items|, i requires 0 <= i < |items| => Display(items[i])), ",")
    case Obj(_) => "[object Object]"
  }

  /** Splitting at the separator and joining again gives back the text. */
  lemma {:induction false} JoinSplit(s: string, sep: char)
    ensures Join(Split(s, sep), [sep]) == s
  {
    if s == [] {
    } else if s[0] == sep {
      JoinSplit(s[1..], sep);
      var rest := Split(s[1..], sep);
      assert Split(s, sep) == [[]] + rest;
      assert Join(Split(s, sep), [sep]) == [] + [sep] + Join(rest, [sep]);
      assert [sep] + s[1..] == s;
    } else {
      JoinSplit(s[1..], sep);
      var rest := Split(s[1..], sep);
      var r := Split(s, sep);
      assert r == [[s[0]] + rest[0]] + rest[1..];
      if |rest| == 1 {
        assert Join(r, [sep]) == [s[0]] + rest[0];
        assert Join(rest, [sep]) == rest[0];
      } else {
        assert r[1..] == rest[1..];
        assert Join(r, [sep]) == [s[0]] + rest[0] + [sep] + Join(rest[1..], [sep]);
        assert Join(rest, [sep]) == rest[0] + [sep] + Join(rest[1..], [sep]);
      }
      assert [s[0]] + s[1..] == s;
    }
  }

  // --------------------------------------------------------------- digits

  predicate IsDigit(c: char) { '0' <= c <= '9' }

  predicate AllDigits(d: string) {
    forall k :: 0 <= k < |d| ==> IsDigit(d[k])
  }

  /** ASCII letters, digits and `_`: the word characters of `\b`. */
  predicate IsWordChar(c: char) {
    IsDigit(c) || ('a' <= c <= 'z') || ('A' <= c <= 'Z') || c == '_'
  }

  function DigitValue(c: char): nat
    requires IsDigit(c)
  {
    c as int - '0' as int
  }

  function DigitChar(n: nat): (c: char)
    requires n < 10
    ensures IsDigit(c) && DigitValue(c) == n
  {
    ('0' as int + n) as char
  }

  /** The value of a run of decimal digits (`parseInt` of a digit string). */
  function ParseNat(d: string): nat
    requires AllDigits(d)
    decreases |d|
  {
    if d == [] then 0 else 10 * ParseNat(d[..|d| - 1]) + DigitValue(d[|d| - 1])
  }

  /** Decimal notation of a natural number, without leading zeros. */
  function ShowNat(n: nat): (r: string)
    ensures |r| > 0 && AllDigits(r)
    ensures |r| > 1 ==> r[0] != '0'
  {
    if n < 10 then [DigitChar(n)] else ShowNat(n / 10) + [DigitChar(n % 10)]
  }

  /** Reading the decimal notation of `n` gives `n` back. */
  lemma {:induction false} ParseShowNat(n: nat)
    ensures ParseNat(ShowNat(n)) == n
  {
    var r := ShowNat(n);
    if n >= 10 {
      ParseShowNat(n / 10);
      assert r[..|r| - 1] == ShowNat(n / 10);
    }
  }

  /** `String(n)` for an integer. */
  function ShowInt(n: int): (r: string)
    ensures |r| > 0
  {
    if n < 0 then "-" + ShowNat(-n) else ShowNat(n)
  }

  /** `s.replace(/\D/g, '')`: the digits of `s` in order. */
  function DigitsOf(s: string): (r: string)
    ensures AllDigits(r) && |r| <= |s|
  {
    if s == [] then []
    else (if IsDigit(s[0]) then [s[0]] else []) + DigitsOf(s[1..])
  }

  lemma {:induction false} DigitsOfAllDigits(s: string)
    requires AllDigits(s)
    ensures DigitsOf(s) == s
  {
    if s != [] {
      DigitsOfAllDigits(s[1..]);
      assert [s[0]] + s[1..] == s;
    }
  }

  lemma {:induction false} DigitsOfNone(s: string)
    requires forall k :: 0 <= k < |s| ==> !IsDigit(s[k])
    ensures DigitsOf(s) == []
  {
    if s != [] {
      DigitsOfNone(s[1..]);
    }
  }

  lemma {:induction false} DigitsOfConcat(a: string, b: string)
    ensures DigitsOf(a + b) == DigitsOf(a) + DigitsOf(b)
  {
    if a != [] {
      DigitsOfConcat(a[1..], b);
      assert (a + b)[1..] == a[1..] + b;
    } else {
      assert a + b == b;
    }
  }

  /** End of the digit run starting at `i` (greedy `\d*`). */
  function DigitsEnd(s: string, i: nat): (j: nat)
    requires i <= |s|
    decreases |s| - i
    ensures i <= j <= |s|
    ensures forall k :: i <= k < j ==> IsDigit(s[k])
    ensures j == |s| || !IsDigit(s[j])
  {
    if i < |s| && IsDigit(s[i]) then DigitsEnd(s, i + 1) else i
  }

  lemma DigitsEndOfDigits(a: string, b: string)
    requires AllDigits(a) && (b == [] || !IsDigit(b[0]))
    ensures DigitsEnd(a + b, 0) == |a|
  {
    var s := a + b;
    var j := DigitsEnd(s, 0);
    assert forall k :: 0 <= k < |a| ==> s[k] == a[k];
    assert |b| > 0 ==> s[|a|] == b[0];
  }

  lemma DigitsEndShift(p: string, a: string, b: string)
    requires AllDigits(a) && (b == [] || !IsDigit(b[0]))
    ensures DigitsEnd(p + a + b, |p|) == |p| + |a|
  {
    var s := p + a + b;
    var j := DigitsEnd(s, |p|);
    assert forall k :: |p| <= k < |p| + |a| ==> s[k] == a[k - |p|];
    assert |b| > 0 ==> s[|p| + |a|] == b[0];
  }

  // ----------------------------------------------------- leftmost search

  /**
   * The leftmost position in `i..n` at which `m` succeeds, with what it
   * returned there: how `String.prototype.match` picks its match.
   */
  function Leftmost<T>(n: nat, i: nat, m: nat -> Option<T>): (r: Option<(nat, T)>)
    decreases n + 1 - i
    ensures r.Some? ==> i <= r.value.0 <= n && m(r.value.0) == Some(r.value.1)
    ensures r.Some? ==> forall j :: i <= j < r.value.0 ==> m(j).None?
    ensures r.None? ==> forall j :: i <= j <= n ==> m(j).None?
  {
    if i > n then None
    else match m(i)
      case Some(x) => Some((i, x))
      case None => Leftmost(n, i + 1, m)
  }

  /** The search stops at the first position where `m` succeeds. */
  lemma LeftmostAt<T>(n: nat, i: nat, m: nat -> Option<T>, p: nat)
    requires i <= p <= n && m(p).Some?
    requires forall j :: i <= j < p ==> m(j).None?
    ensures Leftmost(n, i, m) == Some((p, m(p).value))
  {
  }

  /** The search fails when `m` fails everywhere. */
  lemma LeftmostNone<T>(n: nat, i: nat, m: nat -> Option<T>)
    requires forall j :: i <= j <= n ==> m(j).None?
    ensures Leftmost(n, i, m).None?
  {
  }

  // ----------------------------------------------------- runs and absence

  /** A digit run has one end, whichever of its positions it is read from. */
  lemma DigitsEndUnique(s: string, j: nat, e: nat)
    requires j <= e <= |s|
    requires forall k :: j <= k < e ==> IsDigit(s[k])
    requires e == |s| || !IsDigit(s[e])
    ensures DigitsEnd(s, j) == e
  {
  }

  /** End of the run of characters satisfying `p` that starts at `i` (greedy `[...]*`). */
  function RunEnd(s: string, i: nat, p: char -> bool): (j: nat)
    requires i <= |s|
    decreases |s| - i
    ensures i <= j <= |s|
    ensures forall k :: i <= k < j ==> p(s[k])
    ensures j == |s| || !p(s[j])
  {
    if i < |s| && p(s[i]) then RunEnd(s, i + 1, p) else i
  }

  /** A word occurs only where each of its letters does. */
  lemma AbsentChar(s: string, w: string, m: nat)
    requires m < |w|
    requires forall k :: 0 <= k < |s| ==> s[k] != w[m]
    ensures !Contains(s, w)
  {
    forall i | 0 <= i <= |s| - |w| ensures !OccursAt(s, w, i) {
      assert s[i..i + |w|][m] == s[i + m];
    }
  }

  /** Every prefix of a contained word is contained. */
  lemma ContainsPrefix(s: string, w: string, k: nat)
    requires k <= |w| && Contains(s, w)
    ensures Contains(s, w[..k])
  {
    var i :| 0 <= i <= |s| - |w| && OccursAt(s, w, i);
    assert s[i..i + k] == w[..k];
    assert OccursAt(s, w[..k], i);
  }
}
