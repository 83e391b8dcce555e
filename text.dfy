/** The JavaScript string operations the core relies on, written out:
    `String.prototype.trim`, `includes`, concatenation of a list of strings and
    the decimal rendering of a non-negative integer (template interpolation
    of `Date.now()`). */
module Text {

  /** ECMAScript's WhiteSpace and LineTerminator code points, the set `trim`
      removes: tab, line feed, vertical tab, form feed, carriage return, space,
      no-break space, the other Unicode space separators (U+1680,
      U+2000 to U+200A, U+202F, U+205F, U+3000), the line and paragraph
      separators and the byte order mark. */
  predicate IsWhitespace(c: char)
  {
    c == '\t' || c == '\n' || c == '\U{B}' || c == '\U{C}' || c == '\r' || c == ' '
    || c == '\U{A0}' || c == '\U{1680}' || ('\U{2000}' <= c <= '\U{200A}')
    || c == '\U{2028}' || c == '\U{2029}' || c == '\U{202F}' || c == '\U{205F}'
    || c == '\U{3000}' || c == '\U{FEFF}'
  }

  predicate AllWhitespace(s: string)
  {
    forall i :: 0 <= i < |s| ==> IsWhitespace(s[i])
  }

  /** The first index at or after `i` that is not whitespace, or `|s|`. */
  function WhitespaceEndFrom(s: string, i: nat): (r: nat)
    requires i <= |s|
    ensures i <= r <= |s|
    ensures forall k :: i <= k < r ==> IsWhitespace(s[k])
    ensures r < |s| ==> !IsWhitespace(s[r])
    decreases |s| - i
  {
    if i == |s| || !IsWhitespace(s[i]) then i else WhitespaceEndFrom(s, i + 1)
  }

  /** The last index at or before `j` that follows a non-whitespace
      character, or 0. */
  function WhitespaceStartTo(s: string, j: nat): (r: nat)
    requires j <= |s|
    ensures r <= j
    ensures forall k :: r <= k < j ==> IsWhitespace(s[k])
    ensures r > 0 ==> !IsWhitespace(s[r - 1])
  {
    if j == 0 || !IsWhitespace(s[j - 1]) then j else WhitespaceStartTo(s, j - 1)
  }

  /** Length of the longest all-whitespace prefix of `s`. */
  function LeadingWhitespace(s: string): (n: nat)
    ensures n <= |s|
    ensures AllWhitespace(s[..n])
    ensures n < |s| ==> !IsWhitespace(s[n])
  {
    WhitespaceEndFrom(s, 0)
  }

  /** Length of the longest all-whitespace suffix of `s`. */
  function TrailingWhitespace(s: string): (n: nat)
    ensures n <= |s|
    ensures AllWhitespace(s[|s| - n..])
    ensures n < |s| ==> !IsWhitespace(s[|s| - 1 - n])
  {
    |s| - WhitespaceStartTo(s, |s|)
  }

  function TrimStart(s: string): string
  {
    s[LeadingWhitespace(s)..]
  }

  function TrimEnd(s: string): string
  {
    s[..|s| - TrailingWhitespace(s)]
  }

  /** `s.trim()`. */
  function Trim(s: string): string
  {
    TrimEnd(TrimStart(s))
  }

  /** `Trim(s)` is the stretch of `s` between an all-whitespace prefix and
      an all-whitespace suffix, and it neither starts nor ends with
      whitespace. */
  lemma TrimSpec(s: string)
    ensures var n := LeadingWhitespace(s); var r := Trim(s);
            n + |r| <= |s| && r == s[n..n + |r|]
            && AllWhitespace(s[..n]) && AllWhitespace(s[n + |r|..])
    ensures Trim(s) != [] ==> !IsWhitespace(Trim(s)[0]) && !IsWhitespace(Trim(s)[|Trim(s)| - 1])
  {
    var n := LeadingWhitespace(s);
    var t := s[n..];
    var m := TrailingWhitespace(t);
    TrimOfSuffix(s, n, t);
    CutSlices(s, n, t, |t| - m, Trim(s));
    CutEnds(s, n, t, m, Trim(s));
  }

  /** The trim is the suffix after the leading whitespace, less its
      trailing whitespace. */
  lemma TrimOfSuffix(s: string, n: nat, t: string)
    requires n == LeadingWhitespace(s) && t == s[n..]
    ensures Trim(s) == t[..|t| - TrailingWhitespace(t)]
  {
  }

  /** Cutting the suffix `t` of `s` at `k` leaves a slice `r` of `s`; what
      follows `r` in `s` is what follows it in `t`. */
  lemma CutSlices(s: string, n: nat, t: string, k: nat, r: string)
    requires n <= |s| && t == s[n..] && k <= |t| && r == t[..k] && AllWhitespace(t[k..])
    ensures n + |r| <= |s| && r == s[n..n + |r|] && AllWhitespace(s[n + |r|..])
  {
    assert |r| == k;
    SliceOfSuffix(s, n, k);
  }

  /** A slice `r` of `s` that starts where `s` has no whitespace and ends
      where the suffix `t` has none neither starts nor ends with whitespace. */
  lemma CutEnds(s: string, n: nat, t: string, m: nat, r: string)
    requires n <= |s| && t == s[n..] && m <= |t| && r == t[..|t| - m]
    requires n < |s| ==> !IsWhitespace(s[n])
    requires m < |t| ==> !IsWhitespace(t[|t| - 1 - m])
    ensures r != [] ==> !IsWhitespace(r[0]) && !IsWhitespace(r[|r| - 1])
  {
    if r != [] {
      assert r[0] == t[0] == s[n];
      assert r[|r| - 1] == t[|t| - 1 - m];
    }
  }

  /** Cutting `k` characters from the suffix of `s` that starts at `n`. */
  lemma SliceOfSuffix(s: string, n: nat, k: nat)
    requires n + k <= |s|
    ensures s[n..][..k] == s[n..n + k]
    ensures s[n..][k..] == s[n + k..]
  {
  }

  /** `trim()` yields the empty string exactly for all-whitespace input. */
  lemma {:induction false} TrimEmptyIffAllWhitespace(s: string)
    ensures Trim(s) == "" <==> AllWhitespace(s)
  {
    var n := LeadingWhitespace(s);
    var t := s[n..];
    if n == |s| {
      assert s[..n] == s;
    } else {
      assert !IsWhitespace(s[n]);
      assert t[0] == s[n];
      var m := TrailingWhitespace(t);
      assert m < |t|;
    }
  }

  /** Trimming twice is trimming once. */
  lemma TrimIdempotent(s: string)
    ensures Trim(Trim(s)) == Trim(s)
  {
    var r := Trim(s);
    TrimSpec(s);
    if r != [] {
      assert LeadingWhitespace(r) == 0;
      assert TrailingWhitespace(r) == 0;
    }
  }

  /** A string that neither starts nor ends with whitespace is its own trim. */
  lemma TrimOfTrimmed(s: string)
    requires s != [] ==> !IsWhitespace(s[0]) && !IsWhitespace(s[|s| - 1])
    ensures Trim(s) == s
  {
    if s != [] {
      assert LeadingWhitespace(s) == 0;
      assert s[0..] == s;
      assert TrailingWhitespace(s) == 0;
    }
  }

  /** `sub` occurs in `s` at index `i`. */
  predicate OccursAt(s: string, sub: string, i: int)
  {
    0 <= i && i + |sub| <= |s| && s[i..i + |sub|] == sub
  }

  /** `s.includes(sub)`. */
  predicate Contains(s: string, sub: string)
  {
    exists i :: 0 <= i <= |s| && OccursAt(s, sub, i)
  }

  lemma ContainsMiddle(a: string, x: string, b: string)
    ensures Contains(a + x + b, x)
  {
    assert (a + x + b)[|a|..|a| + |x|] == x;
    assert OccursAt(a + x + b, x, |a|);
  }

  /** Joins lines with a line feed between neighbours. */
  function JoinLines(lines: seq<string>): string
  {
    if |lines| <= 1 then Concat(lines) else lines[0] + "\n" + JoinLines(lines[1..])
  }

  /** Joins a list of strings with no separator. */
  function Concat(parts: seq<string>): string
  {
    if parts == [] then "" else parts[0] + Concat(parts[1..])
  }

  lemma {:induction false} ConcatSnoc(parts: seq<string>, last: string)
    ensures Concat(parts + [last]) == Concat(parts) + last
  {
    if parts != [] {
      assert (parts + [last])[1..] == parts[1..] + [last];
      ConcatSnoc(parts[1..], last);
    }
  }

  lemma {:induction false} ConcatAppend(xs: seq<string>, ys: seq<string>)
    ensures Concat(xs + ys) == Concat(xs) + Concat(ys)
  {
    if xs == [] {
      assert xs + ys == ys;
    } else {
      assert (xs + ys)[1..] == xs[1..] + ys;
      ConcatAppend(xs[1..], ys);
    }
  }

  predicate IsDigit(c: char)
  {
    '0' <= c <= '9'
  }

  function DigitChar(d: nat): (c: char)
    requires d < 10
    ensures IsDigit(c)
  {
    ('0' as int + d) as char
  }

  function DigitValue(c: char): (d: nat)
    requires IsDigit(c)
    ensures d < 10
  {
    (c as int - '0' as int) as nat
  }

  /** The decimal rendering of `n`, as JavaScript writes a non-negative
      integer below 10^21: digits only, no leading zero. */
  function DecimalString(n: nat): (s: string)
    ensures |s| >= 1
    ensures forall i :: 0 <= i < |s| ==> IsDigit(s[i])
    ensures |s| > 1 ==> s[0] != '0'
  {
    if n < 10 then [DigitChar(n)]
    else DecimalString(n / 10) + [DigitChar(n % 10)]
  }

  /** Reads a string of digits back as a number. */
  function ParseDecimal(s: string): nat
    requires forall i :: 0 <= i < |s| ==> IsDigit(s[i])
  {
    if s == [] then 0 else ParseDecimal(s[..|s| - 1]) * 10 + DigitValue(s[|s| - 1])
  }

  /** Rendering then reading gives back the number, so distinct numbers have
      distinct renderings. */
  lemma {:induction false} DecimalRoundTrip(n: nat)
    ensures ParseDecimal(DecimalString(n)) == n
  {
    var s := DecimalString(n);
    if n < 10 {
      assert s[..0] == [];
    } else {
      assert s[..|s| - 1] == DecimalString(n / 10);
      DecimalRoundTrip(n / 10);
    }
  }
}
