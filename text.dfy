/**
 * The JavaScript string operations the forms and filters rely on:
 * `trim`, `toLowerCase`, `split`, `includes`, `startsWith`,
 * `parseInt(_, 10)`, `String(n)` for integers, and the `<` / `<=` order on
 * strings. A `string` is a sequence of characters; JavaScript counts UTF-16
 * code units instead, which only differs for characters outside the Basic
 * Multilingual Plane.
 */
module Text {

  /** The characters `String.prototype.trim` strips: ECMAScript's WhiteSpace and LineTerminator sets. */
  predicate IsWhitespace(c: char) {
    || c == '\t' || c == '\n' || c == '\U{B}' || c == '\U{C}' || c == '\r' || c == ' '
    || c == '\U{A0}' || c == '\U{1680}' || ('\U{2000}' <= c <= '\U{200A}')
    || c == '\U{2028}' || c == '\U{2029}' || c == '\U{202F}' || c == '\U{205F}'
    || c == '\U{3000}' || c == '\U{FEFF}'
  }

  predicate HasEdgeWhitespace(s: string) {
    s != [] && (IsWhitespace(s[0]) || IsWhitespace(s[|s| - 1]))
  }

  /** Drops the leading whitespace: what is dropped is whitespace, what is left does not start with it. */
  function TrimStart(s: string): (r: string)
    ensures |r| <= |s| && r == s[|s| - |r|..]
    ensures forall i :: 0 <= i < |s| - |r| ==> IsWhitespace(s[i])
    ensures r == [] || !IsWhitespace(r[0])
  {
    if s != [] && IsWhitespace(s[0]) then TrimStart(s[1..]) else s
  }

  /** Drops the trailing whitespace. */
  function TrimEnd(s: string): (r: string)
    ensures |r| <= |s| && r == s[..|r|]
    ensures forall i :: |r| <= i < |s| ==> IsWhitespace(s[i])
    ensures r == [] || !IsWhitespace(r[|r| - 1])
  {
    if s != [] && IsWhitespace(s[|s| - 1]) then TrimEnd(s[..|s| - 1]) else s
  }

  /** `s.trim()`: a contiguous piece of `s` with no whitespace at either end. */
  function Trim(s: string): (r: string)
    ensures !HasEdgeWhitespace(r)
    ensures |r| <= |s|
  {
    TrimEnd(TrimStart(s))
  }

  /**
   * `trim` only cuts edge whitespace: the result is the piece of `s` that
   * starts after the leading whitespace, and every character of `s`
   * outside that piece is whitespace.
   */
  lemma TrimCutsEdges(s: string)
    ensures var k := |s| - |TrimStart(s)|;
      && k + |Trim(s)| <= |s|
      && Trim(s) == s[k..k + |Trim(s)|]
      && (forall i :: 0 <= i < k ==> IsWhitespace(s[i]))
      && (forall i :: k + |Trim(s)| <= i < |s| ==> IsWhitespace(s[i]))
  {
    var t := TrimStart(s);
    var k := |s| - |t|;
    var r := Trim(s);
    assert r == t[..|r|];
    assert t == s[k..];
    forall i | k + |r| <= i < |s|
      ensures IsWhitespace(s[i])
    {
      assert s[i] == t[i - k];
    }
  }

  /** Trimming a string without edge whitespace leaves it unchanged. */
  lemma TrimIdentity(s: string)
    requires !HasEdgeWhitespace(s)
    ensures Trim(s) == s
  {
  }

  /** Lower-cases the ASCII letters and leaves every other character alone. */
  function LowerChar(c: char): char {
    if 'A' <= c <= 'Z' then (c as int + 32) as char else c
  }

  /**
   * `s.toLowerCase()` restricted to ASCII letters. For every comparison the
   * core makes the restriction is exact: the targets ("desde ", "hasta ",
   * "mar del plata", the route status names) are lower-case ASCII, and no
   * non-ASCII character lower-cases to one of their letters.
   */
  function Lower(s: string): (r: string)
    ensures |r| == |s|
    ensures forall i :: 0 <= i < |s| ==> r[i] == LowerChar(s[i])
  {
    seq(|s|, i requires 0 <= i < |s| => LowerChar(s[i]))
  }

  predicate IsLowerCase(s: string) {
    forall i :: 0 <= i < |s| ==> !('A' <= s[i] <= 'Z')
  }

  /** Lower-casing is idempotent, and a lower-case string is its own lower-case form. */
  lemma LowerIdempotent(s: string)
    ensures IsLowerCase(Lower(s))
    ensures Lower(Lower(s)) == Lower(s)
    ensures IsLowerCase(s) ==> Lower(s) == s
  {
  }

  /** `sub` occurs in `s` starting at index `i`. */
  predicate OccursAt(s: string, sub: string, i: int) {
    0 <= i && i + |sub| <= |s| && s[i..i + |sub|] == sub
  }

  /** `s.indexOf(sub, from)`: the first occurrence at or after `from`, or -1 when there is none. */
  function IndexOf(s: string, sub: string, from: nat): (r: int)
    ensures r == -1 || (from <= r && OccursAt(s, sub, r))
    ensures r == -1 ==> forall j :: from <= j ==> !OccursAt(s, sub, j)
    ensures r != -1 ==> forall j :: from <= j < r ==> !OccursAt(s, sub, j)
    decreases |s| - from
  {
    if from + |sub| > |s| then -1
    else if s[from..from + |sub|] == sub then from
    else IndexOf(s, sub, from + 1)
  }

  /** `s.includes(sub)`: `sub` occurs somewhere in `s`. */
  predicate Includes(s: string, sub: string) {
    exists i | 0 <= i <= |s| :: OccursAt(s, sub, i)
  }

  /** `includes` holds exactly when `indexOf` finds an occurrence. */
  lemma IncludesIff(s: string, sub: string)
    ensures Includes(s, sub) <==> IndexOf(s, sub, 0) != -1
    ensures Includes(s, sub) <==> exists i :: OccursAt(s, sub, i)
  {
  }

  /** `s.startsWith(prefix)` */
  predicate StartsWith(s: string, prefix: string) {
    prefix <= s
  }

  /** `s.split(sep)` for a non-empty separator: the pieces between successive leftmost occurrences. */
  function Split(s: string, sep: string): (parts: seq<string>)
    requires sep != []
    ensures parts != []
    ensures forall k :: 0 <= k < |parts| - 1 ==> !Includes(parts[k], sep)
    ensures !Includes(parts[|parts| - 1], sep)
    decreases |s|
  {
    var i := IndexOf(s, sep, 0);
    if i == -1 then [s]
    else
      var head := s[..i];
      assert !Includes(head, sep) by {
        if Includes(head, sep) {
          var j := IndexOf(head, sep, 0);
          assert OccursAt(s, sep, j);
        }
      }
      [head] + Split(s[i + |sep|..], sep)
  }

  /** `parts.join(sep)` */
  function Join(parts: seq<string>, sep: string): string
    requires parts != []
  {
    if |parts| == 1 then parts[0] else parts[0] + sep + Join(parts[1..], sep)
  }

  /** Splitting and joining again with the same separator gives back the original string. */
  lemma {:induction false} JoinSplit(s: string, sep: string)
    requires sep != []
    ensures Join(Split(s, sep), sep) == s
    decreases |s|
  {
    var i := IndexOf(s, sep, 0);
    if i != -1 {
      var rest := s[i + |sep|..];
      JoinSplit(rest, sep);
      assert Split(s, sep) == [s[..i]] + Split(rest, sep);
      assert s == s[..i] + sep + rest;
    }
  }

  /** A string without the separator splits into itself alone. */
  lemma SplitWithout(s: string, sep: string)
    requires sep != [] && !Includes(s, sep)
    ensures Split(s, sep) == [s]
  {
  }

  /**
   * `(a + sep + b).split(sep)` is `[a, b]` when the leftmost occurrence of
   * `sep` is the one placed between them and `b` holds no further occurrence.
   */
  lemma SplitPair(a: string, sep: string, b: string)
    requires sep != []
    requires forall j :: 0 <= j < |a| ==> !OccursAt(a + sep + b, sep, j)
    requires !Includes(b, sep)
    ensures Split(a + sep + b, sep) == [a, b]
  {
    var s := a + sep + b;
    assert OccursAt(s, sep, |a|) by { assert s[|a|..|a| + |sep|] == sep; }
    var i := IndexOf(s, sep, 0);
    assert i == |a|;
    assert s[..i] == a;
    assert s[i + |sep|..] == b;
    SplitWithout(b, sep);
  }

  // ---------------------------------------------------------------------
  // parseInt(text, 10) and String(n)

  /** The number `parseInt` produces: an integer, or NaN when no digit is found. */
  datatype ParsedInt = NaN | Int(value: int)

  predicate IsDigit(c: char) {
    '0' <= c <= '9'
  }

  predicate AllDigits(d: string) {
    forall i :: 0 <= i < |d| ==> IsDigit(d[i])
  }

  /** The longest prefix of `s` made of decimal digits. */
  function DigitPrefix(s: string): (d: string)
    ensures d <= s && AllDigits(d)
    ensures |d| == |s| || !IsDigit(s[|d|])
  {
    if s != [] && IsDigit(s[0]) then [s[0]] + DigitPrefix(s[1..]) else []
  }

  function DigitValue(c: char): nat
    requires IsDigit(c)
  {
    c as int - '0' as int
  }

  /** The value of a string of decimal digits, read most significant first. */
  function DecimalValue(d: string): nat
    requires AllDigits(d)
  {
    if d == [] then 0 else DecimalValue(d[..|d| - 1]) * 10 + DigitValue(d[|d| - 1])
  }

  /**
   * `parseInt(s, 10)`: skip leading whitespace, take an optional sign, then
   * the longest run of digits; NaN when that run is empty. Trailing text is
   * ignored, so "2.7" and "3 tandas" parse to 2 and 3.
   */
  function ParseInt10(s: string): (r: ParsedInt)
  {
    var t := TrimStart(s);
    var signed := t != [] && (t[0] == '-' || t[0] == '+');
    var digits := DigitPrefix(if signed then t[1..] else t);
    if digits == [] then NaN
    else if signed && t[0] == '-' then Int(-(DecimalValue(digits) as int))
    else Int(DecimalValue(digits))
  }

  function DigitChar(k: nat): (c: char)
    requires k < 10
    ensures IsDigit(c) && DigitValue(c) == k
  {
    ('0' as int + k) as char
  }

  /** `String(n)` for a natural number: its decimal digits, without leading zeros. */
  function DecimalString(n: nat): (s: string)
    ensures s != [] && AllDigits(s)
    ensures |s| > 1 ==> s[0] != '0'
  {
    if n < 10 then [DigitChar(n)] else DecimalString(n / 10) + [DigitChar(n % 10)]
  }

  /**
   * The decimal text of an integer: what `String(i)` gives for an integer
   * below 10^21 in magnitude (from there on JavaScript writes an exponent).
   */
  function IntString(i: int): string {
    if i < 0 then "-" + DecimalString(-i) else DecimalString(i)
  }

  /** Reading back the digits `DecimalString` writes gives the number. */
  lemma {:induction false} DecimalValueOfString(n: nat)
    ensures DecimalValue(DecimalString(n)) == n
  {
    if n >= 10 {
      var s := DecimalString(n);
      DecimalValueOfString(n / 10);
      assert s[..|s| - 1] == DecimalString(n / 10);
    }
  }

  /** `parseInt(_, 10)` of an integer's plain decimal text gives the integer back. */
  lemma ParseIntRoundTrip(i: int)
    ensures ParseInt10(IntString(i)) == Int(i)
  {
    var m: nat := if i < 0 then -i else i;
    DecimalValueOfString(m);
    if i < 0 {
      ReadsSignedDigits(DecimalString(m));
    } else {
      ReadsDigits(DecimalString(m));
    }
  }

  /** A run of digits reads as its decimal value. */
  lemma ReadsDigits(d: string)
    requires d != [] && AllDigits(d)
    ensures ParseInt10(d) == Int(DecimalValue(d))
  {
    assert TrimStart(d) == d;
    DigitPrefixAll(d);
  }

  /** A minus sign followed by a run of digits reads as the negated decimal value. */
  lemma ReadsSignedDigits(d: string)
    requires d != [] && AllDigits(d)
    ensures ParseInt10("-" + d) == Int(-(DecimalValue(d) as int))
  {
    var s := "-" + d;
    assert TrimStart(s) == s;
    assert s[1..] == d;
    DigitPrefixAll(d);
  }

  lemma {:induction false} DigitPrefixAll(d: string)
    requires AllDigits(d)
    ensures DigitPrefix(d) == d
  {
    if d != [] {
      DigitPrefixAll(d[1..]);
    }
  }

  // ---------------------------------------------------------------------
  // The order JavaScript's `<` and `<=` put on strings

  /** `a < b` on strings: the first differing character decides; a proper prefix is smaller. */
  predicate LexLess(a: string, b: string) {
    if a == [] then b != []
    else if b == [] then false
    else if a[0] != b[0] then a[0] < b[0]
    else LexLess(a[1..], b[1..])
  }

  /** `a <= b` on strings, which JavaScript defines as `!(b < a)`. */
  predicate LexLessEq(a: string, b: string) {
    !LexLess(b, a)
  }
}
