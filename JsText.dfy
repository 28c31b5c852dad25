/** JavaScript value idioms the application relies on, stated over Dafny values:
    `null`/`undefined` as `Option`, the truthiness of strings, the `a || b`
    default, and the String methods the receipt, CSV and UI code call.
    Money is integer cents throughout; `toFixed(2)` is `FormatCents`. */
module JsText {

  datatype Option<+T> = None | Some(value: T)

  /** A string value is truthy in JavaScript iff it is present and non-empty. */
  predicate Truthy(s: Option<string>) {
    s.Some? && s.value != ""
  }

  /** `a` is `b` with some elements left out, the rest in their order: what
      `Array.prototype.filter` returns. */
  predicate SubsequenceOf<T(==)>(a: seq<T>, b: seq<T>)
    decreases |b|
  {
    a == [] || (b != [] && ((a[0] == b[0] && SubsequenceOf(a[1..], b[1..])) || SubsequenceOf(a, b[1..])))
  }

  /** `a || fallback` for a possibly-absent string and a literal fallback. */
  function Or(a: Option<string>, fallback: string): (r: string)
    ensures Truthy(a) ==> r == a.value
    ensures !Truthy(a) ==> r == fallback
  {
    if Truthy(a) then a.value else fallback
  }

  /** `a || b` for two possibly-absent strings. */
  function OrElse(a: Option<string>, b: Option<string>): (r: Option<string>)
    ensures Truthy(a) ==> r == a
    ensures !Truthy(a) ==> r == b
  {
    if Truthy(a) then a else b
  }

  // ---------------------------------------------------------------- strings

  predicate IsUpper(c: char) { 'A' <= c <= 'Z' }

  /** `toLowerCase`, on the ASCII letters. */
  function LowerChar(c: char): char {
    if IsUpper(c) then (c as int + 32) as char else c
  }

  function ToLower(s: string): (r: string)
    ensures |r| == |s|
    ensures forall i :: 0 <= i < |s| ==> r[i] == LowerChar(s[i])
  {
    if s == [] then [] else [LowerChar(s[0])] + ToLower(s[1..])
  }

  predicate StartsWith(s: string, prefix: string) {
    |prefix| <= |s| && s[..|prefix|] == prefix
  }

  predicate EndsWith(s: string, suffix: string) {
    |suffix| <= |s| && s[|s| - |suffix|..] == suffix
  }

  /** `s.includes(sub)`. */
  predicate Includes(s: string, sub: string)
    decreases |s|
  {
    StartsWith(s, sub) || (|s| > 0 && Includes(s[1..], sub))
  }

  /** `sub` occurs in `s` starting at index `i`. */
  predicate OccursAt(s: string, sub: string, i: int) {
    0 <= i <= |s| - |sub| && s[i..i + |sub|] == sub
  }

  /** `Includes` holds iff `sub` occurs somewhere in `s`. */
  lemma {:induction false} IncludesAt(s: string, sub: string)
    ensures Includes(s, sub) <==> exists i :: OccursAt(s, sub, i)
    decreases |s|
  {
    if StartsWith(s, sub) {
      assert OccursAt(s, sub, 0);
    } else if |s| > 0 {
      IncludesAt(s[1..], sub);
      if Includes(s[1..], sub) {
        var j :| OccursAt(s[1..], sub, j);
        assert s[j + 1..j + 1 + |sub|] == s[1..][j..j + |sub|];
        assert OccursAt(s, sub, j + 1);
      }
      if exists i :: OccursAt(s, sub, i) {
        var i :| OccursAt(s, sub, i);
        assert i != 0;
        assert s[1..][i - 1..i - 1 + |sub|] == s[i..i + |sub|];
        assert OccursAt(s[1..], sub, i - 1);
      }
    }
  }

  function Min(a: int, b: int): int { if a <= b then a else b }
  function Max(a: int, b: int): int { if a >= b then a else b }

  /** `s.substring(0, n)`: the first `n` characters, or all of `s` when shorter. */
  function Prefix(s: string, n: nat): (r: string)
    ensures |r| == Min(n, |s|)
    ensures r == s[..|r|]
  {
    if n <= |s| then s[..n] else s
  }

  /** `s.slice(-n)` for `n > 0`: the last `n` characters, or all of `s` when shorter. */
  function LastChars(s: string, n: nat): (r: string)
    ensures |r| == Min(n, |s|)
    ensures r == s[|s| - |r|..]
  {
    if n <= |s| then s[|s| - n..] else s
  }

  function Repeat(c: char, n: nat): (r: string)
    ensures |r| == n
    ensures forall i :: 0 <= i < n ==> r[i] == c
  {
    if n == 0 then [] else [c] + Repeat(c, n - 1)
  }

  /** `s.padEnd(n)`: `s` followed by spaces up to length `n`. */
  function PadEnd(s: string, n: nat): (r: string)
    ensures |r| == Max(n, |s|)
    ensures r[..|s|] == s
    ensures forall i :: |s| <= i < |r| ==> r[i] == ' '
  {
    if |s| >= n then s else s + Repeat(' ', n - |s|)
  }

  /** `s.padStart(n, c)`. */
  function PadStart(s: string, n: nat, c: char): (r: string)
    ensures |r| == Max(n, |s|)
    ensures r[|r| - |s|..] == s
    ensures forall i :: 0 <= i < |r| - |s| ==> r[i] == c
  {
    if |s| >= n then s else Repeat(c, n - |s|) + s
  }

  /** Appending one element after a concatenation. */
  lemma AppendOneAssoc<T>(a: seq<T>, b: seq<T>, c: T)
    ensures a + b + [c] == a + (b + [c])
  {
  }

  lemma AppendAssoc<T>(a: seq<T>, b: seq<T>, c: seq<T>)
    ensures a + b + c == a + (b + c)
  {
  }

  /** `parts.join(sep)`. */
  function Join(parts: seq<string>, sep: string): string {
    if parts == [] then ""
    else if |parts| == 1 then parts[0]
    else parts[0] + sep + Join(parts[1..], sep)
  }

  // ---------------------------------------------------------------- numbers

  predicate IsDigit(c: char) { '0' <= c <= '9' }

  predicate AllDigits(s: string) {
    forall i :: 0 <= i < |s| ==> IsDigit(s[i])
  }

  function DigitChar(d: nat): (c: char)
    requires d < 10
    ensures IsDigit(c) && c as int - '0' as int == d
  {
    ('0' as int + d) as char
  }

  function DigitValue(c: char): nat
    requires IsDigit(c)
  {
    c as int - '0' as int
  }

  /** `n.toString()` for a non-negative integer: its decimal digits, no leading zeros. */
  function NatToString(n: nat): (s: string)
    ensures 1 <= |s| && AllDigits(s)
    ensures n < 10 <==> |s| == 1
  {
    if n < 10 then [DigitChar(n)] else NatToString(n / 10) + [DigitChar(n % 10)]
  }

  /** Reading a string of decimal digits back as a number. */
  function ParseNat(s: string): nat
    requires AllDigits(s)
  {
    if s == [] then 0 else ParseNat(s[..|s| - 1]) * 10 + DigitValue(s[|s| - 1])
  }

  lemma {:induction false} ParseNatToString(n: nat)
    ensures ParseNat(NatToString(n)) == n
  {
    if n >= 10 {
      var s := NatToString(n);
      assert s[..|s| - 1] == NatToString(n / 10);
      ParseNatToString(n / 10);
    }
  }

  /** `i.toString()` for any integer. */
  function IntToString(i: int): (s: string)
    ensures 1 <= |s|
    ensures i >= 0 ==> s == NatToString(i)
  {
    if i < 0 then "-" + NatToString(-i) else NatToString(i)
  }

  function Abs(i: int): nat { if i < 0 then -i else i }

  /** `(c / 100).toFixed(2)` for an amount of `c` cents: an optional minus sign,
      the whole units, a point and exactly two digits. */
  function FormatCents(c: int): (s: string)
    ensures 4 <= |s|
    ensures s[|s| - 3] == '.' && IsDigit(s[|s| - 2]) && IsDigit(s[|s| - 1])
  {
    var a := Abs(c);
    (if c < 0 then "-" else "") + Decimal(a / 100, a % 100)
  }

  /** Whole units, a point, and two fraction digits. */
  function Decimal(whole: nat, frac: nat): (s: string)
    requires frac < 100
    ensures 4 <= |s| && s[|s| - 3] == '.'
  {
    NatToString(whole) + "." + TwoDigits(frac)
  }

  /** A number below 100 as exactly two digits, with a leading zero. */
  function TwoDigits(x: nat): (s: string)
    requires x < 100
    ensures |s| == 2 && AllDigits(s)
  {
    [DigitChar(x / 10), DigitChar(x % 10)]
  }

  /** Reads `[-]digits.dd` back as cents; the inverse of `FormatCents`. */
  function ParseCents(s: string): Option<int> {
    var neg := |s| > 0 && s[0] == '-';
    var body := if neg then s[1..] else s;
    if |body| >= 4 && body[|body| - 3] == '.' && AllDigits(body[..|body| - 3]) && AllDigits(body[|body| - 2..]) then
      var v := ParseNat(body[..|body| - 3]) * 100 + ParseNat(body[|body| - 2..]);
      Some(if neg then -v else v)
    else None
  }

  /** The two fraction digits read back as the value they were printed from. */
  lemma {:induction false} TwoDigitsValue(x: nat)
    requires x < 100
    ensures ParseNat(TwoDigits(x)) == x
  {
    var frac := TwoDigits(x);
    assert frac[..1] == [DigitChar(x / 10)];
    assert frac[..1][..0] == [];
    assert ParseNat(frac[..1]) == x / 10;
  }

  /** The parts of a decimal read back as the numbers printed. */
  lemma DecimalParts(whole: nat, frac: nat)
    requires frac < 100
    ensures var d := Decimal(whole, frac);
      && d[0] != '-'
      && AllDigits(d[..|d| - 3]) && ParseNat(d[..|d| - 3]) == whole
      && AllDigits(d[|d| - 2..]) && ParseNat(d[|d| - 2..]) == frac
  {
    var d := Decimal(whole, frac);
    assert d[..|d| - 3] == NatToString(whole);
    assert d[|d| - 2..] == TwoDigits(frac);
    ParseNatToString(whole);
    TwoDigitsValue(frac);
  }

  /** Reading a decimal, with or without a minus sign in front. */
  lemma ParseCentsOf(d: string, whole: nat, frac: nat)
    requires |d| >= 4 && d[|d| - 3] == '.' && d[0] != '-'
    requires AllDigits(d[..|d| - 3]) && ParseNat(d[..|d| - 3]) == whole
    requires AllDigits(d[|d| - 2..]) && ParseNat(d[|d| - 2..]) == frac
    ensures ParseCents(d) == Some(whole * 100 + frac)
    ensures ParseCents("-" + d) == Some(-(whole * 100 + frac))
  {
    assert ("-" + d)[1..] == d;
  }

  /** No amount is lost or altered by printing it with two decimals. */
  lemma FormatCentsRoundTrip(c: int)
    ensures ParseCents(FormatCents(c)) == Some(c)
  {
    var a := Abs(c);
    var w, f := a / 100, a % 100;
    var d := Decimal(w, f);
    DecimalParts(w, f);
    ParseCentsOf(d, w, f);
    assert w * 100 + f == a;
    assert FormatCents(c) == (if c < 0 then "-" + d else d);
  }
}
