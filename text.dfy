/**
 * The string operations the storefront relies on: `trim()`, `toLowerCase()`,
 * `includes()`, the e-mail and postal-code regular expressions, and decimal
 * formatting with `padStart`.
 */
module Text {

  /** ECMAScript WhiteSpace and LineTerminator code points: what `trim()` removes and `\s` matches. */
  predicate IsWhitespace(c: char) {
    var n := c as int;
    n == 0x09 || n == 0x0A || n == 0x0B || n == 0x0C || n == 0x0D || n == 0x20 || n == 0xA0 ||
    n == 0x1680 || (0x2000 <= n <= 0x200A) || n == 0x2028 || n == 0x2029 || n == 0x202F ||
    n == 0x205F || n == 0x3000 || n == 0xFEFF
  }

  predicate NoWhitespace(s: string) {
    forall i :: 0 <= i < |s| ==> !IsWhitespace(s[i])
  }

  /** `s.trimStart()` */
  function TrimStart(s: string): (r: string)
    ensures |r| <= |s| && r == s[|s| - |r|..]
    ensures forall i :: 0 <= i < |s| - |r| ==> IsWhitespace(s[i])
    ensures r == [] || !IsWhitespace(r[0])
  {
    if |s| > 0 && IsWhitespace(s[0]) then TrimStart(s[1..]) else s
  }

  /** `s.trimEnd()` */
  function TrimEnd(s: string): (r: string)
    ensures |r| <= |s| && r == s[..|r|]
    ensures forall i :: |r| <= i < |s| ==> IsWhitespace(s[i])
    ensures r == [] || !IsWhitespace(r[|r| - 1])
  {
    if |s| > 0 && IsWhitespace(s[|s| - 1]) then TrimEnd(s[..|s| - 1]) else s
  }

  /** How many leading whitespace characters `trim()` drops. */
  function TrimOffset(s: string): nat {
    |s| - |TrimStart(s)|
  }

  /** `s.trim()`: the slice of `s` left after dropping leading and trailing whitespace. */
  function Trim(s: string): (r: string)
    ensures |r| <= |s|
  {
    TrimEnd(TrimStart(s))
  }

  /** The trim is the middle of `s`, with only whitespace around it and at neither end. */
  lemma TrimSlice(s: string)
    ensures TrimOffset(s) + |Trim(s)| <= |s| && Trim(s) == s[TrimOffset(s)..TrimOffset(s) + |Trim(s)|]
    ensures TrimmedAround(s, TrimOffset(s), |Trim(s)|)
    ensures Trim(s) == [] || (!IsWhitespace(Trim(s)[0]) && !IsWhitespace(Trim(s)[|Trim(s)| - 1]))
  {
  }

  /** Everything in `s` outside `s[k..k + n]` is whitespace. */
  predicate TrimmedAround(s: string, k: nat, n: nat)
    requires k + n <= |s|
  {
    (forall i :: 0 <= i < k ==> IsWhitespace(s[i])) &&
    (forall i :: k + n <= i < |s| ==> IsWhitespace(s[i]))
  }

  predicate AllWhitespace(s: string) {
    forall i :: 0 <= i < |s| ==> IsWhitespace(s[i])
  }

  /** The trim is empty exactly when the string is whitespace only. */
  lemma TrimEmptyIff(s: string)
    ensures Trim(s) == [] <==> AllWhitespace(s)
  {
    TrimSlice(s);
  }

  /** A string with nothing to trim is its own trim. */
  lemma TrimUnchanged(s: string)
    requires s == [] || (!IsWhitespace(s[0]) && !IsWhitespace(s[|s| - 1]))
    ensures Trim(s) == s
  {
  }

  lemma TrimIdempotent(s: string)
    ensures Trim(Trim(s)) == Trim(s)
  {
    TrimSlice(s);
    TrimUnchanged(Trim(s));
  }

  /** `trimStart()` skips a whitespace prefix. */
  lemma {:induction false} TrimStartSkipsPrefix(p: string, x: string)
    requires AllWhitespace(p)
    ensures TrimStart(p + x) == TrimStart(x)
  {
    if p != [] {
      assert (p + x)[1..] == p[1..] + x;
      TrimStartSkipsPrefix(p[1..], x);
    } else {
      assert p + x == x;
    }
  }

  /** `trimEnd()` skips a whitespace suffix. */
  lemma {:induction false} TrimEndSkipsSuffix(x: string, q: string)
    requires AllWhitespace(q)
    ensures TrimEnd(x + q) == TrimEnd(x)
  {
    if q != [] {
      assert (x + q)[..|x + q| - 1] == x + q[..|q| - 1];
      TrimEndSkipsSuffix(x, q[..|q| - 1]);
    } else {
      assert x + q == x;
    }
  }

  /** Trimming ignores whitespace padding on either side. */
  lemma TrimIgnoresPadding(p: string, s: string, q: string)
    requires AllWhitespace(p) && AllWhitespace(q)
    ensures Trim(p + Trim(s) + q) == Trim(s)
  {
    var t := Trim(s);
    assert p + t + q == p + (t + q);
    TrimStartSkipsPrefix(p, t + q);
    if t == [] {
      assert t + q == q;
      assert TrimStart(q) == [];
    } else {
      assert (t + q)[0] == t[0];
      assert TrimStart(t + q) == t + q;
      TrimEndSkipsSuffix(t, q);
    }
  }

  /** ASCII case mapping of `toLowerCase()`. */
  function LowerChar(c: char): char {
    if 'A' <= c <= 'Z' then (c as int + 32) as char else c
  }

  /** `s.toLowerCase()` */
  function ToLower(s: string): (r: string)
    ensures |r| == |s|
  {
    seq(|s|, i requires 0 <= i < |s| => LowerChar(s[i]))
  }

  lemma ToLowerIdempotent(s: string)
    ensures ToLower(ToLower(s)) == ToLower(s)
  {
  }

  /** Lowering commutes with slicing. */
  lemma ToLowerSlice(s: string, i: nat, j: nat)
    requires i <= j <= |s|
    ensures ToLower(s[i..j]) == ToLower(s)[i..j]
  {
  }

  /** `s.toLowerCase().trim()`: the normal form the stores use for e-mail addresses. */
  function Normalize(s: string): string {
    Trim(ToLower(s))
  }

  /** Normalizing twice is normalizing once, so a stored normalized address matches itself. */
  lemma NormalizeIdempotent(s: string)
    ensures Normalize(Normalize(s)) == Normalize(s)
  {
    var t := ToLower(s);
    var r := Trim(t);
    var k := TrimOffset(t);
    TrimSlice(t);
    ToLowerSlice(t, k, k + |r|);
    ToLowerIdempotent(s);
    assert ToLower(r) == r;
    TrimIdempotent(t);
  }

  lemma ToLowerConcat(a: string, b: string)
    ensures ToLower(a + b) == ToLower(a) + ToLower(b)
  {
  }

  /** Normalization forgets letter case and whitespace padding. */
  lemma NormalizeIgnoresCaseAndPadding(p: string, s: string, q: string)
    requires AllWhitespace(p) && AllWhitespace(q)
    ensures Normalize(p + Normalize(s) + q) == Normalize(s)
    ensures Normalize(ToLower(s)) == Normalize(s)
  {
    var n := Normalize(s);
    NormalizeIdempotent(s);
    var k := TrimOffset(ToLower(s));
    TrimSlice(ToLower(s));
    ToLowerSlice(ToLower(s), k, k + |n|);
    ToLowerIdempotent(s);
    assert ToLower(n) == n;
    assert ToLower(p) == p;
    assert ToLower(q) == q;
    ToLowerConcat(p, n);
    ToLowerConcat(p + n, q);
    TrimIgnoresPadding(p, ToLower(s), q);
  }

  /** A character of the regular-expression class `[^\s@]`. */
  predicate IsPlain(c: char) {
    !IsWhitespace(c) && c != '@'
  }

  predicate AllPlain(s: string) {
    forall i :: 0 <= i < |s| ==> IsPlain(s[i])
  }

  /** The domain part `[^\s@]+\.[^\s@]+`: plain characters with a dot that is neither first nor last. */
  predicate IsDottedDomain(d: string) {
    AllPlain(d) && exists k :: 0 < k < |d| - 1 && d[k] == '.'
  }

  /** `/^[^\s@]+@[^\s@]+\.[^\s@]+$/.test(s)`, stated by the position of the `@`. */
  predicate IsValidEmail(s: string) {
    exists i :: 0 < i < |s| && s[i] == '@' && AllPlain(s[..i]) && IsDottedDomain(s[i + 1..])
  }

  /** `s` splits as `a@b.c` with each part a non-empty run of `[^\s@]`. */
  ghost predicate EmailParts(s: string, a: string, b: string, c: string) {
    |a| > 0 && |b| > 0 && |c| > 0 && AllPlain(a) && AllPlain(b) && AllPlain(c) &&
    s == a + "@" + b + "." + c
  }

  /** The same regular expression read as a decomposition of the whole string. */
  ghost predicate MatchesEmailRegex(s: string) {
    exists a: string, b: string, c: string :: EmailParts(s, a, b, c)
  }

  lemma AllPlainSlice(s: string, i: nat, j: nat)
    requires AllPlain(s) && i <= j <= |s|
    ensures AllPlain(s[i..j])
  {
    assert forall m :: 0 <= m < j - i ==> s[i..j][m] == s[i + m];
  }

  /** Cutting `s` at an `@` and, after it, at a `.` gives back `s` when the pieces are joined. */
  lemma JoinAtSeparators(s: string, i: nat, k: nat)
    requires i < |s| && s[i] == '@' && i + 1 + k < |s| && s[i + 1 + k] == '.'
    ensures s == s[..i] + "@" + s[i + 1..][..k] + "." + s[i + 1..][k + 1..]
  {
    var d := s[i + 1..];
    var a, b, c := s[..i], d[..k], d[k + 1..];
    assert d == b + [d[k]] + c;
    assert s == a + [s[i]] + d;
    var x := a + "@";
    assert s == x + d;
    assert x + ((b + ".") + c) == (x + (b + ".")) + c;
    assert x + (b + ".") == (x + b) + ".";
  }

  lemma EmailCheckMatchesRegex(s: string)
    requires IsValidEmail(s)
    ensures MatchesEmailRegex(s)
  {
    var i :| 0 < i < |s| && s[i] == '@' && AllPlain(s[..i]) && IsDottedDomain(s[i + 1..]);
    var d := s[i + 1..];
    var k :| 0 < k < |d| - 1 && d[k] == '.';
    AllPlainSlice(d, 0, k);
    AllPlainSlice(d, k + 1, |d|);
    JoinAtSeparators(s, i, k);
    assert EmailParts(s, s[..i], d[..k], d[k + 1..]);
  }

  lemma RegexMatchPassesEmailCheck(s: string, a: string, b: string, c: string)
    requires EmailParts(s, a, b, c)
    ensures IsValidEmail(s)
  {
    var i := |a|;
    var d := s[i + 1..];
    assert s[..i] == a;
    assert s[i] == '@';
    assert d == b + "." + c;
    assert d[|b|] == '.';
    forall j | 0 <= j < |d| ensures IsPlain(d[j]) {
      if j < |b| { assert d[j] == b[j]; }
      else if j > |b| { assert d[j] == c[j - |b| - 1]; }
    }
    assert IsDottedDomain(d);
  }

  /** The position-based check accepts exactly the strings the regular expression matches. */
  lemma EmailRegexEquivalent(s: string)
    ensures IsValidEmail(s) <==> MatchesEmailRegex(s)
  {
    if IsValidEmail(s) {
      EmailCheckMatchesRegex(s);
    }
    if MatchesEmailRegex(s) {
      var a: string, b: string, c: string :| EmailParts(s, a, b, c);
      RegexMatchPassesEmailCheck(s, a, b, c);
    }
  }

  /** A valid address contains no whitespace, so `trim()` leaves it as it is. */
  lemma ValidEmailIsTrimmed(s: string)
    requires IsValidEmail(s)
    ensures NoWhitespace(s) && Trim(s) == s
  {
    var i :| 0 < i < |s| && s[i] == '@' && AllPlain(s[..i]) && IsDottedDomain(s[i + 1..]);
    forall j | 0 <= j < |s| ensures !IsWhitespace(s[j]) {
      if j < i { assert s[j] == s[..i][j]; }
      else if j > i { assert s[j] == s[i + 1..][j - i - 1]; }
    }
    TrimUnchanged(s);
  }

  /** Lowering keeps an address valid, so the stored normal form still passes the check. */
  lemma ValidEmailNormalizes(s: string)
    requires IsValidEmail(s)
    ensures IsValidEmail(ToLower(s)) && Normalize(s) == ToLower(s)
  {
    var i :| 0 < i < |s| && s[i] == '@' && AllPlain(s[..i]) && IsDottedDomain(s[i + 1..]);
    var l := ToLower(s);
    var d := s[i + 1..];
    var k :| 0 < k < |d| - 1 && d[k] == '.';
    ToLowerSlice(s, 0, i);
    ToLowerSlice(s, i + 1, |s|);
    assert l[..i] == ToLower(s[..i]);
    assert l[i + 1..] == ToLower(d);
    assert l[i + 1..][k] == '.';
    assert IsDottedDomain(l[i + 1..]);
    ValidEmailIsTrimmed(l);
  }

  /** A character `[A-Z0-9\s-]` matches under the `i` flag. */
  predicate IsZipChar(c: char) {
    ('A' <= c <= 'Z') || ('a' <= c <= 'z') || ('0' <= c <= '9') || IsWhitespace(c) || c == '-'
  }

  /** `/^[A-Z0-9\s-]{3,10}$/i.test(z)` */
  predicate IsValidZip(z: string) {
    3 <= |z| <= 10 && forall i :: 0 <= i < |z| ==> IsZipChar(z[i])
  }

  /** The `i` flag: a code is accepted in either letter case, and never outside 3 to 10 characters. */
  lemma ZipIgnoresCase(z: string)
    ensures IsValidZip(ToLower(z)) <==> IsValidZip(z)
    ensures IsValidZip(z) ==> 3 <= |z| <= 10
  {
    assert forall i :: 0 <= i < |z| ==> (IsZipChar(ToLower(z)[i]) <==> IsZipChar(z[i]));
  }

  /** `n` occurs in `h` starting at index `i`. */
  predicate OccursAt(h: string, n: string, i: int) {
    0 <= i && i + |n| <= |h| && h[i..i + |n|] == n
  }

  /** `h.includes(n)`: some window of `h` equals `n`. */
  function Includes(h: string, n: string): (r: bool)
    ensures r <==> exists i :: OccursAt(h, n, i)
    decreases |h|
  {
    if |n| > |h| then false
    else if h[..|n|] == n then
      assert OccursAt(h, n, 0);
      true
    else
      var r := Includes(h[1..], n);
      assert r ==> exists i :: OccursAt(h, n, i) by {
        if r {
          var i :| OccursAt(h[1..], n, i);
          assert h[i + 1..i + 1 + |n|] == n;
          assert OccursAt(h, n, i + 1);
        }
      }
      assert (exists i :: OccursAt(h, n, i)) ==> r by {
        if exists i :: OccursAt(h, n, i) {
          var i :| OccursAt(h, n, i);
          assert i != 0;
          assert h[1..][i - 1..i - 1 + |n|] == n;
          assert OccursAt(h[1..], n, i - 1);
        }
      }
      r
  }

  predicate IsDigit(c: char) {
    '0' <= c <= '9'
  }

  predicate AllDigits(s: string) {
    forall i :: 0 <= i < |s| ==> IsDigit(s[i])
  }

  function DigitChar(d: nat): (c: char)
    requires d < 10
    ensures IsDigit(c) && c as int - '0' as int == d
  {
    ('0' as int + d) as char
  }

  /** The number a string of decimal digits denotes. */
  function DecimalValue(s: string): nat
    requires AllDigits(s)
  {
    if s == [] then 0 else DecimalValue(s[..|s| - 1]) * 10 + (s[|s| - 1] as int - '0' as int)
  }

  function Pow10(k: nat): (p: nat)
    ensures p >= 1
  {
    if k == 0 then 1 else 10 * Pow10(k - 1)
  }

  /** `String(n)` for a non-negative integer: its shortest decimal digits. */
  function Digits(n: nat): (r: string)
    ensures 1 <= |r| && AllDigits(r)
    ensures DecimalValue(r) == n
    ensures (n < 10) == (|r| == 1)
  {
    if n < 10 then [DigitChar(n)]
    else
      var r := Digits(n / 10) + [DigitChar(n % 10)];
      assert r[..|r| - 1] == Digits(n / 10);
      r
  }

  /** `String(n)` never has more digits than the decimal width that holds `n`. */
  lemma {:induction false} DigitsWidth(n: nat, w: nat)
    requires 1 <= w
    ensures n < Pow10(w) ==> |Digits(n)| <= w
    ensures Pow10(w - 1) <= n ==> |Digits(n)| >= w
  {
    if n >= 10 && w > 1 {
      DigitsWidth(n / 10, w - 1);
    }
    if n >= 10 && w == 1 {
      assert |Digits(n)| >= 2;
    }
    if n < 10 && w > 1 {
      assert Pow10(w - 1) >= 10 by { PowMonotone(1, w - 1); }
    }
  }

  lemma SmallPowers()
    ensures Pow10(1) == 10 && Pow10(2) == 100 && Pow10(3) == 1000 && Pow10(4) == 10000
  {
    assert Pow10(1) == 10;
    assert Pow10(2) == 100;
    assert Pow10(3) == 1000;
  }

  lemma {:induction false} PowMonotone(a: nat, b: nat)
    requires a <= b
    ensures Pow10(a) <= Pow10(b)
  {
    if a < b { PowMonotone(a, b - 1); }
  }

  function Zeros(k: nat): (r: string)
    ensures |r| == k && AllDigits(r)
  {
    if k == 0 then [] else "0" + Zeros(k - 1)
  }

  /** `s.padStart(w, '0')` */
  function PadStart(s: string, w: nat): (r: string)
    ensures |r| == if |s| < w then w else |s|
    ensures r[|r| - |s|..] == s
  {
    if |s| < w then Zeros(w - |s|) + s else s
  }

  /** Leading zeros do not change the value of a digit string. */
  lemma {:induction false} LeadingZerosValue(k: nat, s: string)
    requires AllDigits(s)
    ensures AllDigits(Zeros(k) + s) && DecimalValue(Zeros(k) + s) == DecimalValue(s)
    decreases |s|, k
  {
    var z := Zeros(k) + s;
    if s == [] {
      assert z == Zeros(k);
      if k > 0 {
        assert z[..|z| - 1] == Zeros(k - 1) + [] by {
          assert Zeros(k) == "0" + Zeros(k - 1);
          assert Zeros(k) == Zeros(k - 1) + "0" by { ZerosSnoc(k); }
        }
        LeadingZerosValue(k - 1, []);
      }
    } else {
      assert z[..|z| - 1] == Zeros(k) + s[..|s| - 1];
      LeadingZerosValue(k, s[..|s| - 1]);
    }
  }

  lemma {:induction false} ZerosSnoc(k: nat)
    requires k > 0
    ensures Zeros(k) == Zeros(k - 1) + "0"
  {
    if k > 1 { ZerosSnoc(k - 1); }
  }

  /** `String(n).padStart(w, '0')` */
  function Padded(n: nat, w: nat): string {
    PadStart(Digits(n), w)
  }

  /** A number that fits in `w` digits pads to exactly `w` digits that read back as `n`. */
  lemma PaddedRoundTrip(n: nat, w: nat)
    requires 1 <= w && n < Pow10(w)
    ensures |Padded(n, w)| == w && AllDigits(Padded(n, w)) && DecimalValue(Padded(n, w)) == n
  {
    DigitsWidth(n, w);
    var d := Digits(n);
    if |d| < w {
      LeadingZerosValue(w - |d|, d);
    }
  }
}
