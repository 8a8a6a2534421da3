/**
 * The PHP string builtins both plugins rely on, over `string` (= seq<char>):
 * `empty()` on a string value, `strtolower`/`ucfirst` (ASCII only, as in
 * PHP 8.2 and later), `str_replace` for the two patterns the plugins use,
 * `trim`, `explode` on ",", integer-to-string conversion and
 * `sprintf('%0Nd')`. Neither plugin calls `strtoupper` or `implode`: they,
 * like the decoders (`DigitsValue`), exist only to state properties
 * (case-insensitivity, round-trips).
 */
module PhpText {

  // ---------------------------------------------------------------------------
  // empty()

  /** `empty($s)` for a string value: PHP treats "" and "0" as empty. An absent
      option (`false`) is represented by "". */
  predicate IsEmpty(s: string) {
    s == "" || s == "0"
  }

  // ---------------------------------------------------------------------------
  // Case mapping (ASCII, locale-independent)

  predicate IsUpperAscii(c: char) { 'A' <= c <= 'Z' }
  predicate IsLowerAscii(c: char) { 'a' <= c <= 'z' }

  function LowerChar(c: char): char {
    if IsUpperAscii(c) then (c as int + 32) as char else c
  }

  function UpperChar(c: char): char {
    if IsLowerAscii(c) then (c as int - 32) as char else c
  }

  /** strtolower */
  function ToLower(s: string): (r: string)
    ensures |r| == |s|
  {
    if s == [] then [] else [LowerChar(s[0])] + ToLower(s[1..])
  }

  /** strtoupper */
  function ToUpper(s: string): (r: string)
    ensures |r| == |s|
  {
    if s == [] then [] else [UpperChar(s[0])] + ToUpper(s[1..])
  }

  /** ucfirst: upper-cases the first character, leaves the rest. */
  function UcFirst(s: string): (r: string)
    ensures |r| == |s|
    ensures |s| > 0 ==> r[0] == UpperChar(s[0]) && r[1..] == s[1..]
    ensures s == [] || !IsLowerAscii(s[0]) ==> r == s
  {
    if s == [] then [] else [UpperChar(s[0])] + s[1..]
  }

  // ---------------------------------------------------------------------------
  // str_replace

  /** str_replace(' ', '', s) */
  function RemoveSpaces(s: string): (r: string)
    ensures ' ' !in r
    ensures |r| <= |s|
  {
    if s == [] then []
    else if s[0] == ' ' then RemoveSpaces(s[1..])
    else [s[0]] + RemoveSpaces(s[1..])
  }

  /** str_replace(['.', ','], '_', s) */
  function DotsAndCommasToUnderscores(s: string): (r: string)
    ensures |r| == |s|
    ensures '.' !in r && ',' !in r
    ensures forall i :: 0 <= i < |s| ==> r[i] == (if s[i] == '.' || s[i] == ',' then '_' else s[i])
  {
    seq(|s|, i requires 0 <= i < |s| => if s[i] == '.' || s[i] == ',' then '_' else s[i])
  }

  lemma {:induction false} RemoveSpacesAppend(a: string, b: string)
    ensures RemoveSpaces(a + b) == RemoveSpaces(a) + RemoveSpaces(b)
  {
    if a == [] {
      assert a + b == b;
    } else {
      assert (a + b)[1..] == a[1..] + b;
      RemoveSpacesAppend(a[1..], b);
    }
  }

  lemma {:induction false} LowerOfUpper(s: string)
    ensures ToLower(ToUpper(s)) == ToLower(s)
  {
    if s != [] {
      var u := ToUpper(s);
      assert u[0] == UpperChar(s[0]) && u[1..] == ToUpper(s[1..]);
      LowerOfUpper(s[1..]);
    }
  }

  lemma {:induction false} LowerOfLower(s: string)
    ensures ToLower(ToLower(s)) == ToLower(s)
  {
    if s != [] {
      var l := ToLower(s);
      assert l[0] == LowerChar(s[0]) && l[1..] == ToLower(s[1..]);
      LowerOfLower(s[1..]);
    }
  }

  /** Lower-casing forgets what ucfirst changed. */
  lemma LowerOfUcFirst(s: string)
    ensures ToLower(UcFirst(s)) == ToLower(s)
  {
    if s != [] {
      var u := UcFirst(s);
      assert u[0] == UpperChar(s[0]) && u[1..] == s[1..];
      assert LowerChar(UpperChar(s[0])) == LowerChar(s[0]);
    }
  }

  lemma TakeOneMore<T>(s: seq<T>, n: nat)
    requires n < |s|
    ensures s[..n + 1] == s[..n] + [s[n]]
  {
  }

  lemma ThreeAsSingles<T>(a: T, b: T, c: T)
    ensures [a, b, c] == [a] + ([b] + [c])
  {
  }

  lemma PairOfSingles<T>(f: T, g: T)
    ensures [f] + ([] + [g]) == [f, g]
  {
  }

  lemma AppendAssoc<T>(a: seq<T>, b: seq<T>, c: seq<T>)
    ensures (a + b) + c == a + (b + c)
  {
  }

  /** Removing spaces commutes with lower-casing (the space is not a letter). */
  lemma {:induction false} RemoveSpacesToLower(s: string)
    ensures RemoveSpaces(ToLower(s)) == ToLower(RemoveSpaces(s))
  {
    if s != [] {
      assert ToLower(s)[1..] == ToLower(s[1..]);
      RemoveSpacesToLower(s[1..]);
      if s[0] != ' ' {
        assert ToLower([s[0]] + RemoveSpaces(s[1..])) == [LowerChar(s[0])] + ToLower(RemoveSpaces(s[1..]));
      }
    }
  }

  /** Removing spaces commutes with upper-casing. */
  lemma {:induction false} RemoveSpacesToUpper(s: string)
    ensures RemoveSpaces(ToUpper(s)) == ToUpper(RemoveSpaces(s))
  {
    if s != [] {
      assert ToUpper(s)[1..] == ToUpper(s[1..]);
      RemoveSpacesToUpper(s[1..]);
      if s[0] != ' ' {
        assert ToUpper([s[0]] + RemoveSpaces(s[1..])) == [UpperChar(s[0])] + ToUpper(RemoveSpaces(s[1..]));
      }
    }
  }

  // ---------------------------------------------------------------------------
  // trim

  /** The characters PHP's trim() strips by default: " \t\n\r\0\x0B". */
  predicate IsTrimmed(c: char) {
    c == ' ' || c == '\t' || c == '\n' || c == '\r' || c == '\0' || c == '\U{B}'
  }

  predicate AllTrimmed(s: string) {
    forall i :: 0 <= i < |s| ==> IsTrimmed(s[i])
  }

  function TrimStart(s: string): (r: string)
    ensures |r| <= |s| && r == s[|s| - |r|..]
    ensures r == [] || !IsTrimmed(r[0])
    ensures AllTrimmed(s[..|s| - |r|])
  {
    if s != [] && IsTrimmed(s[0]) then
      var r := TrimStart(s[1..]);
      assert s[..|s| - |r|] == [s[0]] + s[1..][..|s| - 1 - |r|];
      r
    else s
  }

  function TrimEnd(s: string): (r: string)
    ensures |r| <= |s| && r == s[..|r|]
    ensures r == [] || !IsTrimmed(r[|r| - 1])
    ensures AllTrimmed(s[|r|..])
  {
    if s != [] && IsTrimmed(s[|s| - 1]) then
      var r := TrimEnd(s[..|s| - 1]);
      assert s[|r|..] == s[..|s| - 1][|r|..] + [s[|s| - 1]];
      r
    else s
  }

  /** `r` sits at offset `k` of `s`, and every character of `s` before or
      after it is one that trim() strips. */
  predicate TrimmedInfix(s: string, r: string, k: nat) {
    k + |r| <= |s| && s[k..k + |r|] == r && AllTrimmed(s[..k]) && AllTrimmed(s[k + |r|..])
  }

  /** trim: the infix left after removing trimmed characters, and only those,
      from both ends; it neither starts nor ends with one. */
  function Trim(s: string): (r: string)
    ensures exists k :: TrimmedInfix(s, r, k)
    ensures r == [] || (!IsTrimmed(r[0]) && !IsTrimmed(r[|r| - 1]))
    ensures s == [] || (!IsTrimmed(s[0]) && !IsTrimmed(s[|s| - 1])) ==> r == s
  {
    TrimBothEnds(s);
    TrimEnd(TrimStart(s))
  }

  lemma TrimBothEnds(s: string)
    ensures TrimmedInfix(s, TrimEnd(TrimStart(s)), |s| - |TrimStart(s)|)
  {
    var t := TrimStart(s);
    BlanksAround(s, t, TrimEnd(t));
  }

  lemma BlanksAround(s: string, t: string, r: string)
    requires |t| <= |s| && t == s[|s| - |t|..]
    requires |r| <= |t| && r == t[..|r|]
    requires AllTrimmed(s[..|s| - |t|]) && AllTrimmed(t[|r|..])
    ensures TrimmedInfix(s, r, |s| - |t|)
  {
    var k := |s| - |t|;
    assert s[k + |r|..] == t[|r|..];
  }

  lemma {:induction false} TrimStartBlanks(pre: string, t: string)
    requires AllTrimmed(pre)
    requires t == [] || !IsTrimmed(t[0])
    ensures TrimStart(pre + t) == t
  {
    if pre == [] {
      assert pre + t == t;
    } else {
      assert (pre + t)[1..] == pre[1..] + t;
      TrimStartBlanks(pre[1..], t);
    }
  }

  lemma {:induction false} TrimEndBlanks(t: string, post: string)
    requires AllTrimmed(post)
    requires t == [] || !IsTrimmed(t[|t| - 1])
    ensures TrimEnd(t + post) == t
  {
    if post == [] {
      assert t + post == t;
    } else {
      var n := |post| - 1;
      assert (t + post)[..|t| + n] == t + post[..n];
      TrimEndBlanks(t, post[..n]);
    }
  }

  /** trim removes exactly the blanks around a text that neither starts nor
      ends with one: trim(" date ") is "date". */
  lemma TrimPadded(pre: string, x: string, post: string)
    requires AllTrimmed(pre) && AllTrimmed(post)
    requires x != [] && !IsTrimmed(x[0]) && !IsTrimmed(x[|x| - 1])
    ensures Trim(pre + x + post) == x
  {
    AppendAssoc(pre, x, post);
    TrimStartBlanks(pre, x + post);
    TrimEndBlanks(x, post);
  }

  // ---------------------------------------------------------------------------
  // explode(',', s) / implode(',', xs)

  /** explode(',', s): the pieces between commas; always at least one piece. */
  function Explode(s: string): (r: seq<string>)
    ensures |r| >= 1
    ensures forall i :: 0 <= i < |r| ==> ',' !in r[i]
  {
    if s == [] then [""]
    else
      var rest := Explode(s[1..]);
      if s[0] == ',' then [""] + rest
      else [[s[0]] + rest[0]] + rest[1..]
  }

  /** implode(',', xs) for a non-empty list. */
  function Implode(xs: seq<string>): (r: string)
    requires |xs| >= 1
    ensures |r| >= |xs| - 1
    ensures |r| >= |xs[0]|
  {
    if |xs| == 1 then xs[0] else xs[0] + "," + Implode(xs[1..])
  }

  /** Joining the pieces of explode with commas gives back the input. */
  lemma {:induction false} ImplodeExplode(s: string)
    ensures Implode(Explode(s)) == s
  {
    if s != [] {
      var rest := Explode(s[1..]);
      ImplodeExplode(s[1..]);
      if s[0] == ',' {
        assert ([""] + rest)[1..] == rest;
      } else if |rest| == 1 {
        assert Implode(Explode(s)) == [s[0]] + rest[0];
      } else {
        var r := [[s[0]] + rest[0]] + rest[1..];
        assert r[1..] == rest[1..];
        assert Implode(rest) == rest[0] + "," + Implode(rest[1..]);
      }
    }
  }

  lemma {:induction false} ExplodePrefix(a: string, t: string)
    requires ',' !in a
    ensures Explode(a + t) == [a + Explode(t)[0]] + Explode(t)[1..]
  {
    if a != [] {
      assert (a + t)[0] == a[0] && (a + t)[1..] == a[1..] + t;
      ExplodePrefix(a[1..], t);
      var rest := Explode(a[1..] + t);
      assert rest[0] == a[1..] + Explode(t)[0] && rest[1..] == Explode(t)[1..];
      assert Explode(a + t) == [[a[0]] + rest[0]] + rest[1..];
      assert [a[0]] + (a[1..] + Explode(t)[0]) == a + Explode(t)[0];
    } else {
      assert a + t == t && a + Explode(t)[0] == Explode(t)[0];
      assert Explode(t) == [Explode(t)[0]] + Explode(t)[1..];
    }
  }

  /** Splitting comma-free pieces joined by commas gives back the pieces. */
  lemma {:induction false} ExplodeImplode(xs: seq<string>)
    requires |xs| >= 1
    requires forall i :: 0 <= i < |xs| ==> ',' !in xs[i]
    ensures Explode(Implode(xs)) == xs
  {
    if |xs| == 1 {
      ExplodePrefix(xs[0], "");
      assert xs[0] + "" == xs[0];
    } else {
      ExplodeImplode(xs[1..]);
      var t := "," + Implode(xs[1..]);
      ExplodePrefix(xs[0], t);
      assert t[1..] == Implode(xs[1..]);
      assert Explode(t) == [""] + xs[1..];
      assert xs[0] + "" == xs[0];
      assert xs[0] + "," + Implode(xs[1..]) == xs[0] + t;
    }
  }

  /** Three comma-free pieces joined by commas split back into those pieces. */
  lemma ExplodeThree(a: string, b: string, c: string)
    requires ',' !in a && ',' !in b && ',' !in c
    ensures Explode(a + "," + b + "," + c) == [a, b, c]
  {
    CommaFreeThree(a, b, c);
    ExplodeImplode([a, b, c]);
    ImplodeThree(a, b, c);
  }

  lemma CommaFreeThree(a: string, b: string, c: string)
    requires ',' !in a && ',' !in b && ',' !in c
    ensures forall i :: 0 <= i < |[a, b, c]| ==> ',' !in [a, b, c][i]
  {
    var xs := [a, b, c];
    forall i | 0 <= i < 3
      ensures ',' !in xs[i]
    {
      if i == 0 { assert xs[i] == a; } else if i == 1 { assert xs[i] == b; } else { assert xs[i] == c; }
    }
  }

  lemma ImplodeThree(a: string, b: string, c: string)
    ensures Implode([a, b, c]) == a + "," + b + "," + c
  {
    assert [a, b, c][1..] == [b, c] && [b, c][1..] == [c];
    assert Implode([b, c]) == b + "," + c;
    assert Implode([a, b, c]) == a + "," + (b + "," + c);
  }

  // ---------------------------------------------------------------------------
  // Concatenation

  /** implode('', $parts): the parts one after another, as repeated `.=` builds them. */
  function Concat(parts: seq<string>): string {
    if parts == [] then "" else Concat(parts[..|parts| - 1]) + parts[|parts| - 1]
  }

  // ---------------------------------------------------------------------------
  // Integer to string, sprintf('%0Nd')

  predicate IsDigit(c: char) { '0' <= c <= '9' }

  predicate AllDigits(s: string) {
    forall i :: 0 <= i < |s| ==> IsDigit(s[i])
  }

  function Digit(n: nat): (c: char)
    requires n < 10
    ensures IsDigit(c) && c as int - '0' as int == n
  {
    ('0' as int + n) as char
  }

  function DigitValue(c: char): nat
    requires IsDigit(c)
  {
    c as int - '0' as int
  }

  /** Decimal representation of a non-negative integer, as PHP's `(string)$n`. */
  function Decimal(n: nat): (r: string)
    ensures |r| >= 1 && AllDigits(r)
  {
    if n < 10 then [Digit(n)] else Decimal(n / 10) + [Digit(n % 10)]
  }

  function Pow10(w: nat): (p: nat)
    ensures p >= 1
  {
    if w == 0 then 1 else 10 * Pow10(w - 1)
  }

  function Zeros(k: nat): (r: string)
    ensures |r| == k && AllDigits(r)
  {
    seq(k, _ => '0')
  }

  /** sprintf('%0{w}d', n): left-padded with zeros to at least w characters. */
  function ZeroPad(n: nat, w: nat): (r: string)
    ensures AllDigits(r) && |r| >= w && |r| >= 1
  {
    var d := Decimal(n);
    if |d| >= w then d else Zeros(w - |d|) + d
  }

  /** The number a string of digits denotes (leading zeros allowed). */
  function DigitsValue(s: string): nat
    requires AllDigits(s)
  {
    if s == [] then 0 else DigitsValue(s[..|s| - 1]) * 10 + DigitValue(s[|s| - 1])
  }

  /** A string of w digits denotes a number below 10^w. */
  lemma {:induction false} DigitsValueBound(s: string)
    requires AllDigits(s)
    ensures DigitsValue(s) < Pow10(|s|)
  {
    if s != [] {
      DigitsValueBound(s[..|s| - 1]);
    }
  }

  lemma {:induction false} DecimalRoundTrip(n: nat)
    ensures DigitsValue(Decimal(n)) == n
  {
    if n >= 10 {
      DecimalRoundTrip(n / 10);
      var d := Decimal(n);
      assert d[..|d| - 1] == Decimal(n / 10);
    }
  }

  lemma {:induction false} ZerosValue(k: nat)
    ensures DigitsValue(Zeros(k)) == 0
  {
    if k > 0 {
      assert Zeros(k)[..k - 1] == Zeros(k - 1);
      ZerosValue(k - 1);
    }
  }

  lemma {:induction false} LeadingZerosValue(k: nat, s: string)
    requires AllDigits(s)
    ensures DigitsValue(Zeros(k) + s) == DigitsValue(s)
  {
    if s == [] {
      assert Zeros(k) + s == Zeros(k);
      ZerosValue(k);
    } else {
      var t := Zeros(k) + s;
      assert t[..|t| - 1] == Zeros(k) + s[..|s| - 1];
      LeadingZerosValue(k, s[..|s| - 1]);
    }
  }

  /** sprintf('%0{w}d') loses nothing: the digits decode to the number. */
  lemma ZeroPadRoundTrip(n: nat, w: nat)
    ensures DigitsValue(ZeroPad(n, w)) == n
  {
    DecimalRoundTrip(n);
    var d := Decimal(n);
    if |d| < w {
      LeadingZerosValue(w - |d|, d);
    }
  }

  lemma {:induction false} DecimalLength(n: nat, w: nat)
    requires w >= 1 && n < Pow10(w)
    ensures |Decimal(n)| <= w
  {
    if n >= 10 {
      assert w >= 2;
      assert n / 10 < Pow10(w - 1);
      DecimalLength(n / 10, w - 1);
    }
  }

  /** A number below 10^w is padded to exactly w characters. */
  lemma ZeroPadWidth(n: nat, w: nat)
    requires w >= 1 && n < Pow10(w)
    ensures |ZeroPad(n, w)| == w
  {
    DecimalLength(n, w);
  }

  /** Equal padded strings of in-range numbers mean equal numbers. */
  lemma ZeroPadInjective(n: nat, m: nat, w: nat)
    requires ZeroPad(n, w) == ZeroPad(m, w)
    ensures n == m
  {
    ZeroPadRoundTrip(n, w);
    ZeroPadRoundTrip(m, w);
  }

  /** `(string)$n` is injective. */
  lemma DecimalInjective(n: nat, m: nat)
    requires Decimal(n) == Decimal(m)
    ensures n == m
  {
    DecimalRoundTrip(n);
    DecimalRoundTrip(m);
  }

  // ---------------------------------------------------------------------------
  // Splitting at a separator

  /** In `a + [sep] + b` with `sep` not in `a`, the first `sep` sits at |a|. */
  lemma FirstSeparator(a: string, b: string, sep: char)
    requires sep !in a
    ensures (a + [sep] + b)[|a|] == sep
    ensures forall i :: 0 <= i < |a| ==> (a + [sep] + b)[i] != sep
  {
    assert forall i :: 0 <= i < |a| ==> (a + [sep] + b)[i] == a[i];
  }

  /** A separator that the left parts do not contain splits a concatenation uniquely. */
  lemma SplitAtSeparator(a: string, b: string, c: string, d: string, sep: char)
    requires sep !in a && sep !in c
    requires a + [sep] + b == c + [sep] + d
    ensures a == c && b == d
  {
    var x := a + [sep] + b;
    FirstSeparator(a, b, sep);
    FirstSeparator(c, d, sep);
    assert |a| == |c|;
    assert a == x[..|a|] == c;
    assert b == x[|a| + 1..] == d;
  }
}
