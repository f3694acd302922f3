/**
 The string operations the scrapers apply to page text: `strip`, `lower`,
 `in`, `split`, Python's `float()` on a string, `str()` on an int, and the
 handful of small regular expressions that run on values computed inside
 the extraction loops, written out as scanners that find the same leftmost
 match. Characters are compared as ASCII.
 */
module PyText {
  import opened Wrappers

  /** The characters Python's `str.isspace()` accepts, which `strip()` and
      `float()` remove from both ends of a text. */
  predicate IsSpace(c: char) {
    c == ' ' || '\t' <= c <= '\r' || '\U{1C}' <= c <= '\U{1F}' || c == '\U{85}' || c == '\U{A0}'
    || c == '\U{1680}' || '\U{2000}' <= c <= '\U{200A}' || c == '\U{2028}' || c == '\U{2029}'
    || c == '\U{202F}' || c == '\U{205F}' || c == '\U{3000}'
  }

  predicate IsDigit(c: char) {
    '0' <= c <= '9'
  }

  predicate AllDigits(s: string) {
    forall i :: 0 <= i < |s| ==> IsDigit(s[i])
  }

  // ---------------------------------------------------------------------------
  // strip, lower, membership, splitting

  /** The characters `s.strip(chars)` removes: whitespace when `chars` is
      None, otherwise the one character given. */
  predicate Stripped(x: char, chars: Option<char>) {
    match chars
    case None => IsSpace(x)
    case Some(c) => x == c
  }

  predicate AllStripped(s: string, chars: Option<char>) {
    forall k :: 0 <= k < |s| ==> Stripped(s[k], chars)
  }

  function TrimStart(s: string, chars: Option<char>): (r: string)
    ensures |r| <= |s|
    ensures r == [] || !Stripped(r[0], chars)
  {
    if s != [] && Stripped(s[0], chars) then TrimStart(s[1..], chars) else s
  }

  /** `TrimStart` leaves a suffix of the text. */
  lemma {:induction false} TrimStartIsSuffix(s: string, chars: Option<char>)
    ensures TrimStart(s, chars) == s[|s| - |TrimStart(s, chars)|..]
    decreases |s|
  {
    if s != [] && Stripped(s[0], chars) {
      TrimStartIsSuffix(s[1..], chars);
    }
  }

  /** What `TrimStart` removes are stripped characters. */
  lemma {:induction false} TrimStartRemoves(s: string, chars: Option<char>)
    ensures AllStripped(s[..|s| - |TrimStart(s, chars)|], chars)
    decreases |s|
  {
    if s != [] && Stripped(s[0], chars) {
      TrimStartRemoves(s[1..], chars);
      var n := |s| - |TrimStart(s, chars)|;
      assert forall k :: 1 <= k < n ==> s[..n][k] == s[1..][..n - 1][k - 1];
    }
  }

  function TrimEnd(s: string, chars: Option<char>): (r: string)
    ensures |r| <= |s|
    ensures r == [] || !Stripped(r[|r| - 1], chars)
  {
    if s != [] && Stripped(s[|s| - 1], chars) then TrimEnd(s[..|s| - 1], chars) else s
  }

  /** `TrimEnd` leaves a prefix of the text. */
  lemma {:induction false} TrimEndIsPrefix(s: string, chars: Option<char>)
    ensures TrimEnd(s, chars) == s[..|TrimEnd(s, chars)|]
    decreases |s|
  {
    if s != [] && Stripped(s[|s| - 1], chars) {
      TrimEndIsPrefix(s[..|s| - 1], chars);
    }
  }

  /** What `TrimEnd` removes are stripped characters. */
  lemma {:induction false} TrimEndRemoves(s: string, chars: Option<char>)
    ensures AllStripped(s[|TrimEnd(s, chars)|..], chars)
    decreases |s|
  {
    if s != [] && Stripped(s[|s| - 1], chars) {
      TrimEndRemoves(s[..|s| - 1], chars);
      var n := |TrimEnd(s, chars)|;
      assert forall k :: 0 <= k < |s| - 1 - n ==> s[n..][k] == s[..|s| - 1][n..][k];
    }
  }

  /** Python `s.strip()`, or `s.strip(c)` for one character `c`. */
  function Strip(s: string, chars: Option<char> := None): (r: string)
    ensures |r| <= |s|
    ensures r == [] || (!Stripped(r[0], chars) && !Stripped(r[|r| - 1], chars))
  {
    TrimEndIsPrefix(TrimStart(s, chars), chars);
    TrimEnd(TrimStart(s, chars), chars)
  }

  /** `strip` removes stripped characters from both ends, and only from the
      ends: what it leaves is an infix of the text with nothing but stripped
      characters around it. */
  lemma StripIsInfix(s: string, chars: Option<char>)
    ensures exists a, b ::
      && 0 <= a <= b <= |s| && Strip(s, chars) == s[a..b]
      && AllStripped(s[..a], chars) && AllStripped(s[b..], chars)
  {
    var t := TrimStart(s, chars);
    var r := TrimEnd(t, chars);
    TrimStartRemoves(s, chars);
    TrimEndRemoves(t, chars);
    TrimStartIsSuffix(s, chars);
    TrimEndIsPrefix(t, chars);
    var a := |s| - |t|;
    assert r == s[a..a + |r|];
    assert s[a + |r|..] == t[|r|..];
  }

  lemma AllStrippedConcat(x: string, y: string, chars: Option<char>)
    requires AllStripped(x, chars) && AllStripped(y, chars)
    ensures AllStripped(x + y, chars)
  {
    assert forall k :: |x| <= k < |x + y| ==> (x + y)[k] == y[k - |x|];
  }

  lemma {:induction false} TrimStartPrefix(p: string, t: string, chars: Option<char>)
    requires AllStripped(p, chars)
    requires t == [] || !Stripped(t[0], chars)
    ensures TrimStart(p + t, chars) == t
    decreases |p|
  {
    if p != [] {
      assert (p + t)[0] == p[0];
      assert (p + t)[1..] == p[1..] + t;
      TrimStartPrefix(p[1..], t, chars);
    }
  }

  lemma {:induction false} TrimEndSuffix(t: string, q: string, chars: Option<char>)
    requires AllStripped(q, chars)
    requires t == [] || !Stripped(t[|t| - 1], chars)
    ensures TrimEnd(t + q, chars) == t
    decreases |q|
  {
    if q != [] {
      assert (t + q)[|t + q| - 1] == q[|q| - 1];
      assert (t + q)[..|t + q| - 1] == t + q[..|q| - 1];
      TrimEndSuffix(t, q[..|q| - 1], chars);
    }
  }

  /** What `strip` leaves is unique: stripping `p + m + q`, where `p` and `q`
      consist of stripped characters and `m` neither starts nor ends with
      one, gives back `m`. */
  lemma StripOf(p: string, m: string, q: string, chars: Option<char>)
    requires AllStripped(p, chars) && AllStripped(q, chars)
    requires m == [] || (!Stripped(m[0], chars) && !Stripped(m[|m| - 1], chars))
    ensures Strip(p + m + q, chars) == m
  {
    if m == [] {
      AllStrippedConcat(p, q, chars);
      assert p + m + q == (p + q) + [];
      TrimStartPrefix(p + q, [], chars);
    } else {
      assert (m + q)[0] == m[0];
      assert p + m + q == p + (m + q);
      TrimStartPrefix(p, m + q, chars);
      TrimEndSuffix(m, q, chars);
    }
  }

  /** A text that neither starts nor ends with a stripped character is its
      own `strip`. */
  lemma StripClean(s: string, chars: Option<char>)
    requires s == [] || (!Stripped(s[0], chars) && !Stripped(s[|s| - 1], chars))
    ensures Strip(s, chars) == s
  {
    assert [] + s == s && s + [] == s;
    TrimStartPrefix([], s, chars);
    TrimEndSuffix(s, [], chars);
  }

  function LowerChar(c: char): char {
    if 'A' <= c <= 'Z' then (c as int + 32) as char else c
  }

  /** Python `s.lower()`. */
  function Lower(s: string): (r: string)
    ensures |r| == |s|
    ensures forall i :: 0 <= i < |s| ==> r[i] == LowerChar(s[i])
  {
    seq(|s|, i requires 0 <= i < |s| => LowerChar(s[i]))
  }

  /** A text without capital letters is its own lower case. */
  lemma LowerUnchanged(s: string)
    requires forall i | 0 <= i < |s| :: !('A' <= s[i] <= 'Z')
    ensures Lower(s) == s
  {
  }

  /** Python `sub in s`. */
  predicate Contains(s: string, sub: string)
    decreases |s|
  {
    if |sub| > |s| then false
    else if s[..|sub|] == sub then true
    else Contains(s[1..], sub)
  }

  predicate EndsWith(s: string, suffix: string) {
    |suffix| <= |s| && s[|s| - |suffix|..] == suffix
  }

  predicate StartsWith(s: string, prefix: string) {
    |prefix| <= |s| && s[..|prefix|] == prefix
  }

  /** The index of the first `c` in `s`. */
  function IndexOf(s: string, c: char): (r: Option<nat>)
    ensures r.Some? ==> r.value < |s| && s[r.value] == c && c !in s[..r.value]
    ensures r.None? ==> c !in s
  {
    if s == [] then None
    else if s[0] == c then Some(0)
    else match IndexOf(s[1..], c)
      case None => None
      case Some(i) => assert s[..i + 1] == [s[0]] + s[1..][..i]; Some(i + 1)
  }

  /** Python `s.split(sep)` for a one-character separator. */
  function Split(s: string, sep: char): (r: seq<string>)
    ensures |r| >= 1
    ensures forall i :: 0 <= i < |r| ==> sep !in r[i]
    decreases |s|
  {
    match IndexOf(s, sep)
    case None => [s]
    case Some(i) => [s[..i]] + Split(s[i + 1..], sep)
  }

  /** Python `sep.join(pieces)`. */
  function Join(pieces: seq<string>, sep: char): string {
    if pieces == [] then []
    else if |pieces| == 1 then pieces[0]
    else pieces[0] + [sep] + Join(pieces[1..], sep)
  }

  /** Joining the pieces of a split gives back the text. */
  lemma {:induction false} SplitJoin(s: string, sep: char)
    ensures Join(Split(s, sep), sep) == s
    decreases |s|
  {
    match IndexOf(s, sep)
    case None =>
    case Some(i) =>
      var rest := Split(s[i + 1..], sep);
      SplitJoin(s[i + 1..], sep);
      assert Split(s, sep) == [s[..i]] + rest;
      assert ([s[..i]] + rest)[1..] == rest;
      assert s == s[..i] + [sep] + s[i + 1..];
  }

  /** Splitting the join of separator-free pieces gives back the pieces. */
  lemma {:induction false} JoinSplit(pieces: seq<string>, sep: char)
    requires |pieces| >= 1
    requires forall i :: 0 <= i < |pieces| ==> sep !in pieces[i]
    ensures Split(Join(pieces, sep), sep) == pieces
    decreases |pieces|
  {
    if |pieces| > 1 {
      var p := pieces[0];
      var rest := Join(pieces[1..], sep);
      JoinSplit(pieces[1..], sep);
      SplitAtFirstJoined(p, rest, sep);
      var s := p + [sep] + rest;
      var i := IndexOf(s, sep).value;
      assert forall k :: 0 <= k < |p| ==> s[k] == p[k];
      assert s[|p|] == sep;
      assert i == |p|;
      assert s[..i] == p;
      assert s[i + 1..] == rest;
      assert pieces == [p] + pieces[1..];
    }
  }

  /** `s.split(sep, 1)` when `sep in s`: the text before the first `sep` and
      the text after it; None when `sep` does not occur. */
  function SplitAtFirst(s: string, sep: char): (r: Option<(string, string)>)
    ensures r.None? <==> sep !in s
    ensures r.Some? ==> s == r.value.0 + [sep] + r.value.1 && sep !in r.value.0
  {
    match IndexOf(s, sep)
    case None => None
    case Some(i) =>
      assert s == s[..i] + [sep] + s[i + 1..];
      Some((s[..i], s[i + 1..]))
  }

  /** Splitting a text built as `a + [sep] + b`, with no `sep` in `a`, gives
      back `a` and `b`. */
  lemma SplitAtFirstJoined(a: string, b: string, sep: char)
    requires sep !in a
    ensures SplitAtFirst(a + [sep] + b, sep) == Some((a, b))
  {
    var s := a + [sep] + b;
    assert s[|a|] == sep;
    var r := SplitAtFirst(s, sep).value;
    assert r.0 == s[..|a|] == a;
    assert r.1 == s[|a| + 1..] == b;
  }

  // ---------------------------------------------------------------------------
  // numbers

  function DigitValue(c: char): nat {
    if IsDigit(c) then (c as int - '0' as int) as nat else 0
  }

  /** The value of a string of decimal digits. */
  function DigitsValue(s: string): nat {
    if s == [] then 0 else DigitsValue(s[..|s| - 1]) * 10 + DigitValue(s[|s| - 1])
  }

  /** The end of the run of digits that starts at `i`. */
  function DigitRunEnd(s: string, i: nat): (j: nat)
    requires i <= |s|
    ensures i <= j <= |s|
    ensures forall k :: i <= k < j ==> IsDigit(s[k])
    ensures j < |s| ==> !IsDigit(s[j])
    decreases |s| - i
  {
    if i < |s| && IsDigit(s[i]) then DigitRunEnd(s, i + 1) else i
  }

  /** The texts `float()` reads as an unsigned decimal: digits, or digits, a
      point and digits, with at least one digit somewhere. */
  predicate DecimalText(t: string) {
    (t != [] && AllDigits(t))
    || (exists i :: 0 <= i < |t| && t[i] == '.' && AllDigits(t[..i]) && AllDigits(t[i + 1..]) && |t| >= 2)
  }

  /** The run of digits at the start of a decimal text ends at its point, or
      at its end when it has none. */
  lemma DecimalTextRunEnd(t: string)
    requires DecimalText(t)
    ensures var j := DigitRunEnd(t, 0);
      (j == |t| && t != []) || (j < |t| && t[j] == '.' && AllDigits(t[j + 1..]) && |t| >= 2)
  {
    var j := DigitRunEnd(t, 0);
    if !(t != [] && AllDigits(t)) {
      var i :| 0 <= i < |t| && t[i] == '.' && AllDigits(t[..i]) && AllDigits(t[i + 1..]) && |t| >= 2;
      assert !IsDigit(t[i]);
      assert forall k :: 0 <= k < i ==> t[..i][k] == t[k];
      assert j == i;
    }
  }

  /** The value `0.frac` of the digits after a decimal point: the first digit
      counts tenths, and the rest a tenth of their own value. */
  function FractionValue(frac: string): (x: real)
    ensures 0.0 <= x < 1.0
  {
    if frac == [] then 0.0 else (DigitValue(frac[0]) as real + FractionValue(frac[1..])) / 10.0
  }

  /** The number written `whole.frac`: the whole part plus the fraction the
      digits after the point spell. */
  function DecimalValue(whole: string, frac: string): real {
    DigitsValue(whole) as real + FractionValue(frac)
  }

  /** The text of a decimal number without sign: digits, or digits and a
      point and digits, with at least one digit somewhere. */
  function ParseUnsigned(t: string): (r: Option<real>)
    ensures r.Some? ==> r.value >= 0.0
  {
    var j := DigitRunEnd(t, 0);
    if j == |t| then
      if j == 0 then None else Some(DigitsValue(t) as real)
    else if t[j] == '.' && AllDigits(t[j + 1..]) && (j > 0 || j + 1 < |t|) then
      Some(DecimalValue(t[..j], t[j + 1..]))
    else None
  }

  /** `float()` accepts exactly the decimal texts. */
  lemma ParseUnsignedAccepts(t: string)
    ensures ParseUnsigned(t).Some? <==> DecimalText(t)
  {
    var j := DigitRunEnd(t, 0);
    if DecimalText(t) {
      DecimalTextRunEnd(t);
    }
    if j < |t| && t[j] == '.' && AllDigits(t[j + 1..]) && (j > 0 || j + 1 < |t|) {
      assert forall k :: 0 <= k < j ==> t[..j][k] == t[k];
      assert t[j] == '.' && AllDigits(t[..j]) && AllDigits(t[j + 1..]) && |t| >= 2;
    }
  }

  /** A run of digits reads as the whole number it spells. */
  lemma ParseUnsignedDigits(d: string)
    requires d != [] && AllDigits(d)
    ensures ParseUnsigned(d) == Some(DigitsValue(d) as real)
  {
  }

  /** Digits, a point and digits read as the number they write. */
  lemma ParseUnsignedDecimal(d1: string, d2: string)
    requires AllDigits(d1) && AllDigits(d2) && d1 + d2 != []
    ensures ParseUnsigned(d1 + "." + d2)
      == Some(DecimalValue(d1, d2))
  {
    var t := d1 + "." + d2;
    assert t[|d1|] == '.' && t[..|d1|] == d1 && t[|d1| + 1..] == d2;
    var j := DigitRunEnd(t, 0);
    assert !IsDigit(t[|d1|]);
    assert forall k :: 0 <= k < |d1| ==> t[k] == d1[k];
    assert j == |d1|;
    ParseUnsignedAtPoint(t, j);
  }

  /** A text whose leading digits stop at a point followed by digits reads
      as whole part plus fraction. */
  lemma ParseUnsignedAtPoint(t: string, j: nat)
    requires j == DigitRunEnd(t, 0) && j < |t| && t[j] == '.' && AllDigits(t[j + 1..]) && (j > 0 || j + 1 < |t|)
    ensures ParseUnsigned(t)
      == Some(DecimalValue(t[..j], t[j + 1..]))
  {
  }

  function DigitChar(d: nat): (c: char)
    requires d < 10
    ensures IsDigit(c) && DigitValue(c) == d
  {
    ('0' as int + d) as char
  }

  /** Python `str(n)` for a non-negative int. */
  function NatToDecimal(n: nat): (s: string)
    ensures |s| >= 1 && AllDigits(s)
  {
    if n < 10 then [DigitChar(n)] else NatToDecimal(n / 10) + [DigitChar(n % 10)]
  }

  /** Python `str(i)` for an int. */
  function IntToDecimal(i: int): (s: string)
    ensures |s| >= 1
  {
    if i < 0 then "-" + NatToDecimal(-i) else NatToDecimal(i)
  }

  /** Reading a decimal integer back: an optional minus sign and digits. */
  function ParseInt(s: string): Option<int> {
    if |s| > 0 && s[0] == '-' then
      if |s| > 1 && AllDigits(s[1..]) then Some(-(DigitsValue(s[1..]) as int)) else None
    else if |s| > 0 && AllDigits(s) then Some(DigitsValue(s) as int)
    else None
  }

  /** The digits `str(n)` writes are read back as `n`. */
  lemma {:induction false} NatToDecimalRoundTrip(n: nat)
    ensures DigitsValue(NatToDecimal(n)) == n
  {
    if n >= 10 {
      NatToDecimalRoundTrip(n / 10);
      var s := NatToDecimal(n / 10) + [DigitChar(n % 10)];
      assert s[..|s| - 1] == NatToDecimal(n / 10);
    }
  }

  /** `str(i)` of any int reads back as `i`: rendering an HTTP status into a
      message loses nothing. */
  lemma IntToDecimalRoundTrip(i: int)
    ensures ParseInt(IntToDecimal(i)) == Some(i)
  {
    var n: nat := if i < 0 then -i else i;
    var d := NatToDecimal(n);
    NatToDecimalRoundTrip(n);
    assert IsDigit(d[0]);
    if i < 0 {
      var s := "-" + d;
      assert s == IntToDecimal(i);
      assert s[1..] == d;
      assert ParseInt(s) == Some(-(DigitsValue(d) as int));
    } else {
      assert d == IntToDecimal(i);
      assert ParseInt(d) == Some(DigitsValue(d) as int);
    }
  }

  /** Python `float(s)` on a string: surrounding whitespace, an optional sign
      and a decimal number; None where Python raises ValueError. */
  function ParseFloat(s: string): Option<real>
  {
    var t := Strip(s);
    if |t| > 0 && (t[0] == '+' || t[0] == '-') then
      match ParseUnsigned(t[1..])
      case None => None
      case Some(x) => Some(if t[0] == '-' then -x else x)
    else ParseUnsigned(t)
  }

  /** Only a leading minus sign makes `float()` negative. */
  lemma ParseFloatSign(s: string)
    ensures ParseFloat(s).Some? && ParseFloat(s).value < 0.0 ==> |Strip(s)| > 0 && Strip(s)[0] == '-'
  {
  }

  /** `float()` accepts a decimal text with an optional sign, once the
      surrounding whitespace is stripped, and nothing else. */
  lemma ParseFloatAccepts(s: string)
    ensures var t := Strip(s);
      ParseFloat(s).Some? <==>
        || DecimalText(t)
        || (|t| > 0 && (t[0] == '+' || t[0] == '-') && DecimalText(t[1..]))
  {
    var t := Strip(s);
    ParseUnsignedAccepts(t);
    if |t| > 0 && (t[0] == '+' || t[0] == '-') {
      ParseUnsignedAccepts(t[1..]);
      assert !DecimalText(t) by {
        assert !IsDigit(t[0]);
        forall i | 0 < i < |t|
          ensures !AllDigits(t[..i])
        {
          assert t[..i][0] == t[0];
        }
      }
    }
  }

  /** `float(str(i))` is `i` for every int: the decimal text `str` writes is
      read back with its sign. */
  lemma ParseFloatOfInt(i: int)
    ensures ParseFloat(IntToDecimal(i)) == Some(i as real)
  {
    if i < 0 {
      ParseFloatOfNegative(-i);
      assert IntToDecimal(i) == "-" + NatToDecimal(-i);
    } else {
      ParseFloatOfNat(i);
    }
  }

  /** `str` of a natural number, read back by `float()`. */
  lemma ParseFloatOfNat(n: nat)
    ensures ParseFloat(IntToDecimal(n)) == Some(n as real)
  {
    var d := NatToDecimal(n);
    NatToDecimalRoundTrip(n);
    ParseFloatOfSignedDigits(d);
    assert IntToDecimal(n) == d;
  }

  /** `str` of a negative number, `-` and the digits of its magnitude, read
      back by `float()` with its sign. */
  lemma ParseFloatOfNegative(n: nat)
    ensures ParseFloat("-" + NatToDecimal(n)) == Some(-(n as real))
  {
    var d := NatToDecimal(n);
    NatToDecimalRoundTrip(n);
    ParseFloatOfMinus(d, n);
  }

  /** A minus sign and a run of digits, read by `float()` as the negated
      value `v` of the digits. */
  lemma ParseFloatOfMinus(d: string, v: nat)
    requires d != [] && AllDigits(d) && DigitsValue(d) == v
    ensures ParseFloat("-" + d) == Some(-(v as real))
  {
    ParseFloatOfSignedDigits(d);
  }

  /** A run of digits, alone or behind a minus sign, read by `float()`. */
  lemma ParseFloatOfSignedDigits(d: string)
    requires d != [] && AllDigits(d)
    ensures ParseFloat(d) == Some(DigitsValue(d) as real)
    ensures ParseFloat("-" + d) == Some(-(DigitsValue(d) as real))
  {
    ParseUnsignedDigits(d);
    assert IsDigit(d[0]) && IsDigit(d[|d| - 1]);
    StripClean(d, None);
    var s := "-" + d;
    StripClean(s, None);
    assert s[1..] == d;
  }

  // ---------------------------------------------------------------------------
  // the small regular expressions, as leftmost-match scanners

  /** The end of a match of `\d+\.?\d*` that starts at the digit `s[i]`. */
  function NumberEnd(s: string, i: nat): (j: nat)
    requires i < |s| && IsDigit(s[i])
    ensures i < j <= |s|
  {
    var k := DigitRunEnd(s, i);
    if k < |s| && s[k] == '.' then DigitRunEnd(s, k + 1) else k
  }

  /** The texts `\d+\.?\d*` matches: a digit first, then only digits and at
      most one point. */
  predicate NumberText(t: string) {
    && |t| >= 1 && IsDigit(t[0]) && AllDigitsOrPoints(t)
    && forall i, j | 0 <= i < j < |t| :: t[i] == '.' ==> t[j] != '.'
  }

  /** A match of `\d+\.?\d*` ending at `e` is greedy: the text goes on with
      no digit, and with no point either when the match has none. */
  predicate GreedyEnd(s: string, e: nat, m: string) {
    && (e < |s| ==> !IsDigit(s[e]))
    && ('.' !in m && e < |s| ==> s[e] != '.')
  }

  /** What `NumberEnd` cuts out is the greedy match of `\d+\.?\d*`. */
  lemma NumberEndGreedy(s: string, i: nat)
    requires i < |s| && IsDigit(s[i])
    ensures var m := s[i..NumberEnd(s, i)];
      && |m| >= 1 && i + |m| <= |s| && m == s[i..i + |m|]
      && NumberText(m) && GreedyEnd(s, i + |m|, m)
  {
    var k := DigitRunEnd(s, i);
    var e := NumberEnd(s, i);
    var m := s[i..e];
    assert forall j :: 0 <= j < |m| ==> m[j] == s[i + j];
    if k < |s| && s[k] == '.' {
      assert m[k - i] == '.';
      forall a, b | 0 <= a < b < |m| && m[a] == '.'
        ensures m[b] != '.'
      {
        assert a + i == k;
      }
    } else {
      assert e == k;
      assert '.' !in m by {
        forall j | 0 <= j < |m| ensures m[j] != '.' { assert IsDigit(s[i + j]); }
      }
    }
  }

  /** The four regular expressions the extractors run on computed values. */
  datatype Pattern =
    | SevenDigits      // \d{7}
    | SignedNumber     // [+-]?\d+\.?\d*
    | UnsignedNumber   // \d+\.?\d*
    | DigitsAndPoints  // [0-9.]+

  predicate IsDigitOrPoint(c: char) {
    IsDigit(c) || c == '.'
  }

  /** Whether a match of `p` starts at position `k` of `s`. */
  predicate StartsAt(p: Pattern, s: string, k: nat) {
    match p
    case SevenDigits => k + 7 <= |s| && AllDigits(s[k..k + 7])
    case SignedNumber =>
      k < |s| && (IsDigit(s[k]) || ((s[k] == '+' || s[k] == '-') && k + 1 < |s| && IsDigit(s[k + 1])))
    case UnsignedNumber => k < |s| && IsDigit(s[k])
    case DigitsAndPoints => k < |s| && IsDigitOrPoint(s[k])
  }

  /** The leftmost position at or after `i` where a match of `p` starts, None
      when there is none. */
  function FirstStart(p: Pattern, s: string, i: nat): (k: Option<nat>)
    requires i <= |s|
    ensures k.Some? ==> i <= k.value < |s| && StartsAt(p, s, k.value)
    ensures k.Some? ==> forall j: nat :: i <= j < k.value ==> !StartsAt(p, s, j)
    ensures k.None? <==> forall j: nat :: i <= j ==> !StartsAt(p, s, j)
    decreases |s| - i
  {
    if i == |s| then None
    else if StartsAt(p, s, i) then Some(i)
    else FirstStart(p, s, i + 1)
  }

  predicate AllDigitsOrPoints(t: string) {
    forall j :: 0 <= j < |t| ==> IsDigitOrPoint(t[j])
  }

  function DigitOrPointRunEnd(s: string, i: nat): (j: nat)
    requires i <= |s|
    ensures i <= j <= |s|
    ensures forall k :: i <= k < j ==> IsDigitOrPoint(s[k])
    ensures j < |s| ==> !IsDigitOrPoint(s[j])
    decreases |s| - i
  {
    if i < |s| && IsDigitOrPoint(s[i]) then DigitOrPointRunEnd(s, i + 1) else i
  }

  /** `re.search(r'(\d{7})', s)`: the seven digits at the leftmost position
      where seven digits occur, None when there is none. */
  function FindSevenDigits(s: string): (r: Option<string>)
    ensures r.Some? ==> |r.value| == 7 && AllDigits(r.value)
    ensures r.Some? ==> exists k: nat ::
      && StartsAt(SevenDigits, s, k) && r.value == s[k..k + 7]
      && forall j: nat :: j < k ==> !StartsAt(SevenDigits, s, j)
    ensures r.None? <==> forall k: nat :: !StartsAt(SevenDigits, s, k)
  {
    match FirstStart(SevenDigits, s, 0)
    case None => None
    case Some(k) => Some(s[k..k + 7])
  }

  /** `re.search(r'([+-]?\d+\.?\d*)', s)`: the match at the leftmost position
      where one starts, None when there is none. */
  function FirstSignedNumber(s: string): (r: Option<string>)
    ensures r.Some? ==> |r.value| >= 1
    ensures r.Some? ==> exists k: nat ::
      && StartsAt(SignedNumber, s, k) && k + |r.value| <= |s| && r.value == s[k..k + |r.value|]
      && GreedyEnd(s, k + |r.value|, r.value)
      && forall j: nat :: j < k ==> !StartsAt(SignedNumber, s, j)
    ensures r.None? <==> forall k: nat :: !StartsAt(SignedNumber, s, k)
    ensures r.Some? ==> NumberText(r.value) || ((r.value[0] == '+' || r.value[0] == '-') && NumberText(r.value[1..]))
  {
    match FirstStart(SignedNumber, s, 0)
    case None => None
    case Some(k) =>
      SignedMatchGreedy(s, k);
      Some(SignedMatch(s, k))
  }

  /** The match of `[+-]?\d+\.?\d*` that starts at `k`: the sign, if any,
      then the greedy unsigned number. */
  function SignedMatch(s: string, k: nat): string
    requires StartsAt(SignedNumber, s, k)
  {
    s[k..NumberEnd(s, if IsDigit(s[k]) then k else k + 1)]
  }

  lemma SignedMatchGreedy(s: string, k: nat)
    requires StartsAt(SignedNumber, s, k)
    ensures var m := SignedMatch(s, k);
      && |m| >= 1 && k + |m| <= |s| && m == s[k..k + |m|]
      && (NumberText(m) || ((m[0] == '+' || m[0] == '-') && NumberText(m[1..])))
      && GreedyEnd(s, k + |m|, m)
  {
    var d := if IsDigit(s[k]) then k else k + 1;
    var e := NumberEnd(s, d);
    var m := s[k..e];
    NumberEndGreedy(s, d);
    if d == k + 1 {
      assert m[1..] == s[d..e];
      assert m[0] == s[k];
      if '.' in s[d..e] {
        var j :| 0 <= j < |s[d..e]| && s[d..e][j] == '.';
        assert m[j + 1] == '.';
      }
    }
  }

  /** The whole signed number is taken, not just its first characters. */
  lemma SignedNumberTakesAll()
    ensures FirstSignedNumber("at -33.9 S") == Some("-33.9")
  {
    var s := "at -33.9 S";
    assert !StartsAt(SignedNumber, s, 0) && !StartsAt(SignedNumber, s, 1) && !StartsAt(SignedNumber, s, 2);
    assert StartsAt(SignedNumber, s, 3);
    assert FirstStart(SignedNumber, s, 0) == Some(3) by {
      assert FirstStart(SignedNumber, s, 3) == Some(3);
      assert FirstStart(SignedNumber, s, 2) == Some(3);
      assert FirstStart(SignedNumber, s, 1) == Some(3);
    }
    assert DigitRunEnd(s, 6) == 6;
    assert DigitRunEnd(s, 5) == 6;
    assert DigitRunEnd(s, 4) == 6;
    assert DigitRunEnd(s, 8) == 8;
    assert DigitRunEnd(s, 7) == 8;
    assert NumberEnd(s, 4) == 8;
    assert s[3..8] == "-33.9";
  }

  /** `re.findall(r'\d+\.?\d*', s)[0]`: findall's first match is the one at
      the leftmost digit; None when there is no digit. */
  function FirstUnsignedNumber(s: string): (r: Option<string>)
    ensures r.Some? ==> |r.value| >= 1 && IsDigit(r.value[0])
    ensures r.Some? ==> exists k: nat ::
      && StartsAt(UnsignedNumber, s, k) && k + |r.value| <= |s| && r.value == s[k..k + |r.value|]
      && GreedyEnd(s, k + |r.value|, r.value)
      && forall j: nat :: j < k ==> !StartsAt(UnsignedNumber, s, j)
    ensures r.None? <==> forall k: nat :: !StartsAt(UnsignedNumber, s, k)
    ensures r.Some? ==> NumberText(r.value)
  {
    match FirstStart(UnsignedNumber, s, 0)
    case None => None
    case Some(k) =>
      var m := s[k..NumberEnd(s, k)];
      NumberEndGreedy(s, k);
      assert |m| >= 1 && IsDigit(m[0]);
      Some(m)
  }

  /** `re.search(r'([0-9.]+)', s)`: the whole run of digits and points at the
      leftmost such character, None when there is none. */
  function FirstDigitsAndPoints(s: string): (r: Option<string>)
    ensures r.Some? ==> |r.value| >= 1 && AllDigitsOrPoints(r.value)
    ensures r.Some? ==> exists k: nat ::
      && StartsAt(DigitsAndPoints, s, k) && k + |r.value| <= |s| && r.value == s[k..k + |r.value|]
      && (k + |r.value| == |s| || !IsDigitOrPoint(s[k + |r.value|]))
      && forall j: nat :: j < k ==> !StartsAt(DigitsAndPoints, s, j)
    ensures r.None? <==> forall k: nat :: !StartsAt(DigitsAndPoints, s, k)
  {
    match FirstStart(DigitsAndPoints, s, 0)
    case None => None
    case Some(k) =>
      DigitOrPointRunTaken(s, k);
      Some(s[k..DigitOrPointRunEnd(s, k)])
  }

  /** The run of digits and points from `k` is an infix of `s` that the text
      does not continue. */
  lemma DigitOrPointRunTaken(s: string, k: nat)
    requires k <= |s|
    ensures var m := s[k..DigitOrPointRunEnd(s, k)];
      && AllDigitsOrPoints(m) && k + |m| <= |s| && m == s[k..k + |m|]
      && (k + |m| == |s| || !IsDigitOrPoint(s[k + |m|]))
  {
    var m := s[k..DigitOrPointRunEnd(s, k)];
    assert forall j :: 0 <= j < |m| ==> m[j] == s[k + j];
  }
}
