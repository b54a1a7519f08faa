/** The JavaScript built-ins that the portal's logic leans on, stated over
    `string` (= `seq<char>`): `String.prototype.trim`, `toLowerCase`,
    `replace` with a global one-character pattern, `Number.prototype.toString`
    on integers and `parseInt` without a radix. */
module JsBuiltins {
  import opened Wrappers

  /** The WhiteSpace and LineTerminator code points of ECMA-262 (sections 12.2
      and 12.3): what `trim` strips and what `parseInt` skips at the front. */
  predicate IsWhiteSpace(c: char) {
    || c == '\t' || c == '\n' || c == '\U{000B}' || c == '\U{000C}' || c == '\r'
    || c == ' ' || c == '\U{00A0}' || c == '\U{1680}'
    || ('\U{2000}' <= c <= '\U{200A}')
    || c == '\U{2028}' || c == '\U{2029}' || c == '\U{202F}' || c == '\U{205F}'
    || c == '\U{3000}' || c == '\U{FEFF}'
  }

  /** Every character of `s` is white space (the empty string included). */
  predicate Blank(s: string) {
    forall i :: 0 <= i < |s| ==> IsWhiteSpace(s[i])
  }

  /** How many white-space characters `s` starts with. */
  function LeadingBlanks(s: string): (k: nat)
    ensures k <= |s| && Blank(s[..k])
    ensures k < |s| ==> !IsWhiteSpace(s[k])
  {
    if s != [] && IsWhiteSpace(s[0]) then
      var k := LeadingBlanks(s[1..]);
      assert s[..k + 1] == [s[0]] + s[1..][..k];
      BlankCons(s[0], s[1..][..k]);
      k + 1
    else
      0
  }

  /** How many white-space characters `s` ends with. */
  function TrailingBlanks(s: string): (k: nat)
    ensures k <= |s| && Blank(s[|s| - k..])
    ensures k < |s| ==> !IsWhiteSpace(s[|s| - k - 1])
  {
    if s != [] && IsWhiteSpace(s[|s| - 1]) then
      var init := s[..|s| - 1];
      var k := TrailingBlanks(init);
      assert s[|s| - (k + 1)..] == init[|init| - k..] + [s[|s| - 1]];
      BlankSnoc(init[|init| - k..], s[|s| - 1]);
      k + 1
    else
      0
  }

  /** A blank text stays blank with white space in front. */
  lemma BlankCons(c: char, a: string)
    requires IsWhiteSpace(c) && Blank(a)
    ensures Blank([c] + a)
  {
  }

  /** A blank text stays blank with white space behind. */
  lemma BlankSnoc(a: string, c: char)
    requires Blank(a) && IsWhiteSpace(c)
    ensures Blank(a + [c])
  {
  }

  /** `s.trimStart()`: `s` without its longest all-white-space prefix. */
  function TrimStart(s: string): (r: string)
    ensures |r| <= |s| && r == s[|s| - |r|..]
    ensures Blank(s[..|s| - |r|])
    ensures r == [] || !IsWhiteSpace(r[0])
  {
    s[LeadingBlanks(s)..]
  }

  /** `s.trimEnd()`: `s` without its longest all-white-space suffix. */
  function TrimEnd(s: string): (r: string)
    ensures |r| <= |s| && r == s[..|r|]
    ensures Blank(s[|r|..])
    ensures r == [] || !IsWhiteSpace(r[|r| - 1])
  {
    s[..|s| - TrailingBlanks(s)]
  }

  /** `s.trim()`. */
  function Trim(s: string): string {
    TrimEnd(TrimStart(s))
  }

  /** Trimming the empty string gives the empty string. */
  lemma TrimEmpty()
    ensures Trim([]) == []
  {
    assert TrimStart([]) == [];
  }

  /** Where `Trim(s)` starts inside `s`. */
  function TrimOffset(s: string): nat
    ensures TrimOffset(s) <= |s|
  {
    |s| - |TrimStart(s)|
  }

  lemma TrimStartEmptyIffBlank(s: string)
    ensures TrimStart(s) == [] <==> Blank(s)
  {
    var t := TrimStart(s);
    if t == [] {
      assert s[..|s| - |t|] == s;
    } else {
      var k := |s| - |t|;
      assert t[0] == s[k] && !IsWhiteSpace(s[k]);
    }
  }

  lemma TrimEndEmptyIffBlank(s: string)
    ensures TrimEnd(s) == [] <==> Blank(s)
  {
    var t := TrimEnd(s);
    if t == [] {
      assert s[|t|..] == s;
    } else {
      assert t[|t| - 1] == s[|t| - 1] && !IsWhiteSpace(s[|t| - 1]);
    }
  }

  /** `trim` returns the slice of `s` left between a blank prefix and a blank
      suffix. */
  lemma TrimIsInnerSlice(s: string)
    ensures TrimOffset(s) + |Trim(s)| <= |s|
    ensures Trim(s) == s[TrimOffset(s)..TrimOffset(s) + |Trim(s)|]
    ensures Blank(s[..TrimOffset(s)]) && Blank(s[TrimOffset(s) + |Trim(s)|..])
  {
    var t := TrimStart(s);
    var r := TrimEnd(t);
    var k := TrimOffset(s);
    assert k == |s| - |t|;
    assert Trim(s) == r;
    InnerSlice(s, t, r, k);
  }

  /** A prefix `r` of a suffix `t` of `s` is the slice of `s` starting where
      `t` starts, at `k`; what `t` leaves in front and `r` leaves behind stay
      blank. */
  lemma InnerSlice(s: string, t: string, r: string, k: nat)
    requires |t| <= |s| && k == |s| - |t| && t == s[k..] && Blank(s[..k])
    requires |r| <= |t| && r == t[..|r|] && Blank(t[|r|..])
    ensures k + |r| <= |s|
    ensures r == s[k..k + |r|]
    ensures Blank(s[..k]) && Blank(s[k + |r|..])
  {
    assert s[k + |r|..] == t[|r|..];
  }

  /** What `trim` returns neither starts nor ends with white space, and it is
      empty exactly when `s` is blank. */
  lemma TrimEnds(s: string)
    ensures Trim(s) != [] ==> !IsWhiteSpace(Trim(s)[0]) && !IsWhiteSpace(Trim(s)[|Trim(s)| - 1])
    ensures Trim(s) == [] <==> Blank(s)
  {
    var t, r := TrimStart(s), Trim(s);
    if r != [] {
      assert r[0] == t[0];
    }
    TrimStartEmptyIffBlank(s);
    TrimEndEmptyIffBlank(t);
  }

  /** Trimming twice trims no more than trimming once. */
  lemma TrimIdempotent(s: string)
    ensures Trim(Trim(s)) == Trim(s)
  {
    var r := Trim(s);
    TrimEnds(s);
    assert TrimStart(r) == r;
    assert TrimEnd(r) == r;
  }

  /** `c.toLowerCase()` on the ASCII range; every other character is kept. */
  function ToLowerChar(c: char): char {
    if 'A' <= c <= 'Z' then (c as int - 'A' as int + 'a' as int) as char else c
  }

  /** `s.toLowerCase()`, character by character. */
  function ToLowerCase(s: string): string {
    seq(|s|, i requires 0 <= i < |s| => ToLowerChar(s[i]))
  }

  /** `s.replace(/c/g, '')`: every occurrence of `c` removed, every other
      character kept, in order. */
  function RemoveAll(s: string, c: char): (r: string)
    ensures c !in r
    ensures |r| <= |s|
  {
    if s == [] then [] else (if s[0] == c then [] else [s[0]]) + RemoveAll(s[1..], c)
  }

  /** Every character other than `c` is kept as often as it occurs. */
  lemma {:induction false} RemoveAllKeepsOthers(s: string, c: char)
    ensures forall x :: x != c ==> multiset(RemoveAll(s, c))[x] == multiset(s)[x]
  {
    if s != [] {
      RemoveAllKeepsOthers(s[1..], c);
      assert s == [s[0]] + s[1..];
    }
  }

  /** Removing `c` distributes over concatenation, so the order of what is
      kept is the order in `s`. */
  lemma {:induction false} RemoveAllAppend(a: string, b: string, c: char)
    ensures RemoveAll(a + b, c) == RemoveAll(a, c) + RemoveAll(b, c)
  {
    if a != [] {
      assert (a + b)[0] == a[0];
      assert (a + b)[1..] == a[1..] + b;
      RemoveAllAppend(a[1..], b, c);
    } else {
      assert a + b == b;
    }
  }

  /** A string without `c` is left unchanged. */
  lemma {:induction false} RemoveAllAbsent(s: string, c: char)
    requires c !in s
    ensures RemoveAll(s, c) == s
  {
    if s != [] {
      RemoveAllAbsent(s[1..], c);
    }
  }

  /** Removing `c` twice removes nothing more. */
  lemma RemoveAllIdempotent(s: string, c: char)
    ensures RemoveAll(RemoveAll(s, c), c) == RemoveAll(s, c)
  {
    RemoveAllAbsent(RemoveAll(s, c), c);
  }

  predicate IsDigit(c: char) {
    '0' <= c <= '9'
  }

  predicate AllDigits(s: string) {
    forall i :: 0 <= i < |s| ==> IsDigit(s[i])
  }

  function DigitChar(d: int): (c: char)
    requires 0 <= d < 10
    ensures IsDigit(c)
  {
    ('0' as int + d) as char
  }

  /** The decimal text `n.toString()` gives for a natural number: no sign,
      no leading zero unless `n` is zero. */
  function NatToString(n: nat): (r: string)
    ensures r != [] && AllDigits(r)
    ensures r[0] == '0' ==> n == 0
  {
    if n < 10 then [DigitChar(n)] else NatToString(n / 10) + [DigitChar(n % 10)]
  }

  /** Below this magnitude `Number.prototype.toString` writes an integer in
      plain decimal; from it on it switches to exponent notation ("1e+21"). */
  const ExponentThreshold: int := 1_000_000_000_000_000_000_000

  /** `n` is written by `toString` without an exponent. */
  predicate PlainDecimal(n: int) {
    -ExponentThreshold < n < ExponentThreshold
  }

  /** `n.toString()` for an integer `n` in plain decimal, the form JavaScript
      uses for every `n` with `PlainDecimal(n)`; the exponent form beyond
      that is not modelled. */
  function IntToString(n: int): string {
    if n < 0 then "-" + NatToString(-n) else NatToString(n)
  }

  /** The longest prefix of `s` made of decimal digits. */
  function DigitPrefix(s: string): (r: string)
    ensures |r| <= |s| && r == s[..|r|] && AllDigits(r)
    ensures |r| < |s| ==> !IsDigit(s[|r|])
  {
    if s != [] && IsDigit(s[0]) then [s[0]] + DigitPrefix(s[1..]) else []
  }

  /** The value of a string of decimal digits, read left to right. */
  function DigitsValue(s: string): nat
    requires AllDigits(s)
  {
    if s == [] then 0 else 10 * DigitsValue(s[..|s| - 1]) + (s[|s| - 1] as int - '0' as int)
  }

  /** The value of the run of decimal digits `s` starts with; `None` when
      it does not start with a digit. */
  function LeadingValue(s: string): Option<int> {
    var digits := DigitPrefix(s);
    if digits == [] then None else Some(DigitsValue(digits))
  }

  /** `parseInt` past its leading white space: an optional sign, then the
      longest run of decimal digits. */
  function ParseSigned(t: string): Option<int> {
    if t != [] && t[0] == '-' then
      match LeadingValue(t[1..])
      case None => None
      case Some(v) => Some(-v)
    else if t != [] && t[0] == '+' then LeadingValue(t[1..])
    else LeadingValue(t)
  }

  /** `parseInt(s)` with no radix: skip leading white space, take an optional
      sign, then the longest run of decimal digits; `None` stands for `NaN`
      (no digit at all). */
  function ParseInt(s: string): Option<int> {
    ParseSigned(TrimStart(s))
  }

  lemma {:induction false} DigitsValueOfNatToString(n: nat)
    ensures DigitsValue(NatToString(n)) == n
  {
    if n >= 10 {
      var s := NatToString(n);
      assert s[..|s| - 1] == NatToString(n / 10);
      DigitsValueOfNatToString(n / 10);
    }
  }

  lemma DigitPrefixOfDigits(s: string)
    requires AllDigits(s)
    ensures DigitPrefix(s) == s
  {
  }

  /** The text of an integer starts with a digit or a minus sign, so there
      is no white space for `parseInt` to skip. */
  lemma TrimStartOfIntToString(n: int)
    ensures TrimStart(IntToString(n)) == IntToString(n)
  {
    var s := IntToString(n);
    assert s != [] && (s[0] == '-' || IsDigit(s[0]));
    TrimStartOfUnpadded(s);
  }

  /** Text that does not start with white space is not trimmed. */
  lemma TrimStartOfUnpadded(s: string)
    requires s != [] && !IsWhiteSpace(s[0])
    ensures TrimStart(s) == s
  {
    assert LeadingBlanks(s) == 0;
  }

  /** A run of digits is read as its value. */
  lemma LeadingValueOfDigits(s: string)
    requires s != [] && AllDigits(s)
    ensures LeadingValue(s) == Some(DigitsValue(s) as int)
  {
    DigitPrefixOfDigits(s);
  }

  /** `parseInt` reads an unsigned run of digits as its value. */
  lemma ParseIntOfDigits(s: string)
    requires s != [] && AllDigits(s)
    ensures ParseInt(s) == Some(DigitsValue(s) as int)
  {
    TrimStartOfUnpadded(s);
    LeadingValueOfDigits(s);
  }

  /** `parseInt` reads a minus sign and a run of digits as the negated
      value. */
  lemma ParseIntOfNegatedDigits(s: string)
    requires s != [] && AllDigits(s)
    ensures ParseInt("-" + s) == Some(-(DigitsValue(s) as int))
  {
    var t := "-" + s;
    TrimStartOfUnpadded(t);
    assert t[1..] == s;
    LeadingValueOfDigits(s);
    ParseSignedNegative(t);
  }

  /** After a minus sign `parseInt` negates the value of the digits. */
  lemma ParseSignedNegative(t: string)
    requires t != [] && t[0] == '-' && LeadingValue(t[1..]).Some?
    ensures ParseSigned(t) == Some(-LeadingValue(t[1..]).value)
  {
  }

  /** `parseInt` of the plain decimal text of `n` gives `n` back, for every
      integer `n`; JavaScript writes that text exactly when `PlainDecimal(n)`. */
  lemma ParseIntToString(n: int)
    ensures ParseInt(IntToString(n)) == Some(n)
  {
    if n < 0 {
      var digits := NatToString(-n);
      assert IntToString(n) == "-" + digits;
      assert DigitsValue(digits) == -n by {
        DigitsValueOfNatToString(-n);
      }
      ParseIntOfNegatedDigits(digits);
    } else {
      var digits := NatToString(n);
      assert IntToString(n) == digits;
      assert DigitsValue(digits) == n by {
        DigitsValueOfNatToString(n);
      }
      ParseIntOfDigits(digits);
    }
  }

  /** The decimal text of an integer holds no comma, so stripping commas
      before `parseInt` leaves it unchanged. */
  lemma StripCommasOfIntToString(n: int)
    ensures RemoveAll(IntToString(n), ',') == IntToString(n)
  {
    RemoveAllAbsent(IntToString(n), ',');
  }
}
