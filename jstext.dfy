/** The JavaScript string built-ins the pages and the notifier use:
    `replace(/\D/g, "")`, `replace(/,/g, "")` and the global `parseInt` with
    no radix argument (ECMAScript's `parseInt (string, radix)`). Strings are
    sequences of characters; `None` stands for `NaN`. */
module JsText {
  import opened Seqs

  datatype Option<+T> = None | Some(value: T)

  /** A character matched by the regular-expression class `\d`. */
  predicate IsDigit(c: char) {
    '0' <= c <= '9'
  }

  predicate AllDigits(s: string) {
    forall i :: 0 <= i < |s| ==> IsDigit(s[i])
  }

  /** `value.replace(/\D/g, "")`: every character that is not a decimal
      digit removed. */
  function Digits(v: string): (r: string)
    ensures AllDigits(r)
    ensures |r| <= |v|
  {
    Filter(v, IsDigit)
  }

  /** `value.replace(/,/g, "")`: every comma removed. */
  function StripCommas(s: string): (r: string)
    ensures ',' !in r
    ensures |r| <= |s|
  {
    Filter(s, NotComma)
  }

  predicate NotComma(c: char) {
    c != ','
  }

  lemma DigitsOfDigits(d: string)
    requires AllDigits(d)
    ensures Digits(d) == d
  {
    FilterAll(d, IsDigit);
  }

  /** Text without a comma goes through `replace(/,/g, "")` unchanged. */
  lemma StripCommasNoComma(s: string)
    ensures ',' !in s ==> StripCommas(s) == s
  {
    if ',' !in s {
      FilterAll(s, NotComma);
    }
  }

  /** The characters `parseInt` skips before the number: ECMAScript's
      WhiteSpace (TAB, VT, FF, ZWNBSP and the space separators) and
      LineTerminator (LF, CR, LS, PS). */
  predicate IsJsWhiteSpace(c: char) {
    || c == '\t' || c == '\U{000B}' || c == '\U{000C}' || c == '\U{FEFF}'
    || c == ' ' || c == '\U{00A0}' || c == '\U{1680}'
    || ('\U{2000}' <= c <= '\U{200A}') || c == '\U{202F}' || c == '\U{205F}' || c == '\U{3000}'
    || c == '\n' || c == '\r' || c == '\U{2028}' || c == '\U{2029}'
  }

  function TrimStart(s: string): (r: string)
    ensures |r| <= |s| && r == s[|s| - |r|..]
    ensures r == [] || !IsJsWhiteSpace(r[0])
  {
    if s != [] && IsJsWhiteSpace(s[0]) then TrimStart(s[1..]) else s
  }

  predicate IsRadixDigit(c: char, radix: nat) {
    if radix == 16 then IsDigit(c) || 'a' <= c <= 'f' || 'A' <= c <= 'F'
    else IsDigit(c)
  }

  function DigitValue(c: char): (v: nat)
    requires IsDigit(c) || 'a' <= c <= 'f' || 'A' <= c <= 'F'
    ensures v < 16
    ensures IsDigit(c) ==> v < 10
  {
    if IsDigit(c) then c as int - '0' as int
    else if 'a' <= c <= 'f' then c as int - 'a' as int + 10
    else c as int - 'A' as int + 10
  }

  /** The longest prefix of `s` made of digits in the radix. */
  function DigitPrefix(s: string, radix: nat): (r: string)
    ensures |r| <= |s| && r == s[..|r|]
    ensures forall i :: 0 <= i < |r| ==> IsRadixDigit(r[i], radix)
    ensures |r| < |s| ==> !IsRadixDigit(s[|r|], radix)
  {
    if s != [] && IsRadixDigit(s[0], radix) then [s[0]] + DigitPrefix(s[1..], radix) else []
  }

  /** The value of a digit string read most significant digit first. */
  function Value(ds: string, radix: nat): (v: nat)
    requires radix == 10 || radix == 16
    requires forall i :: 0 <= i < |ds| ==> IsRadixDigit(ds[i], radix)
  {
    if ds == [] then 0
    else
      assert IsRadixDigit(ds[|ds| - 1], radix);
      Value(ds[..|ds| - 1], radix) * radix + DigitValue(ds[|ds| - 1])
  }

  function DecimalValue(d: string): nat
    requires AllDigits(d)
  {
    Value(d, 10)
  }

  /** `parseInt(s)` with the radix left undefined: skip leading white space,
      take one optional sign, read hexadecimal after a `0x`/`0X` prefix and
      decimal otherwise, and stop at the first character that is not a
      digit. No digit at all gives `NaN`. */
  function ParseInt(s: string): (r: Option<int>)
    ensures r.None? <==> Unprefixed(s) == [] || !IsRadixDigit(Unprefixed(s)[0], Radix(s))
    ensures r.Some? && !Negative(s) ==> r.value >= 0
  {
    var ds := DigitPrefix(Unprefixed(s), Radix(s));
    if ds == [] then None
    else if Negative(s) then Some(-(Value(ds, Radix(s)) as int))
    else Some(Value(ds, Radix(s)))
  }

  /** Whether the trimmed text starts with a minus sign. */
  predicate Negative(s: string) {
    var t := TrimStart(s);
    t != [] && t[0] == '-'
  }

  /** The trimmed text without its sign. */
  function Unsigned(s: string): string {
    var t := TrimStart(s);
    if t != [] && (t[0] == '-' || t[0] == '+') then t[1..] else t
  }

  predicate HasHexPrefix(u: string) {
    |u| >= 2 && u[0] == '0' && (u[1] == 'x' || u[1] == 'X')
  }

  function Radix(s: string): (radix: nat)
    ensures radix == 10 || radix == 16
  {
    if HasHexPrefix(Unsigned(s)) then 16 else 10
  }

  /** The unsigned text without its `0x`/`0X` prefix. */
  function Unprefixed(s: string): string {
    var u := Unsigned(s);
    if HasHexPrefix(u) then u[2..] else u
  }

  lemma {:induction false} DigitPrefixOfDigits(d: string, t: string)
    requires AllDigits(d)
    requires t == [] || !IsDigit(t[0])
    ensures DigitPrefix(d + t, 10) == d
  {
    if d != [] {
      assert (d + t)[1..] == d[1..] + t;
      DigitPrefixOfDigits(d[1..], t);
    }
  }

  /** A run of decimal digits followed by anything that is not a digit (and
      that does not turn a lone `0` into a `0x` prefix) parses to the value
      of the digits: `parseInt` ignores what follows the number. */
  lemma ParseIntDigitsThenText(d: string, t: string)
    requires d != [] && AllDigits(d)
    requires t == [] || !IsDigit(t[0])
    requires !(d == "0" && t != [] && (t[0] == 'x' || t[0] == 'X'))
    ensures ParseInt(d + t) == Some(DecimalValue(d))
  {
    var s := d + t;
    assert s[0] == d[0] && IsDigit(s[0]);
    assert !IsJsWhiteSpace(s[0]);
    assert TrimStart(s) == s;
    assert !Negative(s);
    assert Unsigned(s) == s;
    assert |d| >= 2 ==> s[1] == d[1];
    assert !HasHexPrefix(s);
    assert Radix(s) == 10 && Unprefixed(s) == s;
    DigitPrefixOfDigits(d, t);
  }

  /** A plain decimal digit string parses to its value. */
  lemma ParseIntDigits(d: string)
    requires d != [] && AllDigits(d)
    ensures ParseInt(d) == Some(DecimalValue(d))
  {
    assert d + [] == d;
    ParseIntDigitsThenText(d, []);
  }

  /** `parseInt` reads a `0x` prefix as hexadecimal even with no radix. */
  lemma ParseIntHexPrefix()
    ensures ParseInt("0x7E2") == Some(2018)
  {
    var s := "0x7E2";
    assert TrimStart(s) == s;
    assert Unsigned(s) == s && HasHexPrefix(s);
    assert Radix(s) == 16 && Unprefixed(s) == "7E2";
    HexDigitsValue();
  }

  lemma HexDigitsValue()
    ensures DigitPrefix("7E2", 16) == "7E2"
    ensures Value("7E2", 16) == 2018
  {
    assert DigitPrefix("2", 16) == "2";
    assert DigitPrefix("E2", 16) == "E2";
    assert "7E2"[..2] == "7E" && "7E"[..1] == "7" && "7"[..0] == "";
    assert Value("7", 16) == 7;
    assert Value("7E", 16) == 126;
  }

  /** White space and a sign before the number, text after it. */
  lemma ParseIntSignAndText()
    ensures ParseInt(" -42abc") == Some(-42)
  {
    var s := " -42abc";
    assert TrimStart("-42abc") == "-42abc";
    assert TrimStart(s) == "-42abc";
    assert Negative(s) && Unsigned(s) == "42abc";
    assert !HasHexPrefix("42abc");
    assert Radix(s) == 10 && Unprefixed(s) == "42abc";
    assert "42abc" == "42" + "abc";
    DigitPrefixOfDigits("42", "abc");
    assert "42"[..1] == "4" && "4"[..0] == "";
    assert Value("42", 10) == 42;
  }

  /** Text whose first character is not white space, not a sign and not a
      decimal digit is `NaN`: nothing is skipped, no `0x` prefix can start
      there, and no decimal digit follows. */
  lemma ParseIntNoDigitStart(s: string)
    requires s != [] && !IsJsWhiteSpace(s[0]) && s[0] != '-' && s[0] != '+' && !IsDigit(s[0])
    ensures ParseInt(s) == None
  {
    assert TrimStart(s) == s;
    assert Unsigned(s) == s && !HasHexPrefix(s);
    assert Radix(s) == 10 && Unprefixed(s) == s;
    assert !IsRadixDigit(s[0], 10);
  }
}
