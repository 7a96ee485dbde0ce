/** The two JavaScript string built-ins the configuration loader relies on:
    `parseInt(s, 10)` and `s.split(',')`, stated over Dafny strings. */
module JsText {

  /** The integer results of `parseInt`, or NaN when no digit could be
      read; `-0` and the infinities are not represented. */
  datatype Number = Finite(value: int) | NaN

  // ---------------------------------------------------------------------
  // parseInt(s, 10)
  // ---------------------------------------------------------------------

  /** The characters ECMAScript's `StrWhiteSpaceChar` admits: white space
      and line terminators, which `parseInt` skips before the number. */
  predicate IsJsWhiteSpace(c: char) {
    var n := c as int;
    n == 0x09 || n == 0x0A || n == 0x0B || n == 0x0C || n == 0x0D || n == 0x20
    || n == 0xA0 || n == 0x1680 || (0x2000 <= n <= 0x200A)
    || n == 0x2028 || n == 0x2029 || n == 0x202F || n == 0x205F
    || n == 0x3000 || n == 0xFEFF
  }

  predicate IsDigit(c: char) {
    '0' <= c <= '9'
  }

  function DigitValue(c: char): (d: nat)
    requires IsDigit(c)
    ensures d < 10
  {
    (c as int) - ('0' as int)
  }

  function DigitChar(d: nat): (c: char)
    requires d < 10
    ensures IsDigit(c) && DigitValue(c) == d
  {
    (('0' as int) + d) as char
  }

  predicate AllDigits(s: string) {
    forall i :: 0 <= i < |s| ==> IsDigit(s[i])
  }

  /** `s` without its leading white space. */
  function TrimStart(s: string): (r: string)
    ensures |r| <= |s| && r == s[|s| - |r|..]
    ensures r == [] || !IsJsWhiteSpace(r[0])
    ensures forall i :: 0 <= i < |s| - |r| ==> IsJsWhiteSpace(s[i])
  {
    if s != [] && IsJsWhiteSpace(s[0]) then TrimStart(s[1..]) else s
  }

  /** The longest prefix of `s` made of decimal digits. */
  function DigitPrefix(s: string): (p: string)
    ensures p <= s && AllDigits(p)
    ensures |p| < |s| ==> !IsDigit(s[|p|])
  {
    if s != [] && IsDigit(s[0]) then [s[0]] + DigitPrefix(s[1..]) else []
  }

  /** The value of a string of decimal digits, most significant first. */
  function DecimalValue(p: string): nat
    requires AllDigits(p)
  {
    if p == [] then 0 else DecimalValue(p[..|p| - 1]) * 10 + DigitValue(p[|p| - 1])
  }

  /** The plain decimal digits of `n`, without leading zeros. */
  function Decimal(n: nat): (s: string)
    ensures s != [] && AllDigits(s)
  {
    if n < 10 then [DigitChar(n)] else Decimal(n / 10) + [DigitChar(n % 10)]
  }

  /** `parseInt(s, 10)`: skip leading white space, read an optional sign,
      then as many decimal digits as follow; NaN when there are none.
      Anything after the digits is ignored. */
  function ParseInt(s: string): (r: Number)
    ensures r.NaN? <==> ParseIntDigits(s) == []
  {
    ParseSigned(TrimStart(s))
  }

  /** `t` without its sign character, if it has one. */
  function Unsigned(t: string): string {
    if t != [] && (t[0] == '-' || t[0] == '+') then t[1..] else t
  }

  /** `parseInt` on text whose leading white space is already gone. */
  function ParseSigned(t: string): Number {
    var digits := DigitPrefix(Unsigned(t));
    if digits == [] then NaN
    else if t[0] == '-' then Finite(-(DecimalValue(digits) as int))
    else Finite(DecimalValue(digits))
  }

  /** The digits `parseInt` reads from `s`, after the white space and sign. */
  function ParseIntDigits(s: string): (p: string)
    ensures AllDigits(p)
  {
    DigitPrefix(Unsigned(TrimStart(s)))
  }

  /** Whether `s`, after its leading white space, starts with a minus sign. */
  predicate HasMinus(s: string) {
    var t := TrimStart(s);
    t != [] && t[0] == '-'
  }

  /** `parseInt` gives NaN exactly when there are no digits to read after
      the white space and the sign, and a positive result never comes with
      a minus sign. */
  lemma ParseIntNaN(s: string)
    ensures ParseInt(s).NaN? <==> ParseIntDigits(s) == []
    ensures ParseInt(s).Finite? && ParseInt(s).value > 0 ==> !HasMinus(s)
  {
    var t := TrimStart(s);
    assert ParseIntDigits(s) == DigitPrefix(Unsigned(t));
  }

  lemma TrimStartNoSpace(s: string)
    requires s != [] && !IsJsWhiteSpace(s[0])
    ensures TrimStart(s) == s
  {
  }

  lemma {:induction false} DecimalValueOfDecimal(n: nat)
    ensures DecimalValue(Decimal(n)) == n
  {
    if n >= 10 {
      var s := Decimal(n);
      assert s[..|s| - 1] == Decimal(n / 10);
      DecimalValueOfDecimal(n / 10);
    }
  }

  lemma {:induction false} DigitPrefixOfDigits(p: string, rest: string)
    requires AllDigits(p)
    requires rest == [] || !IsDigit(rest[0])
    ensures DigitPrefix(p + rest) == p
  {
    if p != [] {
      assert (p + rest)[1..] == p[1..] + rest;
      DigitPrefixOfDigits(p[1..], rest);
    } else {
      assert p + rest == rest;
    }
  }

  /** A run of digits followed by text that does not start with a digit
      reads as the value of the digits. */
  lemma ParseIntUnsigned(p: string, rest: string)
    requires p != [] && AllDigits(p)
    requires rest == [] || !IsDigit(rest[0])
    ensures ParseInt(p + rest) == Finite(DecimalValue(p))
  {
    var s := p + rest;
    assert s[0] == p[0];
    TrimStartNoSpace(s);
    ParseSignedUnsigned(p, rest);
  }

  lemma ParseSignedUnsigned(p: string, rest: string)
    requires p != [] && AllDigits(p)
    requires rest == [] || !IsDigit(rest[0])
    ensures ParseSigned(p + rest) == Finite(DecimalValue(p))
  {
    var s := p + rest;
    assert s[0] == p[0];
    assert Unsigned(s) == s;
    DigitPrefixOfDigits(p, rest);
  }

  /** A sign character followed by a run of digits and text that does not
      start with a digit: `-` negates the value of the digits, `+` keeps it. */
  lemma ParseIntSign(c: char, p: string, rest: string)
    requires c == '-' || c == '+'
    requires p != [] && AllDigits(p)
    requires rest == [] || !IsDigit(rest[0])
    ensures ParseInt([c] + p + rest) ==
      Finite(if c == '-' then -(DecimalValue(p) as int) else DecimalValue(p))
  {
    var s := [c] + p + rest;
    assert s[0] == c;
    TrimStartNoSpace(s);
    ParseSignedSign(c, p, rest);
  }

  lemma ParseSignedSign(c: char, p: string, rest: string)
    requires c == '-' || c == '+'
    requires p != [] && AllDigits(p)
    requires rest == [] || !IsDigit(rest[0])
    ensures ParseSigned([c] + p + rest) ==
      Finite(if c == '-' then -(DecimalValue(p) as int) else DecimalValue(p))
  {
    var s := [c] + p + rest;
    assert s[0] == c;
    assert Unsigned(s) == p + rest;
    DigitPrefixOfDigits(p, rest);
  }

  /** Rendering a natural number in decimal and reading it back with
      `parseInt` gives the number again, whatever non-digit text follows. */
  lemma ParseIntDecimal(n: nat, rest: string)
    requires rest == [] || !IsDigit(rest[0])
    ensures ParseInt(Decimal(n) + rest) == Finite(n)
  {
    var d := Decimal(n);
    ParseIntUnsigned(d, rest);
    DecimalValueOfDecimal(n);
  }

  /** A leading minus sign negates what `parseInt` reads. */
  lemma ParseIntNegative(n: nat, rest: string)
    requires rest == [] || !IsDigit(rest[0])
    ensures ParseInt(['-'] + Decimal(n) + rest) == Finite(-(n as int))
  {
    var d := Decimal(n);
    DecimalValueOfDecimal(n);
    assert DecimalValue(d) == n;
    ParseIntSign('-', d, rest);
    assert ParseInt(['-'] + d + rest) == Finite(-(n as int));
  }

  /** A leading plus sign is skipped. */
  lemma ParseIntPlusSign(n: nat, rest: string)
    requires rest == [] || !IsDigit(rest[0])
    ensures ParseInt(['+'] + Decimal(n) + rest) == Finite(n)
  {
    var d := Decimal(n);
    ParseIntSign('+', d, rest);
    DecimalValueOfDecimal(n);
  }

  predicate AllZeros(z: string) {
    forall i :: 0 <= i < |z| ==> z[i] == '0'
  }

  lemma {:induction false} DecimalValueOfZeros(z: string)
    requires AllZeros(z)
    ensures AllDigits(z) && DecimalValue(z) == 0
    decreases |z|
  {
    if z != [] {
      DecimalValueOfZeros(z[..|z| - 1]);
    }
  }

  lemma {:induction false} DecimalValueLeadingZeros(z: string, d: string)
    requires AllZeros(z) && AllDigits(d)
    ensures AllDigits(z + d) && DecimalValue(z + d) == DecimalValue(d)
    decreases |d|
  {
    DecimalValueOfZeros(z);
    if d == [] {
      assert z + d == z;
    } else {
      assert (z + d)[..|z + d| - 1] == z + d[..|d| - 1];
      DecimalValueLeadingZeros(z, d[..|d| - 1]);
    }
  }

  /** Leading zeros do not change the value `parseInt` reads: "08080"
      gives 8080. */
  lemma ParseIntLeadingZeros(z: string, n: nat, rest: string)
    requires AllZeros(z)
    requires rest == [] || !IsDigit(rest[0])
    ensures ParseInt(z + Decimal(n) + rest) == Finite(n)
  {
    var d := Decimal(n);
    DecimalValueLeadingZeros(z, d);
    ParseIntUnsigned(z + d, rest);
    DecimalValueOfDecimal(n);
  }

  /** Leading white space does not change what `parseInt` reads. */
  lemma {:induction false} ParseIntSkipsWhiteSpace(c: char, s: string)
    requires IsJsWhiteSpace(c)
    ensures ParseInt([c] + s) == ParseInt(s)
  {
    assert ([c] + s)[1..] == s;
  }

  // ---------------------------------------------------------------------
  // s.split(sep) for a one-character separator
  // ---------------------------------------------------------------------

  /** `s.split(sep)`: the pieces of `s` between occurrences of `sep`. There
      is always at least one piece; the empty string gives `[""]`. */
  function Split(s: string, sep: char): (parts: seq<string>)
    ensures |parts| >= 1
    ensures forall i :: 0 <= i < |parts| ==> sep !in parts[i]
    ensures Join(parts, sep) == s
    decreases |s|
  {
    if s == [] then [[]]
    else
      var rest := Split(s[1..], sep);
      if s[0] == sep then [[]] + rest
      else [[s[0]] + rest[0]] + rest[1..]
  }

  /** The pieces glued back together with `sep` between neighbours, as
      `parts.join(sep)` does. */
  function Join(parts: seq<string>, sep: char): string
    requires |parts| >= 1
  {
    if |parts| == 1 then parts[0] else parts[0] + [sep] + Join(parts[1..], sep)
  }

  /** Splitting a joined list gives the list back when no piece holds the
      separator: `Split` and `Join` are inverse both ways. */
  lemma {:induction false} SplitJoin(parts: seq<string>, sep: char)
    requires |parts| >= 1
    requires forall i :: 0 <= i < |parts| ==> sep !in parts[i]
    ensures Split(Join(parts, sep), sep) == parts
    decreases |parts|, |parts[0]|
  {
    var p := parts[0];
    if p == [] {
      if |parts| > 1 {
        var tail := Join(parts[1..], sep);
        assert Join(parts, sep) == [sep] + tail;
        assert ([sep] + tail)[1..] == tail;
        SplitJoin(parts[1..], sep);
        assert parts == [[]] + parts[1..];
      }
    } else {
      var shorter := [p[1..]] + parts[1..];
      assert Join(parts, sep) == [p[0]] + Join(shorter, sep) by {
        if |parts| > 1 {
          assert shorter[1..] == parts[1..];
        }
      }
      assert ([p[0]] + Join(shorter, sep))[1..] == Join(shorter, sep);
      assert p[0] != sep by { assert p[0] in parts[0]; }
      SplitJoin(shorter, sep);
      assert [p[0]] + p[1..] == p;
      assert shorter[1..] == parts[1..];
      assert parts == [[p[0]] + shorter[0]] + shorter[1..];
    }
  }
}
