/** JavaScript's `parseInt(string)` with no radix argument, as the asset form applies it
    to the quantity field: leading white space is skipped, one sign is read, a `0x`/`0X`
    prefix switches to base 16, and the longest run of digits that follows is the value.
    With no digit the result is NaN, modelled as None (JSON.stringify writes it as null). */
module JsNumber {
  import opened Api

  /** StrWhiteSpaceChar: white space and line terminators. */
  predicate IsSpace(c: char) {
    c == '\t' || c == '\n' || c == '\U{B}' || c == '\U{C}' || c == '\r' || c == ' ' ||
    c == '\U{A0}' || c == '\U{1680}' || ('\U{2000}' <= c <= '\U{200A}') ||
    c == '\U{2028}' || c == '\U{2029}' || c == '\U{202F}' || c == '\U{205F}' ||
    c == '\U{3000}' || c == '\U{FEFF}'
  }

  function TrimStart(s: string): (t: string)
    ensures |t| <= |s| && t == s[|s| - |t|..]
    ensures t != [] ==> !IsSpace(t[0])
    ensures forall i :: 0 <= i < |s| - |t| ==> IsSpace(s[i])
  {
    if s != [] && IsSpace(s[0]) then TrimStart(s[1..]) else s
  }

  /** The value of `c` as a digit in the given base, if it is one. */
  function DigitValue(c: char, radix: nat): (d: Option<nat>)
    requires radix == 10 || radix == 16
    ensures d.Some? ==> d.value < radix
  {
    if '0' <= c <= '9' then Some(c as nat - '0' as nat)
    else if radix == 16 && 'a' <= c <= 'f' then Some(c as nat - 'a' as nat + 10)
    else if radix == 16 && 'A' <= c <= 'F' then Some(c as nat - 'A' as nat + 10)
    else None
  }

  /** The length of the longest prefix of `s` made of digits of the base. */
  function DigitRun(s: string, radix: nat): (n: nat)
    requires radix == 10 || radix == 16
    ensures n <= |s|
    ensures forall i :: 0 <= i < n ==> DigitValue(s[i], radix).Some?
    ensures n < |s| ==> DigitValue(s[n], radix).None?
  {
    if s != [] && DigitValue(s[0], radix).Some? then 1 + DigitRun(s[1..], radix) else 0
  }

  /** The number a run of digits denotes, most significant first. */
  function DigitsValue(s: string, radix: nat): nat
    requires radix == 10 || radix == 16
    requires forall i :: 0 <= i < |s| ==> DigitValue(s[i], radix).Some?
  {
    if s == [] then 0
    else DigitsValue(s[..|s| - 1], radix) * radix + DigitValue(s[|s| - 1], radix).value
  }

  /** The digits after the sign: a `0x`/`0X` prefix selects base 16, otherwise base 10. */
  function ParseUnsigned(u: string): Option<nat> {
    var radix := if IsHexPrefixed(u) then 16 else 10;
    var digits := if IsHexPrefixed(u) then u[2..] else u;
    var n := DigitRun(digits, radix);
    if n == 0 then None else Some(DigitsValue(digits[..n], radix))
  }

  predicate IsHexPrefixed(u: string) {
    |u| >= 2 && u[0] == '0' && (u[1] == 'x' || u[1] == 'X')
  }

  /** The text after one leading sign. */
  function Unsign(s: string): string {
    if s != [] && (s[0] == '-' || s[0] == '+') then s[1..] else s
  }

  function ParseInt(input: string): (r: Option<int>)
  {
    var s := TrimStart(input);
    var negative := s != [] && s[0] == '-';
    match ParseUnsigned(Unsign(s))
    case None => None
    case Some(v) =>
      var value: int := if negative then -(v as int) else v;
      Some(value)
  }

  /** The decimal numeral of a natural number, without leading zeros. */
  function Decimal(n: nat): (s: string)
    ensures |s| >= 1
    ensures forall i :: 0 <= i < |s| ==> '0' <= s[i] <= '9'
    ensures n >= 10 ==> s[0] != '0'
  {
    if n < 10 then [('0' as int + n) as char] else Decimal(n / 10) + [('0' as int + n % 10) as char]
  }

  /** The numeral JavaScript prints for an integer. */
  function Numeral(n: int): string {
    if n < 0 then "-" + Decimal(-n) else Decimal(n)
  }

  lemma {:induction false} DecimalValue(n: nat)
    ensures DigitsValue(Decimal(n), 10) == n
  {
    var s := Decimal(n);
    if n >= 10 {
      DecimalValue(n / 10);
      assert s[..|s| - 1] == Decimal(n / 10);
    }
  }

  lemma {:induction false} DigitRunAll(s: string)
    requires forall i :: 0 <= i < |s| ==> '0' <= s[i] <= '9'
    ensures DigitRun(s, 10) == |s|
  {
    if s != [] {
      DigitRunAll(s[1..]);
    }
  }

  lemma {:induction false} DigitRunThenText(d: string, rest: string)
    requires forall i :: 0 <= i < |d| ==> '0' <= d[i] <= '9'
    requires rest == [] || DigitValue(rest[0], 10).None?
    ensures DigitRun(d + rest, 10) == |d|
  {
    if d != [] {
      assert (d + rest)[1..] == d[1..] + rest;
      DigitRunThenText(d[1..], rest);
    } else {
      assert d + rest == rest;
    }
  }

  /** Text that may follow a numeral without being read as part of it: it does not start
      with a decimal digit, nor with the `x` that would turn a leading "0" into a hex prefix. */
  predicate Trailer(rest: string) {
    rest == [] || (DigitValue(rest[0], 10).None? && rest[0] != 'x' && rest[0] != 'X')
  }

  lemma UnsignedDecimal(m: nat, rest: string)
    requires Trailer(rest)
    ensures ParseUnsigned(Decimal(m) + rest) == Some(m)
  {
    var d := Decimal(m);
    assert !IsHexPrefixed(d + rest) by {
      if |d| >= 2 { assert (d + rest)[1] == d[1]; }
      else if rest != [] { assert (d + rest)[1] == rest[0]; }
    }
    DigitRunThenText(d, rest);
    DecimalValue(m);
    assert (d + rest)[..|d|] == d;
  }

  lemma {:induction false} TrimSpaces(spaces: string, rest: string)
    requires forall i :: 0 <= i < |spaces| ==> IsSpace(spaces[i])
    requires rest != [] && !IsSpace(rest[0])
    ensures TrimStart(spaces + rest) == rest
  {
    if spaces != [] {
      assert (spaces + rest)[1..] == spaces[1..] + rest;
      TrimSpaces(spaces[1..], rest);
    } else {
      assert spaces + rest == rest;
    }
  }

  lemma UnsignNumeral(n: int, m: nat, rest: string)
    requires m == if n < 0 then -n else n
    ensures Unsign(Numeral(n) + rest) == Decimal(m) + rest
  {
    var d := Decimal(m);
    var t := Numeral(n) + rest;
    if n < 0 {
      assert Numeral(n) == "-" + d;
      assert t == ['-'] + (d + rest);
      assert t[0] == '-';
      assert t[1..] == d + rest;
    } else {
      assert Numeral(n) == d;
      assert t[0] == d[0];
      assert '0' <= t[0] <= '9';
    }
  }

  /** parseInt reads back every integer numeral, whatever white space precedes it and
      whatever non-digit text follows it ("12abc" is 12, "3.9" is 3). */
  lemma ParseNumeral(spaces: string, n: int, rest: string)
    requires forall i :: 0 <= i < |spaces| ==> IsSpace(spaces[i])
    requires Trailer(rest)
    ensures ParseInt(spaces + Numeral(n) + rest) == Some(n)
  {
    var m: nat := if n < 0 then -n else n;
    var t := Numeral(n) + rest;
    assert spaces + Numeral(n) + rest == spaces + t;
    NumeralHead(n, m, rest);
    TrimSpaces(spaces, t);
    ParseTrimmed(spaces + t, n, rest);
  }

  /** The numeral with no white space before it. */
  lemma ParseBareNumeral(n: int, rest: string)
    requires Trailer(rest)
    ensures ParseInt(Numeral(n) + rest) == Some(n)
  {
    var m: nat := if n < 0 then -n else n;
    NumeralHead(n, m, rest);
    ParseTrimmed(Numeral(n) + rest, n, rest);
  }

  /** parseInt of any input whose text after the leading white space is a numeral and a trailer. */
  lemma ParseTrimmed(input: string, n: int, rest: string)
    requires TrimStart(input) == Numeral(n) + rest
    requires Trailer(rest)
    ensures ParseInt(input) == Some(n)
  {
    var m: nat := if n < 0 then -n else n;
    var t := Numeral(n) + rest;
    NumeralHead(n, m, rest);
    UnsignNumeral(n, m, rest);
    UnsignedDecimal(m, rest);
    assert ParseUnsigned(Unsign(t)) == Some(m);
    assert (t[0] == '-') == (n < 0);
  }

  lemma NumeralHead(n: int, m: nat, rest: string)
    requires m == if n < 0 then -n else n
    ensures |Numeral(n) + rest| > 0
    ensures (Numeral(n) + rest)[0] == Numeral(n)[0]
    ensures n < 0 ==> Numeral(n)[0] == '-'
    ensures n >= 0 ==> '0' <= Numeral(n)[0] <= '9'
    ensures !IsSpace((Numeral(n) + rest)[0])
  {
    var d := Decimal(m);
    if n < 0 {
      assert Numeral(n) == "-" + d;
    } else {
      assert Numeral(n) == d;
      assert '0' <= d[0] <= '9';
    }
  }

  /** With no digit the result is NaN: the empty string. */
  lemma ParseEmpty()
    ensures ParseInt("") == None
  {
    assert TrimStart("") == "";
    assert Unsign("") == "";
  }

  /** With no digit the result is NaN: "abc". */
  lemma ParseLetters()
    ensures ParseInt("abc") == None
  {
    assert !IsSpace('a');
    assert TrimStart("abc") == "abc";
    assert Unsign("abc") == "abc";
    assert !IsHexPrefixed("abc");
    assert DigitRun("abc", 10) == 0;
  }
}
