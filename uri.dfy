/** JavaScript's `encodeURIComponent` on a string of Unicode scalar values: the
    unreserved characters stay, every other character becomes the `%XX` escapes of its
    UTF-8 bytes, with upper-case hexadecimal digits. */
module Uri {

  /** A-Z a-z 0-9 - _ . ! ~ * ' ( ) */
  predicate Unreserved(c: char) {
    ('A' <= c <= 'Z') || ('a' <= c <= 'z') || ('0' <= c <= '9') ||
    c in {'-', '_', '.', '!', '~', '*', '\'', '(', ')'}
  }

  /** The UTF-8 encoding of one scalar value. */
  function Utf8(c: char): (bytes: seq<int>)
    ensures 1 <= |bytes| <= 4
    ensures forall i :: 0 <= i < |bytes| ==> 0 <= bytes[i] < 256
    ensures (c as int < 0x80) <==> |bytes| == 1
  {
    var n := c as int;
    if n < 0x80 then [n]
    else if n < 0x800 then [0xC0 + n / 64, 0x80 + n % 64]
    else if n < 0x1_0000 then [0xE0 + n / 4096, 0x80 + (n / 64) % 64, 0x80 + n % 64]
    else [0xF0 + n / 262144, 0x80 + (n / 4096) % 64, 0x80 + (n / 64) % 64, 0x80 + n % 64]
  }

  function HexDigit(d: int): (h: char)
    requires 0 <= d < 16
    ensures Unreserved(h)
  {
    "0123456789ABCDEF"[d]
  }

  /** `%XX` for each byte. */
  function Percent(bytes: seq<int>): (s: string)
    requires forall i :: 0 <= i < |bytes| ==> 0 <= bytes[i] < 256
    ensures |s| == 3 * |bytes|
    ensures forall i :: 0 <= i < |s| ==> Unreserved(s[i]) || s[i] == '%'
  {
    if bytes == [] then []
    else ['%', HexDigit(bytes[0] / 16), HexDigit(bytes[0] % 16)] + Percent(bytes[1..])
  }

  function EscapeChar(c: char): (s: string)
    ensures Unreserved(c) ==> s == [c]
    ensures !Unreserved(c) ==> |s| >= 3 && s[0] == '%'
    ensures forall i :: 0 <= i < |s| ==> Unreserved(s[i]) || s[i] == '%'
  {
    if Unreserved(c) then [c] else Percent(Utf8(c))
  }

  /** Every character of the result is unreserved or `%`; so no `&`, `=`, `?`, `#`
      or space survives, and the result is never shorter than the input. */
  function EncodeComponent(s: string): (r: string)
    ensures forall i :: 0 <= i < |r| ==> Unreserved(r[i]) || r[i] == '%'
    ensures |r| >= |s|
  {
    if s == [] then [] else EscapeChar(s[0]) + EncodeComponent(s[1..])
  }

  /** A string is left unchanged exactly when all its characters are unreserved. */
  lemma {:induction false} EncodeIdentity(s: string)
    ensures EncodeComponent(s) == s <==> forall i :: 0 <= i < |s| ==> Unreserved(s[i])
  {
    if s != [] {
      EncodeIdentity(s[1..]);
      if Unreserved(s[0]) {
        assert forall i :: 1 <= i < |s| ==> s[i] == s[1..][i - 1];
      } else {
        assert |EncodeComponent(s)| > |s|;
      }
    }
  }

  /** Encoding works character by character, so it distributes over concatenation. */
  lemma {:induction false} EncodeAppend(a: string, b: string)
    ensures EncodeComponent(a + b) == EncodeComponent(a) + EncodeComponent(b)
  {
    if a == [] {
      assert a + b == b;
    } else {
      assert (a + b)[0] == a[0];
      assert (a + b)[1..] == a[1..] + b;
      EncodeAppend(a[1..], b);
      assert EncodeComponent(a + b) == EscapeChar(a[0]) + EncodeComponent(a[1..] + b);
    }
  }

  lemma EncodeOne(c: char)
    ensures EncodeComponent([c]) == EscapeChar(c)
  {
    assert [c][1..] == [];
  }

  /** One reserved character between two runs of unreserved text: only it is escaped. */
  lemma EncodeBetween(a: string, c: char, b: string)
    requires forall i :: 0 <= i < |a| ==> Unreserved(a[i])
    requires forall i :: 0 <= i < |b| ==> Unreserved(b[i])
    ensures EncodeComponent(a + [c] + b) == a + EscapeChar(c) + b
  {
    EncodeAppend(a + [c], b);
    EncodeAppend(a, [c]);
    EncodeOne(c);
    EncodeIdentity(a);
    EncodeIdentity(b);
    assert EncodeComponent(a) == a;
    assert EncodeComponent(b) == b;
  }

  /** Around a space, unreserved text stays as it is and the space becomes `%20`. */
  lemma EncodeSpace(a: string, b: string)
    requires forall i :: 0 <= i < |a| ==> Unreserved(a[i])
    requires forall i :: 0 <= i < |b| ==> Unreserved(b[i])
    ensures EncodeComponent(a + " " + b) == a + "%20" + b
  {
    EncodeBetween(a, ' ', b);
    SpaceEscape();
    assert " " == [' '];
  }

  lemma SpaceEscape()
    ensures EscapeChar(' ') == "%20"
  {
    assert Utf8(' ') == [32];
    assert Percent([32]) == ['%', HexDigit(2), HexDigit(0)] + Percent([]);
  }

  /** Around an ampersand, unreserved text stays as it is and the `&` becomes `%26`. */
  lemma EncodeAmpersand(a: string, b: string)
    requires forall i :: 0 <= i < |a| ==> Unreserved(a[i])
    requires forall i :: 0 <= i < |b| ==> Unreserved(b[i])
    ensures EncodeComponent(a + "&" + b) == a + "%26" + b
  {
    EncodeBetween(a, '&', b);
    AmpersandEscape();
    assert "&" == ['&'];
  }

  lemma AmpersandEscape()
    ensures EscapeChar('&') == "%26"
  {
    assert Utf8('&') == [38];
    assert Percent([38]) == ['%', HexDigit(2), HexDigit(6)] + Percent([]);
  }

  /** An e-acute becomes the escapes of its two UTF-8 bytes. */
  lemma EncodeAccent()
    ensures EncodeComponent("\U{E9}") == "%C3%A9"
  {
    EncodeOne('\U{E9}');
    assert Utf8('\U{E9}') == [0xC3, 0xA9];
  }
}
