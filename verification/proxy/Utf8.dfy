/** UTF-8, as in section 3 of RFC 3629. */
module Utf8 {
  import opened Wrappers
  import opened Base64

  function EncodeChar(c: char): (bytes: seq<Byte>) {
    var n := c as int;
    if n < 0x80 then [n]
    else if n < 0x800 then [0xC0 + n / 64, 0x80 + n % 64]
    else if n < 0x10000 then [0xE0 + n / 4096, 0x80 + n / 64 % 64, 0x80 + n % 64]
    else [0xF0 + n / 262144, 0x80 + n / 4096 % 64, 0x80 + n / 64 % 64, 0x80 + n % 64]
  }

  function EncodeText(s: string): (bytes: seq<Byte>) {
    if s == [] then [] else EncodeChar(s[0]) + EncodeText(s[1..])
  }

  /** Characters of the examples of section 7, one of each width, and a letter of two bytes. */
  lemma EncodesTheExamples()
    ensures EncodeChar('A') == [0x41] && EncodeChar('\U{0391}') == [0xCE, 0x91]
    ensures EncodeChar('\U{2262}') == [0xE2, 0x89, 0xA2] && EncodeChar('\U{233B4}') == [0xF0, 0xA3, 0x8E, 0xB4]
  {
  }

  /** How many bytes the first one announces; 0 if it cannot be first. */
  function Width(b: Byte): (n: nat) {
    if b < 0x80 then 1 else if 0xC2 <= b < 0xE0 then 2 else if 0xE0 <= b < 0xF0 then 3 else if 0xF0 <= b < 0xF5 then 4 else 0
  }

  predicate IsTail(b: Byte) {
    0x80 <= b < 0xC0
  }

  function Low(b: Byte): (n: int) {
    b as int - 0x80
  }

  /** The code point of a sequence of the announced width, if it is the shortest form of a character. */
  function CodePoint(bytes: seq<Byte>): (c: Option<char>)
    requires bytes != [] && |bytes| == Width(bytes[0])
  {
    if !(forall i :: 1 <= i < |bytes| ==> IsTail(bytes[i])) then None
    else if |bytes| == 1 then Some(bytes[0] as char)
    else if |bytes| == 2 then Some(((bytes[0] as int - 0xC0) * 64 + Low(bytes[1])) as char)
    else if |bytes| == 3 then
      var n := (bytes[0] as int - 0xE0) * 4096 + Low(bytes[1]) * 64 + Low(bytes[2]);
      if n < 0x800 || 0xD800 <= n < 0xE000 then None else Some(n as char)
    else
      var n := (bytes[0] as int - 0xF0) * 262144 + Low(bytes[1]) * 4096 + Low(bytes[2]) * 64 + Low(bytes[3]);
      if n < 0x10000 || n >= 0x110000 then None else Some(n as char)
  }

  function DecodeText(bytes: seq<Byte>): (s: Option<string>) {
    if bytes == [] then Some("")
    else
      var w := Width(bytes[0]);
      if w == 0 || w > |bytes| then None
      else
        var first, rest := CodePoint(bytes[..w]), DecodeText(bytes[w..]);
        if first.None? || rest.None? then None else Some([first.value] + rest.value)
  }

  lemma CharRoundTrip(c: char)
    ensures var bytes := EncodeChar(c);
            bytes != [] && |bytes| == Width(bytes[0]) && CodePoint(bytes) == Some(c)
  {
    var n := c as int;
    SixBits(n);
    var bytes := EncodeChar(c);
    assert 0xD800 > n || n >= 0xE000;
    assert |bytes| == Width(bytes[0]);
  }

  /** The groups of six bits of a number. */
  lemma SixBits(n: nat)
    ensures n == n / 64 * 64 + n % 64
    ensures n / 64 == n / 4096 * 64 + n / 64 % 64
    ensures n / 4096 == n / 262144 * 64 + n / 4096 % 64
  {
    assert n / 64 / 64 == n / 4096;
    assert n / 4096 / 64 == n / 262144;
  }

  lemma {:induction false} TextRoundTrip(s: string)
    ensures DecodeText(EncodeText(s)) == Some(s)
  {
    if s == [] {
    } else {
      var first, rest := EncodeChar(s[0]), EncodeText(s[1..]);
      CharRoundTrip(s[0]);
      TextRoundTrip(s[1..]);
      assert (first + rest)[..|first|] == first && (first + rest)[|first|..] == rest;
      assert (first + rest)[0] == first[0];
      assert [s[0]] + s[1..] == s;
    }
  }

  lemma CharIsCanonical(bytes: seq<Byte>)
    requires bytes != [] && |bytes| == Width(bytes[0]) && CodePoint(bytes).Some?
    ensures EncodeChar(CodePoint(bytes).value) == bytes
  {
    var n := CodePoint(bytes).value as int;
    SixBits(n);
    if |bytes| == 2 {
      assert n / 64 == bytes[0] - 0xC0;
    } else if |bytes| == 3 {
      assert n / 64 == (bytes[0] - 0xE0) * 64 + Low(bytes[1]);
    } else if |bytes| == 4 {
      assert n / 64 == (bytes[0] - 0xF0) * 4096 + Low(bytes[1]) * 64 + Low(bytes[2]);
      assert n / 4096 == (bytes[0] - 0xF0) * 64 + Low(bytes[1]);
    }
  }

  /** No two byte sequences decode to one text: overlong forms and surrogates are refused. */
  lemma {:induction false} TextIsCanonical(bytes: seq<Byte>)
    requires DecodeText(bytes).Some?
    ensures EncodeText(DecodeText(bytes).value) == bytes
  {
    if bytes == [] {
    } else {
      var w := Width(bytes[0]);
      CharIsCanonical(bytes[..w]);
      TextIsCanonical(bytes[w..]);
      assert DecodeText(bytes).value[1..] == DecodeText(bytes[w..]).value;
      assert bytes[..w] + bytes[w..] == bytes;
    }
  }
}
