/** Base64, as in section 4 of RFC 4648. */
module Base64 {
  import opened Wrappers
  import opened Text

  type Byte = n: nat | n < 256
  type Digit = n: nat | n < 64

  function CharOf(d: Digit): (c: char) {
    if d < 26 then ('A' as int + d) as char
    else if d < 52 then ('a' as int + d - 26) as char
    else if d < 62 then ('0' as int + d - 52) as char
    else if d == 62 then '+' else '/'
  }

  function DigitOf(c: char): (d: Option<Digit>)
    ensures d.Some? ==> CharOf(d.value) == c
  {
    if 'A' <= c <= 'Z' then Some(c as int - 'A' as int)
    else if 'a' <= c <= 'z' then Some(c as int - 'a' as int + 26)
    else if '0' <= c <= '9' then Some(c as int - '0' as int + 52)
    else if c == '+' then Some(62)
    else if c == '/' then Some(63)
    else None
  }

  function Encode(bytes: seq<Byte>): (s: string) {
    if bytes == [] then ""
    else if |bytes| <= 2 then ShortCode(bytes)
    else
      [CharOf(bytes[0] / 4), CharOf(bytes[0] % 4 * 16 + bytes[1] / 16),
       CharOf(bytes[1] % 16 * 4 + bytes[2] / 64), CharOf(bytes[2] % 64)] + Encode(bytes[3..])
  }

  /** The bytes of one group of four characters; only the last group may be padded. */
  function DecodeGroup(a: char, b: char, c: char, d: char, last: bool): (bytes: Option<seq<Byte>>) {
    var x, y, z, w := DigitOf(a), DigitOf(b), DigitOf(c), DigitOf(d);
    if x.None? || y.None? then None
    else if z.Some? && w.Some? then
      Some([x.value * 4 + y.value / 16, y.value % 16 * 16 + z.value / 4, z.value % 4 * 64 + w.value])
    else if last && z.Some? && d == '=' then Some([x.value * 4 + y.value / 16, y.value % 16 * 16 + z.value / 4])
    else if last && c == '=' && d == '=' then Some([x.value * 4 + y.value / 16])
    else None
  }

  function Decode(s: string): (bytes: Option<seq<Byte>>) {
    if s == [] then Some([])
    else if |s| < 4 then None
    else
      var group := DecodeGroup(s[0], s[1], s[2], s[3], |s| == 4);
      var rest := Decode(s[4..]);
      if group.None? || rest.None? then None else Some(group.value + rest.value)
  }

  const CAPITALS: string := "ABCDEFGHIJKLMNOPQRSTUVWXYZ"
  const SMALL: string := "abcdefghijklmnopqrstuvwxyz"

  lemma CapitalAt(d: nat)
    requires d < 26
    ensures |CAPITALS| == 26 && CAPITALS[d] == ('A' as int + d) as char
  {
  }

  lemma SmallAt(d: nat)
    requires d < 26
    ensures |SMALL| == 26 && SMALL[d] == ('a' as int + d) as char
  {
  }

  /** The digits stand for the characters in the order of table 1. */
  lemma AlphabetIsStandard(d: Digit)
    ensures |CAPITALS + SMALL + "0123456789+/"| == 64 && CharOf(d) == (CAPITALS + SMALL + "0123456789+/")[d]
  {
    if d < 26 {
      CapitalAt(d);
    } else if d < 52 {
      SmallAt(d - 26);
    } else {
      CapitalAt(0);
      SmallAt(0);
      assert (CAPITALS + SMALL + "0123456789+/")[d] == "0123456789+/"[d - 52];
    }
  }

  /** The encodings of section 10. */
  lemma EncodesTheVectors()
    ensures Encode([102]) == "Zg==" && Encode([102, 111]) == "Zm8=" && Encode([102, 111, 111]) == "Zm9v"
    ensures Encode([102, 111, 111, 98, 97, 114]) == "Zm9vYmFy"
  {
    assert Encode([98, 97, 114]) == "YmFy";
    assert [102, 111, 111, 98, 97, 114][3..] == [98, 97, 114];
  }

  lemma DigitRoundTrip(d: Digit)
    ensures DigitOf(CharOf(d)) == Some(d)
  {
  }

  lemma {:induction false} DecodesWhatItEncodes(bytes: seq<Byte>)
    ensures Decode(Encode(bytes)) == Some(bytes)
  {
    hide CharOf, DigitOf, DecodeGroup;
    if |bytes| >= 3 {
      DecodesWhatItEncodes(bytes[3..]);
      GroupRoundTrip(bytes[0], bytes[1], bytes[2], |bytes| == 3);
      assert Encode(bytes)[4..] == Encode(bytes[3..]);
      assert [bytes[0], bytes[1], bytes[2]] + bytes[3..] == bytes;
    } else if bytes != [] {
      ShortRoundTrip(bytes);
    }
  }

  lemma ShortRoundTrip(bytes: seq<Byte>)
    requires 1 <= |bytes| <= 2
    ensures Decode(Encode(bytes)) == Some(bytes)
  {
    hide CharOf, DigitOf, DecodeGroup, Decode, Encode;
    LastGroupRoundTrip(bytes[0], bytes[|bytes| - 1]);
    DecodeOneGroup(ShortCode(bytes));
    EncodesShort(bytes);
    assert bytes == if |bytes| == 1 then [bytes[0]] else [bytes[0], bytes[1]];
  }

  /** The padded last group. */
  function ShortCode(bytes: seq<Byte>): (e: string)
    requires 1 <= |bytes| <= 2
    ensures |e| == 4
  {
    if |bytes| == 1 then [CharOf(bytes[0] / 4), CharOf(bytes[0] % 4 * 16), '=', '=']
    else [CharOf(bytes[0] / 4), CharOf(bytes[0] % 4 * 16 + bytes[1] / 16), CharOf(bytes[1] % 16 * 4), '=']
  }

  lemma EncodesShort(bytes: seq<Byte>)
    requires 1 <= |bytes| <= 2
    ensures Encode(bytes) == ShortCode(bytes)
  {
  }

  lemma DecodeOneGroup(e: string)
    requires |e| == 4
    ensures Decode(e) == DecodeGroup(e[0], e[1], e[2], e[3], true)
  {
    hide DecodeGroup;
    var group := DecodeGroup(e[0], e[1], e[2], e[3], true);
    assert Decode(e[4..]) == Some([]);
    assert group.Some? ==> group.value + [] == group.value;
  }

  lemma Shifts(high: nat, low: nat, base: nat)
    requires (base == 4 || base == 16) && low < base
    ensures (high * base + low) / base == high && (high * base + low) % base == low
  {
    if base == 4 {
      assert (high * 4 + low) / 4 == high && (high * 4 + low) % 4 == low;
    } else {
      assert (high * 16 + low) / 16 == high && (high * 16 + low) % 16 == low;
    }
  }

  lemma LastGroupRoundTrip(p: Byte, q: Byte)
    ensures DecodeGroup(CharOf(p / 4), CharOf(p % 4 * 16), '=', '=', true) == Some([p])
    ensures DecodeGroup(CharOf(p / 4), CharOf(p % 4 * 16 + q / 16), CharOf(q % 16 * 4), '=', true) == Some([p, q])
  {
    assert DigitOf('=').None?;
    hide CharOf, DigitOf;
    Shifts(p % 4, q / 16, 16);
    DigitRoundTrip(p / 4);
    DigitRoundTrip(p % 4 * 16);
    DigitRoundTrip(p % 4 * 16 + q / 16);
    DigitRoundTrip(q % 16 * 4);
  }

  lemma GroupRoundTrip(p: Byte, q: Byte, r: Byte, last: bool)
    ensures DecodeGroup(CharOf(p / 4), CharOf(p % 4 * 16 + q / 16), CharOf(q % 16 * 4 + r / 64), CharOf(r % 64), last)
            == Some([p, q, r])
  {
    hide CharOf, DigitOf;
    Shifts(p % 4, q / 16, 16);
    Shifts(q % 16, r / 64, 4);
    DigitRoundTrip(p / 4);
    DigitRoundTrip(p % 4 * 16 + q / 16);
    DigitRoundTrip(q % 16 * 4 + r / 64);
    DigitRoundTrip(r % 64);
  }

  predicate IsPlain(c: char) {
    DigitOf(c).Some? || c == '='
  }

  lemma GroupIsPlain(a: char, b: char, c: char, d: char, last: bool)
    requires DecodeGroup(a, b, c, d, last).Some?
    ensures IsPlain(a) && IsPlain(b) && IsPlain(c) && IsPlain(d)
  {
    hide CharOf, DigitOf;
  }

  /** What one step of the decoder takes is plain. */
  lemma FirstGroupIsPlain(s: string)
    requires Decode(s).Some? && s != []
    ensures |s| >= 4 && Decode(s[4..]).Some?
    ensures IsPlain(s[0]) && IsPlain(s[1]) && IsPlain(s[2]) && IsPlain(s[3])
  {
    hide DecodeGroup, IsPlain;
    GroupIsPlain(s[0], s[1], s[2], s[3], |s| == 4);
  }

  /** Only whole groups of the alphabet are accepted. */
  lemma {:induction false} OnlyGroupsDecode(s: string)
    requires Decode(s).Some?
    ensures |s| % 4 == 0 && forall i :: 0 <= i < |s| ==> IsPlain(s[i])
  {
    hide Decode, IsPlain;
    if s == [] {
      assert |s| == 0;
    } else {
      FirstGroupIsPlain(s);
      OnlyGroupsDecode(s[4..]);
      assert forall i :: 4 <= i < |s| ==> s[i] == s[4..][i - 4];
    }
  }

  /** Encoded text is printable ASCII without blanks. */
  lemma {:induction false} EncodedIsPlain(bytes: seq<Byte>)
    ensures forall c :: c in Encode(bytes) ==> (c as int) < 128 && !IsSpace(c)
  {
    if |bytes| < 3 {
    } else {
      EncodedIsPlain(bytes[3..]);
    }
  }
}
