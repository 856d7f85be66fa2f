/** The text of a placeholder, which the exchange prints and reads. */
module Placeholder {
  import opened Wrappers
  import opened Text

  const TWO_TO_128: nat := 0x1_0000_0000_0000_0000_0000_0000_0000_0000

  type Uuid = n: nat | n < TWO_TO_128

  datatype Placeholder = Placeholder(hostId: Uuid, service: string, secret: string)

  /** Every failure of a read is a ValueError. */
  datatype ReadResult = Ok(placeholder: Placeholder) | WrongParts | WrongPrefix | BadHostId

  function HexChar(d: nat): (c: char)
    requires d < 16
  {
    if d < 10 then ('0' as int + d) as char else ('a' as int + d - 10) as char
  }

  function HexDigit(c: char): (d: Option<nat>)
    ensures d.Some? ==> d.value < 16
  {
    if '0' <= c <= '9' then Some(c as int - '0' as int)
    else if 'a' <= c <= 'f' then Some(c as int - 'a' as int + 10)
    else if 'A' <= c <= 'F' then Some(c as int - 'A' as int + 10)
    else None
  }

  function Hex(n: nat, digits: nat): (s: string)
    ensures |s| == digits && forall c :: c in s ==> HexDigit(c).Some?
  {
    if digits == 0 then "" else Hex(n / 16, digits - 1) + [HexChar(n % 16)]
  }

  function ParseHex(s: string): (n: Option<nat>) {
    if s == "" then Some(0)
    else
      var high, low := ParseHex(s[..|s| - 1]), HexDigit(s[|s| - 1]);
      if high.None? || low.None? then None else Some(high.value * 16 + low.value)
  }

  function Pow16(k: nat): (n: nat) {
    if k == 0 then 1 else 16 * Pow16(k - 1)
  }

  lemma {:induction false} HexRoundTrip(n: nat, digits: nat)
    requires n < Pow16(digits)
    ensures ParseHex(Hex(n, digits)) == Some(n)
  {
    if digits == 0 {
    } else {
      HexRoundTrip(n / 16, digits - 1);
      assert Hex(n, digits)[..digits - 1] == Hex(n / 16, digits - 1);
    }
  }

  /** What is left of a number without its last `k` digits. */
  function Shifted(n: nat, k: nat): (left: nat) {
    if k == 0 then n else Shifted(n / 16, k - 1)
  }

  /** The digits of `%032x`: the k-th from the right is that of the number without its last k. */
  lemma {:induction false} HexIsPositional(n: nat, digits: nat, k: nat)
    requires k < digits
    ensures Hex(n, digits)[digits - 1 - k] == "0123456789abcdef"[Shifted(n, k) % 16]
  {
    if k == 0 {
      DigitIsInTable(n % 16);
    } else {
      HexIsPositional(n / 16, digits - 1, k - 1);
    }
  }

  lemma DigitIsInTable(d: nat)
    requires d < 16
    ensures HexChar(d) == "0123456789abcdef"[d]
  {
    if d < 10 {
      assert "0123456789abcdef"[d] == "0123456789"[d];
    } else {
      assert "0123456789abcdef"[d] == "abcdef"[d - 10];
    }
  }

  lemma {:induction false} ParseHexBound(s: string)
    requires ParseHex(s).Some?
    ensures ParseHex(s).value < Pow16(|s|)
  {
    if s == "" {
    } else {
      ParseHexBound(s[..|s| - 1]);
    }
  }

  lemma {:induction false} Pow16Adds(j: nat, k: nat)
    ensures Pow16(j + k) == Pow16(j) * Pow16(k)
  {
    if j == 0 {
    } else {
      Pow16Adds(j - 1, k);
    }
  }

  lemma Pow16Of32()
    ensures Pow16(32) == TWO_TO_128
  {
    Pow16Adds(4, 4);
    Pow16Adds(8, 8);
    Pow16Adds(16, 16);
    assert Pow16(4) == 0x1_0000;
  }

  /** str(placeholder) */
  function Str(p: Placeholder): (s: string) {
    "drk." + (Hex(p.hostId, 32) + "." + (p.service + "." + p.secret))
  }

  function RemovePrefix(s: string, prefix: string): (r: string) {
    if prefix <= s then s[|prefix|..] else s
  }

  /** Placeholder.read, from the value of an Authorization header or from the bare text. */
  function Read(authorization: string): (r: ReadResult) {
    var parts := Split(RemovePrefix(authorization, "Bearer "), '.');
    if |parts| != 4 then WrongParts
    else if parts[0] != "drk" then WrongPrefix
    else
      var hostId := ParseHex(parts[1]);
      if |parts[1]| != 32 || hostId.None? then BadHostId
      else
        ParseHexBound(parts[1]);
        Pow16Of32();
        Ok(Placeholder(hostId.value, parts[2], parts[3]))
  }

  predicate IsUrlSafe(c: char) {
    'A' <= c <= 'Z' || 'a' <= c <= 'z' || '0' <= c <= '9' || c == '_' || c == '-'
  }

  /** The names that a request may give a service. */
  predicate IsServiceName(s: string) {
    && 1 <= |s| <= 64 && 'a' <= s[0] <= 'z'
    && forall c :: c in s ==> 'a' <= c <= 'z' || '0' <= c <= '9' || c == '_' || c == '-'
  }

  /** What mint makes for a valid service name: its secret is 32 random bytes in URL-safe base64. */
  predicate Minted(p: Placeholder) {
    IsServiceName(p.service) && |p.secret| == 43 && forall c :: c in p.secret ==> IsUrlSafe(c)
  }

  /** The parts of a printed placeholder are its own. */
  lemma PrintedParts(p: Placeholder)
    requires '.' !in p.service && '.' !in p.secret
    ensures Split(Str(p), '.') == ["drk", Hex(p.hostId, 32), p.service, p.secret]
  {
    var hex := Hex(p.hostId, 32);
    assert '.' !in hex;
    var tail := p.service + "." + p.secret;
    SplitAt("drk", '.', hex + "." + tail);
    SplitAt(hex, '.', tail);
    SplitAt(p.service, '.', p.secret);
    SplitWithout(p.secret, '.');
    assert "drk" + ['.'] + (hex + "." + tail) == Str(p);
  }

  /** Read undoes Str, for each placeholder without a dot in its parts, and also after the scheme. */
  lemma ReadUndoesStr(p: Placeholder)
    requires '.' !in p.service && '.' !in p.secret
    ensures Read(Str(p)) == Read("Bearer " + Str(p)) == Ok(p)
  {
    PrintedParts(p);
    Pow16Of32();
    HexRoundTrip(p.hostId, 32);
    assert Str(p)[0] == 'd';
    assert ("Bearer " + Str(p))[7..] == Str(p);
  }

  /** Two placeholders never print alike. */
  lemma StrIsInjective(p: Placeholder, q: Placeholder)
    requires '.' !in p.service && '.' !in p.secret && '.' !in q.service && '.' !in q.secret
    requires Str(p) == Str(q)
    ensures p == q
  {
    ReadUndoesStr(p);
    ReadUndoesStr(q);
  }
}
