/** How the proxy finds a placeholder in a header value, against how a client puts one there. */
module PlaceholderIn {
  import opened Wrappers
  import opened Text
  import opened Base64
  import opened Utf8
  import opened Placeholder

  /** A Basic credential that is not ASCII raises an error that the proxy does not catch. */
  datatype Extraction = Found(placeholder: string) | Nothing | Raises

  predicate IsAscii(s: string) {
    forall c :: c in s ==> (c as int) < 128
  }

  predicate IsPlaceholderText(s: string) {
    "drk." <= s && Count(s, '.') == 3
  }

  /** The password of a decoded Basic credential, or nothing. */
  function Password(code: string): (password: string) {
    var bytes := Base64.Decode(code);
    if bytes.None? then ""
    else
      var text := DecodeText(bytes.value);
      if text.None? then "" else Partition(text.value, ':').1
  }

  function Verdict(candidate: string): (r: Extraction) {
    if IsPlaceholderText(candidate) then Found(candidate) else Nothing
  }

  /** placeholder_in */
  function Extract(value: string): (r: Extraction) {
    var (scheme, rest) := Partition(value, ' ');
    if Lower(scheme) == "bearer" || Lower(scheme) == "token" then Verdict(Strip(rest))
    else if Lower(scheme) == "basic" then
      if IsAscii(Strip(rest)) then Verdict(Password(Strip(rest))) else Raises
    else Verdict(value)
  }

  /** Every result has four parts, and the first is the prefix. */
  lemma FoundHasFourParts(value: string)
    requires Extract(value).Found?
    ensures var parts := Split(Extract(value).placeholder, '.'); |parts| == 4 && parts[0] == "drk"
  {
    FourParts(Extract(value).placeholder);
  }

  lemma FourParts(s: string)
    ensures IsPlaceholderText(s) <==> |Split(s, '.')| == 4 && Split(s, '.')[0] == "drk"
  {
    FirstPart(s, '.');
    var first := Split(s, '.')[0];
    if |Split(s, '.')| > 1 {
      assert first == "drk" ==> s[..4] == first + [s[3]] == "drk.";
      if "drk." <= s {
        assert s[0] == 'd' && s[1] == 'r' && s[2] == 'k' && s[3] == '.';
        assert first == s[..|first|];
        assert first == s[..3];
      }
    }
  }

  /** A value carries a text bare, after a scheme in any case, or as the password of a Basic credential. */
  predicate AfterScheme(value: string, scheme: string, before: string, text: string, after: string) {
    && (Spells(scheme, "bearer") || Spells(scheme, "token"))
    && Blank(before) && Blank(after) && Tight(text)
    && value == scheme + " " + (before + text + after)
  }

  predicate AsPassword(value: string, scheme: string, before: string, code: string, after: string, user: string,
                       text: string)
  {
    && Spells(scheme, "basic")
    && Blank(before) && Blank(after) && Tight(code)
    && ':' !in user && Base64.Decode(code) == Some(EncodeText(user + ":" + text))
    && value == scheme + " " + (before + code + after)
  }

  ghost predicate Carries(value: string, text: string) {
    || value == text
    || (exists scheme, before, after :: AfterScheme(value, scheme, before, text, after))
    || (exists scheme, before, code, after, user :: AsPassword(value, scheme, before, code, after, user, text))
  }

  /** A text is found if and only if it has the shape of a placeholder and is all that the value carries: with anything else
      around it there is nothing to find. */
  lemma FoundExactlyWhereCarried(value: string, text: string)
    ensures Extract(value) == Found(text) <==> IsPlaceholderText(text) && Carries(value, text)
  {
    if Extract(value) == Found(text) {
      FoundIsCarried(value, text);
    }
    if IsPlaceholderText(text) && Carries(value, text) {
      if value == text {
        BareIsFound(text);
      } else if scheme, before, after :| AfterScheme(value, scheme, before, text, after) {
        AfterSchemeIsFound(value, scheme, before, text, after);
      } else {
        var scheme, before, code, after, user :| AsPassword(value, scheme, before, code, after, user, text);
        PasswordIsFound(value, scheme, before, code, after, user, text);
      }
    }
  }

  /** A scheme is read without case. */
  lemma SchemeWords(scheme: string)
    ensures Lower(scheme) == "bearer" <==> Spells(scheme, "bearer")
    ensures Lower(scheme) == "token" <==> Spells(scheme, "token")
    ensures Lower(scheme) == "basic" <==> Spells(scheme, "basic")
  {
    hide Lower, Spells;
    LowerIgnoresCase(scheme, "bearer");
    LowerIgnoresCase(scheme, "token");
    LowerIgnoresCase(scheme, "basic");
    SmallWord("bearer");
    SmallWord("token");
    SmallWord("basic");
  }

  lemma SmallWord(word: string)
    requires forall c :: c in word ==> 'a' <= c <= 'z'
    ensures Lower(word) == word
  {
    LowerIsTheSmallSpelling(word, word);
  }

  /** A scheme word has no blank, so the first space of the value ends it. */
  lemma SchemeComesOff(scheme: string, rest: string)
    requires Spells(scheme, "bearer") || Spells(scheme, "token") || Spells(scheme, "basic")
    ensures Partition(scheme + " " + rest, ' ') == (scheme, rest)
  {
    forall i | 0 <= i < |scheme|
      ensures scheme[i] != ' '
    {
      assert !OneLetter(' ', "bearer"[0]);
    }
    PartitionAt(scheme, ' ', rest);
    assert scheme + [' '] + rest == scheme + " " + rest;
  }

  lemma BareIsFound(text: string)
    requires IsPlaceholderText(text)
    ensures Extract(text) == Found(text)
  {
    var scheme := Partition(text, ' ').0;
    PartitionSplits(text, ' ');
    assert text[..4] == "drk.";
    if scheme != "" {
      assert Lower(scheme)[0] == LowerChar(scheme[0]) == LowerChar(text[0]) == 'd';
    }
  }

  lemma AfterSchemeIsFound(value: string, scheme: string, before: string, text: string, after: string)
    requires IsPlaceholderText(text) && AfterScheme(value, scheme, before, text, after)
    ensures Extract(value) == Found(text)
  {
    SchemeWords(scheme);
    SchemeComesOff(scheme, before + text + after);
    StripDropsBlanks(before, text, after);
  }

  lemma PasswordIsFound(value: string, scheme: string, before: string, code: string, after: string, user: string,
                        text: string)
    requires IsPlaceholderText(text) && AsPassword(value, scheme, before, code, after, user, text)
    ensures Extract(value) == Found(text)
  {
    SchemeWords(scheme);
    SchemeComesOff(scheme, before + code + after);
    StripDropsBlanks(before, code, after);
    OnlyGroupsDecode(code);
    PlainIsAscii(code);
    TextRoundTrip(user + ":" + text);
    PartitionAt(user, ':', text);
    assert user + [':'] + text == user + ":" + text;
  }

  lemma PlainIsAscii(s: string)
    requires forall c :: c in s ==> IsPlain(c)
    ensures IsAscii(s)
  {
  }

  lemma EmptyHasNoPassword()
    ensures Password("") == ""
  {
    assert Base64.Decode("") == Some([]) && DecodeText([]) == Some("");
  }

  lemma FoundIsCarried(value: string, text: string)
    requires Extract(value) == Found(text)
    ensures IsPlaceholderText(text) && Carries(value, text)
  {
    hide Password;
    var (scheme, rest) := Partition(value, ' ');
    PartitionSplits(value, ' ');
    SchemeWords(scheme);
    EmptyHasNoPassword();
    if ' ' !in value {
      assert Strip("") == "";
      assert value == text;
    } else {
      var before, after := StripSplits(rest);
      var code := Strip(rest);
      assert value == scheme + " " + (before + code + after);
      if Lower(scheme) == "bearer" || Lower(scheme) == "token" {
        assert AfterScheme(value, scheme, before, text, after);
      } else if Lower(scheme) == "basic" {
        var user := PasswordSplits(code, text);
        assert AsPassword(value, scheme, before, code, after, user, text);
      }
    }
  }

  /** A password that is a placeholder comes from one user and that password, in UTF-8. */
  lemma PasswordSplits(code: string, text: string) returns (user: string)
    requires Password(code) == text && text != ""
    ensures ':' !in user && Base64.Decode(code) == Some(EncodeText(user + ":" + text))
  {
    var bytes := Base64.Decode(code).value;
    var decoded := DecodeText(bytes).value;
    user := Partition(decoded, ':').0;
    PartitionSplits(decoded, ':');
    TextIsCanonical(bytes);
    assert decoded == user + ":" + text;
  }

  predicate IsForeignBasic(value: string, scheme: string, before: string, code: string, after: string) {
    && Spells(scheme, "basic") && !IsAscii(code)
    && Blank(before) && Blank(after) && Tight(code)
    && value == scheme + " " + (before + code + after)
  }

  /** The values that raise: a Basic credential with a character outside ASCII, and no other. */
  lemma RaisesExactlyOnForeignBasic(value: string)
    ensures Extract(value).Raises? <==>
            exists scheme, before, code, after :: IsForeignBasic(value, scheme, before, code, after)
  {
    var (scheme, rest) := Partition(value, ' ');
    PartitionSplits(value, ' ');
    SchemeWords(scheme);
    if Extract(value).Raises? {
      var before, after := StripSplits(rest);
      assert Strip("") == "";
      assert IsForeignBasic(value, scheme, before, Strip(rest), after);
    }
    if scheme, before, code, after :| IsForeignBasic(value, scheme, before, code, after) {
      SchemeWords(scheme);
      SchemeComesOff(scheme, before + code + after);
      StripDropsBlanks(before, code, after);
    }
  }

  /** Spaces, tabs and line ends. */
  predicate IsGap(gap: string) {
    forall c :: c in gap ==> c == ' ' || c == '\t' || c == '\n' || c == '\r'
  }

  /** The ways a client may send a placeholder: bare; after the scheme, with any gaps around it; or as a Basic password. The
      schemes may be in any case. */
  predicate Sends(value: string, p: Placeholder, scheme: string, before: string, after: string, user: string) {
    && IsGap(before) && IsGap(after)
    && (|| value == Str(p)
        || ((Spells(scheme, "bearer") || Spells(scheme, "token")) && value == scheme + " " + (before + Str(p) + after))
        || (Spells(scheme, "basic") && ':' !in user
            && value == scheme + " " + (before + Base64.Encode(EncodeText(user + ":" + Str(p))) + after)))
  }

  /** The round trip across the two processes: what the exchange prints and a client sends, the proxy finds, and the
      exchange reads back from the proxy's own Authorization header. */
  lemma SentPlaceholderComesBack(value: string, p: Placeholder, scheme: string, before: string, after: string, user: string)
    requires Minted(p) && Sends(value, p, scheme, before, after, user)
    ensures Extract(value) == Found(Str(p))
    ensures Read("Bearer " + Extract(value).placeholder) == Ok(p)
  {
    SentIsCarried(value, p, scheme, before, after, user);
    hide Str, Extract, Carries, Read, Sends;
    ReadUndoesStr(p);
    PrintedParts(p);
    FourParts(Str(p));
    FoundExactlyWhereCarried(value, Str(p));
  }

  lemma SentIsCarried(value: string, p: Placeholder, scheme: string, before: string, after: string, user: string)
    requires Minted(p) && Sends(value, p, scheme, before, after, user)
    ensures Carries(value, Str(p))
  {
    PrintedIsTight(p);
    hide Str, Minted, Base64.Decode, Base64.Encode, EncodeText, Spells, IsSpace, Tight, Blank;
    GapIsBlank(before);
    GapIsBlank(after);
    var text := Str(p);
    if value == text {
    } else if Spells(scheme, "basic") && ':' !in user {
      var bytes := EncodeText(user + ":" + text);
      var code := Base64.Encode(bytes);
      DecodesWhatItEncodes(bytes);
      EncodedIsTight(bytes);
      if value == scheme + " " + (before + code + after) {
        assert AsPassword(value, scheme, before, code, after, user, text);
      } else {
        assert AfterScheme(value, scheme, before, text, after);
      }
    } else {
      assert AfterScheme(value, scheme, before, text, after);
    }
  }

  lemma GapIsBlank(gap: string)
    requires IsGap(gap)
    ensures Blank(gap)
  {
  }

  lemma EncodedIsTight(bytes: seq<Byte>)
    ensures Tight(Base64.Encode(bytes))
  {
    EncodedIsPlain(bytes);
  }

  /** The header values that clients send most, with the case they use. */
  lemma CommonHeadersAreFound(p: Placeholder, user: string)
    requires Minted(p) && ':' !in user
    ensures Extract("Bearer " + Str(p)) == Extract("token " + Str(p)) == Found(Str(p))
    ensures Extract("Basic " + Base64.Encode(EncodeText(user + ":" + Str(p)))) == Found(Str(p))
  {
    hide Extract, Minted, Base64.Encode, EncodeText, Str, Read;
    var text, code := Str(p), Base64.Encode(EncodeText(user + ":" + Str(p)));
    assert "" + text + "" == text && "" + code + "" == code;
    assert Spells("Bearer", "bearer") && Spells("Basic", "basic") && Spells("token", "token");
    SentPlaceholderComesBack("Bearer " + text, p, "Bearer", "", "", user);
    SentPlaceholderComesBack("token " + text, p, "token", "", "", user);
    SentPlaceholderComesBack("Basic " + code, p, "Basic", "", "", user);
  }

  lemma PrintedIsTight(p: Placeholder)
    requires Minted(p)
    ensures Tight(Str(p))
  {
    var s := Str(p);
    assert s[0] == 'd';
    assert s[|s| - 1] == p.secret[42] && p.secret[42] in p.secret;
  }
}
