/** A script as a double-quoted argument of exe.dev, and the command parser that reads it. */
module SetupScript {
  import opened Wrappers

  const SETUP_SCRIPT_LIMIT: nat := 10240

  datatype Argument = Argument(text: string) | TooLong(size: nat)

  /** str.replace of one character. */
  function Replace(s: string, c: char, subst: string): (r: string) {
    if s == "" then ""
    else (if s[0] == c then subst else [s[0]]) + Replace(s[1..], c, subst)
  }

  /** _encode_setup_script: three passes, then the quotes. */
  function Encode(script: string): (r: string) {
    "\"" + Replace(Replace(Replace(script, '\\', "\\\\"), '"', "\\\""), '\n', "\\n") + "\""
  }

  function Escape(c: char): (r: string) {
    if c == '\\' then "\\\\" else if c == '"' then "\\\"" else if c == '\n' then "\\n" else [c]
  }

  /** One pass over the characters. */
  function EscapeAll(s: string): (r: string) {
    if s == "" then "" else Escape(s[0]) + EscapeAll(s[1..])
  }

  function Escaped(s: string): (n: nat) {
    if s == "" then 0 else (if |Escape(s[0])| == 2 then 1 else 0) + Escaped(s[1..])
  }

  lemma {:induction false} ReplaceAppends(s: string, t: string, c: char, subst: string)
    ensures Replace(s + t, c, subst) == Replace(s, c, subst) + Replace(t, c, subst)
  {
    if s == "" {
      assert s + t == t;
    } else {
      ReplaceAppends(s[1..], t, c, subst);
      assert (s + t)[1..] == s[1..] + t;
    }
  }

  lemma ReplaceOne(d: char, c: char, subst: string)
    ensures Replace([d], c, subst) == if d == c then subst else [d]
  {
    assert Replace([d][1..], c, subst) == "";
  }

  lemma ReplaceTwo(d: char, e: char, c: char, subst: string)
    requires d != c && e != c
    ensures Replace([d, e], c, subst) == [d, e]
  {
    ReplaceOne(d, c, subst);
    ReplaceOne(e, c, subst);
    ReplaceAppends([d], [e], c, subst);
    assert [d] + [e] == [d, e];
  }

  /** The three passes do not see each other's work: together they are one map over the characters. */
  lemma {:induction false} PassesAreOneMap(s: string)
    ensures Replace(Replace(Replace(s, '\\', "\\\\"), '"', "\\\""), '\n', "\\n") == EscapeAll(s)
  {
    if s == "" {
    } else {
      PassesAreOneMap(s[1..]);
      var first := Replace([s[0]], '\\', "\\\\");
      var second := Replace(first, '"', "\\\"");
      CharPasses(s[0]);
      assert [s[0]] + s[1..] == s;
      ReplaceAppends([s[0]], s[1..], '\\', "\\\\");
      ReplaceAppends(first, Replace(s[1..], '\\', "\\\\"), '"', "\\\"");
      ReplaceAppends(second, Replace(Replace(s[1..], '\\', "\\\\"), '"', "\\\""), '\n', "\\n");
    }
  }

  lemma CharPasses(c: char)
    ensures Replace(Replace(Replace([c], '\\', "\\\\"), '"', "\\\""), '\n', "\\n") == Escape(c)
  {
    ReplaceOne(c, '\\', "\\\\");
    ReplaceOne(c, '"', "\\\"");
    ReplaceOne(c, '\n', "\\n");
    ReplaceTwo('\\', '\\', '"', "\\\"");
    ReplaceTwo('\\', '\\', '\n', "\\n");
    ReplaceTwo('\\', '"', '\n', "\\n");
  }

  /** The parser, inside quotes: the text up to the closing quote, and what follows it. */
  function ReadQuoted(s: string): (r: Option<(string, string)>) {
    if s == "" then None
    else if s[0] == '"' then Some(("", s[1..]))
    else if s[0] == '\\' then
      if |s| < 2 then None
      else
        var rest := ReadQuoted(s[2..]);
        var c := if s[1] == 'n' then '\n' else s[1];
        if rest.None? || s[1] !in "n\"\\" then None else Some(([c] + rest.value.0, rest.value.1))
    else
      var rest := ReadQuoted(s[1..]);
      if rest.None? then None else Some(([s[0]] + rest.value.0, rest.value.1))
  }

  function ReadArgument(s: string): (r: Option<(string, string)>) {
    if s != "" && s[0] == '"' then ReadQuoted(s[1..]) else None
  }

  /** The parser gives back the script, and leaves the rest of the command alone. */
  lemma ParserUndoesEncode(script: string, rest: string)
    ensures ReadArgument(Encode(script) + rest) == Some((script, rest))
  {
    PassesAreOneMap(script);
    QuotedRoundTrip(script, rest);
    assert (Encode(script) + rest)[1..] == EscapeAll(script) + "\"" + rest;
  }

  lemma {:induction false} QuotedRoundTrip(s: string, rest: string)
    ensures ReadQuoted(EscapeAll(s) + "\"" + rest) == Some((s, rest))
  {
    var text := EscapeAll(s) + "\"" + rest;
    if s == "" {
      assert text[0] == '"' && text[1..] == rest;
    } else {
      QuotedRoundTrip(s[1..], rest);
      var e := Escape(s[0]);
      assert text == e + (EscapeAll(s[1..]) + "\"" + rest);
      assert text[|e|..] == EscapeAll(s[1..]) + "\"" + rest;
      assert [s[0]] + s[1..] == s;
      if |e| == 2 {
        assert text[0] == e[0] && text[1] == e[1];
      }
    }
  }

  lemma {:induction false} EscapeAllLength(s: string)
    ensures |EscapeAll(s)| == |s| + Escaped(s)
  {
    if s == "" {
    } else {
      EscapeAllLength(s[1..]);
    }
  }

  /** One character for each escape, and two for the quotes. */
  lemma EncodedLength(script: string)
    ensures |Encode(script)| == |script| + Escaped(script) + 2
  {
    PassesAreOneMap(script);
    EscapeAllLength(script);
  }

  /** The setup script argument of the command that creates a machine: the limit counts what is sent. */
  method SetupScriptArgument(script: string) returns (r: Argument)
    ensures r.TooLong? <==> |script| + Escaped(script) + 2 > 10240
    ensures r.TooLong? ==> r.size == |script| + Escaped(script) + 2
    ensures r.Argument? ==> "--setup-script=" <= r.text && ReadArgument(r.text[15..]) == Some((script, ""))
  {
    var encoded := Encode(script);
    EncodedLength(script);
    if |encoded| > SETUP_SCRIPT_LIMIT {
      return TooLong(|encoded|);
    }
    r := Argument("--setup-script=" + encoded);
    ParserUndoesEncode(script, "");
    assert r.text[15..] == encoded == encoded + "";
  }
}
