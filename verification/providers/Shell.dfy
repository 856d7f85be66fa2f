/**
 The part of the shell that reads the lines a provider writes, as in section 2.2 of the POSIX.1-2017 Shell Command
 Language: single quotes keep every character, and double quotes keep those that are not special within them. Text
 that this reader does not cover is no script.
 */
module Shell {
  import opened Wrappers
  import opened Text

  datatype Token = Word(word: string) | AppendTo | EndOfLine

  predicate IsSafe(c: char) {
    'a' <= c <= 'z' || 'A' <= c <= 'Z' || '0' <= c <= '9' || c in "_@%+=:,./-"
  }

  predicate AllSafe(s: string) {
    forall c :: c in s ==> IsSafe(c)
  }

  function QuoteBody(s: string): (r: string) {
    if s == "" then "" else (if s[0] == '\'' then "'\"'\"'" else [s[0]]) + QuoteBody(s[1..])
  }

  /** shlex.quote */
  function Quote(s: string): (r: string) {
    if s == "" then "''" else if AllSafe(s) then s else "'" + (QuoteBody(s) + "'")
  }

  predicate EndsWord(rest: string) {
    rest == "" || rest[0] == ' ' || rest[0] == '\n' || rest[0] == '>'
  }

  /** The word at the front of a text, without its quotes, and what follows it. */
  function TakeWord(s: string): (r: Option<(string, string)>)
    ensures r.Some? ==> |r.value.1| <= |s|
    ensures r.Some? && !EndsWord(s) ==> |r.value.1| < |s|
    decreases |s|, 1
  {
    if EndsWord(s) then Some(("", s))
    else if s[0] == '\'' then TakeSingle(s[1..])
    else if s[0] == '"' then TakeDouble(s[1..])
    else if IsSafe(s[0]) then Prefixed(s[0], TakeWord(s[1..]))
    else None
  }

  function Prefixed(c: char, r: Option<(string, string)>): (p: Option<(string, string)>) {
    if r.None? then None else Some(([c] + r.value.0, r.value.1))
  }

  function TakeSingle(s: string): (r: Option<(string, string)>)
    ensures r.Some? ==> |r.value.1| <= |s|
    decreases |s|, 0
  {
    if s == "" then None
    else if s[0] == '\'' then TakeWord(s[1..])
    else Prefixed(s[0], TakeSingle(s[1..]))
  }

  function TakeDouble(s: string): (r: Option<(string, string)>)
    ensures r.Some? ==> |r.value.1| <= |s|
    decreases |s|, 0
  {
    if s == "" || s[0] == '$' || s[0] == '`' || s[0] == '\\' then None
    else if s[0] == '"' then TakeWord(s[1..])
    else Prefixed(s[0], TakeDouble(s[1..]))
  }

  /** The tokens of a script. */
  function Scan(s: string): (tokens: Option<seq<Token>>)
    decreases |s|
  {
    if s == "" then Some([])
    else if s[0] == ' ' then Scan(s[1..])
    else if s[0] == '\n' then Then(EndOfLine, Scan(s[1..]))
    else if s[0] == '>' then if |s| >= 2 && s[1] == '>' then Then(AppendTo, Scan(s[2..])) else None
    else
      var w := TakeWord(s);
      if w.None? then None else Then(Word(w.value.0), Scan(w.value.1))
  }

  function Then(first: Token, rest: Option<seq<Token>>): (tokens: Option<seq<Token>>) {
    if rest.None? then None else Some([first] + rest.value)
  }

  lemma {:induction false} TakeSafe(w: string, rest: string)
    requires AllSafe(w) && EndsWord(rest)
    ensures TakeWord(w + rest) == Some((w, rest))
  {
    if w == "" {
      assert w + rest == rest;
    } else {
      TakeSafe(w[1..], rest);
      assert (w + rest)[1..] == w[1..] + rest && [w[0]] + w[1..] == w;
      assert w[0] in w;
    }
  }

  /** Safe characters before a word are part of it. */
  lemma {:induction false} TakeSafeThen(w: string, s: string, word: string, rest: string)
    requires AllSafe(w) && TakeWord(s) == Some((word, rest))
    ensures TakeWord(w + s) == Some((w + word, rest))
  {
    hide TakeSingle, TakeDouble;
    if w == "" {
      assert w + s == s && w + word == word;
    } else {
      TakeSafeThen(w[1..], s, word, rest);
      assert (w + s)[1..] == w[1..] + s && [w[0]] + (w[1..] + word) == w + word;
      assert w[0] in w;
    }
  }

  /** The shell reads a quoted string back, whatever is in it. */
  lemma QuoteRoundTrip(s: string, rest: string)
    requires EndsWord(rest)
    ensures TakeWord(Quote(s) + rest) == Some((s, rest))
  {
    if s == "" {
      OpenSingle("'" + rest);
      CloseSingle(rest);
      assert "''" + rest == "'" + ("'" + rest);
    } else if AllSafe(s) {
      TakeSafe(s, rest);
    } else {
      BodyRoundTrip(s, rest);
      OpenSingle(QuoteBody(s) + ("'" + rest));
      assert Quote(s) + rest == "'" + (QuoteBody(s) + ("'" + rest));
    }
  }

  lemma OpenSingle(s: string)
    ensures TakeWord("'" + s) == TakeSingle(s)
  {
    assert ("'" + s)[1..] == s;
  }

  lemma CloseSingle(rest: string)
    requires EndsWord(rest)
    ensures TakeSingle("'" + rest) == Some(("", rest))
  {
    assert ("'" + rest)[1..] == rest;
  }

  lemma {:induction false} BodyRoundTrip(s: string, rest: string)
    requires EndsWord(rest)
    ensures TakeSingle(QuoteBody(s) + ("'" + rest)) == Some((s, rest))
  {
    var text := QuoteBody(s) + ("'" + rest);
    if s == "" {
      CloseSingle(rest);
      assert text == "'" + rest;
    } else {
      var tail := QuoteBody(s[1..]) + ("'" + rest);
      BodyRoundTrip(s[1..], rest);
      assert [s[0]] + s[1..] == s;
      if s[0] == '\'' {
        assert text == "'\"'\"'" + tail;
        OverQuote(tail);
      } else {
        assert text == [s[0]] + tail;
        assert text[1..] == tail;
      }
    }
  }

  /** Out of the single quotes, one quote within double quotes, and in again. */
  lemma OverQuote(tail: string)
    ensures TakeSingle("'\"'\"'" + tail) == Prefixed('\'', TakeSingle(tail))
  {
    var text := "'\"'\"'" + tail;
    assert text[1..] == "\"'\"'" + tail;
    assert text[1..][1..] == "'\"'" + tail;
    assert text[1..][1..][1..] == "\"'" + tail;
    assert text[1..][1..][1..][1..] == "'" + tail;
    assert text[1..][1..][1..][1..][1..] == tail;
    OpenSingle(tail);
    assert TakeDouble("\"'" + tail) == TakeWord("'" + tail) by {
      assert ("\"'" + tail)[1..] == "'" + tail;
    }
    assert TakeDouble("'\"'" + tail) == Prefixed('\'', TakeDouble("\"'" + tail)) by {
      assert ("'\"'" + tail)[1..] == "\"'" + tail;
    }
    assert TakeWord("\"'\"'" + tail) == TakeDouble("'\"'" + tail) by {
      assert ("\"'\"'" + tail)[1..] == "'\"'" + tail;
    }
  }

  lemma ScanWord(w: string, s: string, rest: string)
    requires s != "" && !EndsWord(s) && TakeWord(s) == Some((w, rest))
    ensures Scan(s) == Then(Word(w), Scan(rest))
  {
  }

  lemma ScanSafe(w: string, rest: string)
    requires w != "" && AllSafe(w) && EndsWord(rest)
    ensures Scan(w + rest) == Then(Word(w), Scan(rest))
  {
    TakeSafe(w, rest);
    assert w[0] in w && (w + rest)[0] == w[0];
    ScanWord(w, w + rest, rest);
  }

  lemma ScanBlank(rest: string)
    ensures Scan(" " + rest) == Scan(rest)
  {
    assert (" " + rest)[1..] == rest;
  }

  lemma ScanNewline(rest: string)
    ensures Scan("\n" + rest) == Then(EndOfLine, Scan(rest))
  {
    assert ("\n" + rest)[1..] == rest;
  }

  // ---- What the lines do. ----

  datatype Entry = Entry(name: string, value: string)

  /** The exported variables and the text of /etc/environment. */
  datatype World = World(exported: seq<Entry>, file: string)

  /** One command; None for a command that no provider line makes. */
  function Command(c: seq<Token>, w: World): (r: Option<World>) {
    if c == [] then Some(w)
    else if |c| == 2 && c[0] == Word("export") && c[1].Word? && '=' in c[1].word then
      var (name, value) := Partition(c[1].word, '=');
      Some(w.(exported := w.exported + [Entry(name, value)]))
    else if |c| == 5 && c[0] == Word("printf") && c[1] == Word("%s\\n") && c[2].Word? && c[3] == AppendTo
            && c[4] == Word("/etc/environment") then
      Some(w.(file := w.file + c[2].word + "\n"))
    else None
  }

  /** The commands of a script, one after the other; `current` is the command read so far. */
  function Execute(tokens: seq<Token>, current: seq<Token>, w: World): (r: Option<World>)
    decreases |tokens|
  {
    if tokens == [] then Command(current, w)
    else if tokens[0] == EndOfLine then
      var next := Command(current, w);
      if next.None? then None else Execute(tokens[1..], [], next.value)
    else Execute(tokens[1..], current + [tokens[0]], w)
  }

  function Run(script: string, w: World): (r: Option<World>) {
    var tokens := Scan(script);
    if tokens.None? then None else Execute(tokens.value, [], w)
  }

  function Join(lines: seq<string>): (script: string) {
    if lines == [] then "" else if |lines| == 1 then lines[0] else lines[0] + ("\n" + Join(lines[1..]))
  }

  lemma {:induction false} ExecuteLine(line: seq<Token>, current: seq<Token>, rest: seq<Token>, w: World)
    requires EndOfLine !in line
    ensures Execute(line + rest, current, w) == Execute(rest, current + line, w)
  {
    if line == [] {
      assert line + rest == rest && current + line == current;
    } else {
      assert line[0] in line;
      ExecuteLine(line[1..], current + [line[0]], rest, w);
      assert (line + rest)[1..] == line[1..] + rest;
      assert current + [line[0]] + line[1..] == current + line;
    }
  }
}
