/** The lines a provider writes for the caller's environment, and the two parsers that read them. */
module Environment {
  import opened Wrappers
  import opened Text
  import opened Shell

  const LINE_LIMIT: nat := 8191

  datatype Lines = Lines(lines: seq<string>) | InvalidName(name: string) | InvalidValue(name: string) | TooLong(name: string)

  predicate IsLetter(c: char) {
    'A' <= c <= 'Z' || 'a' <= c <= 'z' || c == '_'
  }

  predicate IsName(s: string) {
    s != "" && IsLetter(s[0]) && forall c :: c in s ==> IsLetter(c) || '0' <= c <= '9'
  }

  /** Printable ASCII without a space, `"`, `#`, `'` and `\`. */
  predicate IsPlain(c: char) {
    c == '!' || '$' <= c <= '&' || '(' <= c <= '[' || ']' <= c <= '~'
  }

  predicate IsValue(s: string) {
    s == "" || (IsPlain(s[0]) && IsPlain(s[|s| - 1]) && forall c :: c in s ==> IsPlain(c) || c == ' ')
  }

  predicate Fits(e: Entry) {
    |e.name| + |e.value| + 2 <= LINE_LIMIT
  }

  predicate Accepted(e: Entry) {
    IsName(e.name) && IsValue(e.value) && Fits(e)
  }

  function Assignment(e: Entry): (s: string) {
    e.name + ("=" + e.value)
  }

  // ---- The lines. ----

  function ExportLine(e: Entry): (s: string) {
    "export " + e.name + "=" + Quote(e.value)
  }

  function PersistLine(e: Entry): (s: string) {
    "printf '%s\\n' " + Quote(Assignment(e)) + " >> /etc/environment"
  }

  /** The export lines, or the first name that no shell accepts. */
  method GetExport(env: seq<Entry>) returns (r: Lines)
    ensures r.Lines? <==> forall e :: e in env ==> IsName(e.name)
    ensures r.Lines? ==> |r.lines| == |env| && forall i :: 0 <= i < |env| ==> r.lines[i] == ExportLine(env[i])
    ensures !r.Lines? ==>
              exists i :: 0 <= i < |env| && !IsName(env[i].name) && r == InvalidName(env[i].name)
                          && forall e :: e in env[..i] ==> IsName(e.name)
  {
    hide IsName, ExportLine;
    var lines := [];
    var i := 0;
    while i < |env|
      invariant 0 <= i <= |env| && |lines| == i
      invariant forall j :: 0 <= j < i ==> lines[j] == ExportLine(env[j])
      invariant forall e :: e in env[..i] ==> IsName(e.name)
    {
      if !IsName(env[i].name) {
        return InvalidName(env[i].name);
      }
      lines := lines + [ExportLine(env[i])];
      i := i + 1;
    }
    return Lines(lines);
  }

  /** The lines for /etc/environment, or what is wrong with the first entry that is not accepted. */
  method GetPersist(env: seq<Entry>) returns (r: Lines)
    ensures r.Lines? <==> forall e :: e in env ==> Accepted(e)
    ensures r.Lines? ==> |r.lines| == |env| && forall i :: 0 <= i < |env| ==> r.lines[i] == PersistLine(env[i])
    ensures !r.Lines? ==>
              exists i :: 0 <= i < |env| && Rejected(env[i], r) && forall e :: e in env[..i] ==> Accepted(e)
  {
    hide IsName, IsValue, PersistLine;
    var lines := [];
    var i := 0;
    while i < |env|
      invariant 0 <= i <= |env| && |lines| == i
      invariant forall j :: 0 <= j < i ==> lines[j] == PersistLine(env[j])
      invariant forall e :: e in env[..i] ==> Accepted(e)
    {
      var e := env[i];
      assert e in env;
      if !IsName(e.name) {
        return InvalidName(e.name);
      }
      if !IsValue(e.value) {
        return InvalidValue(e.name);
      }
      if |e.name + "=" + e.value + "\n"| > LINE_LIMIT {
        return TooLong(e.name);
      }
      lines := lines + [PersistLine(e)];
      i := i + 1;
    }
    return Lines(lines);
  }

  /** The error names the entry, and the first of its faults. */
  predicate Rejected(e: Entry, r: Lines) {
    match r
    case Lines(_) => false
    case InvalidName(name) => name == e.name && !IsName(e.name)
    case InvalidValue(name) => name == e.name && IsName(e.name) && !IsValue(e.value)
    case TooLong(name) => name == e.name && IsName(e.name) && IsValue(e.value) && !Fits(e)
  }

  // ---- What the shell makes of the lines. ----

  datatype Line = Export(entry: Entry) | Persist(entry: Entry)

  function TextOf(line: Line): (s: string) {
    if line.Export? then ExportLine(line.entry) else PersistLine(line.entry)
  }

  function Texts(lines: seq<Line>): (texts: seq<string>)
    ensures |texts| == |lines|
  {
    if lines == [] then [] else [TextOf(lines[0])] + Texts(lines[1..])
  }

  function TokensOf(line: Line): (tokens: seq<Token>)
    ensures EndOfLine !in tokens
  {
    if line.Export? then [Word("export"), Word(Assignment(line.entry))]
    else [Word("printf"), Word("%s\\n"), Word(Assignment(line.entry)), AppendTo, Word("/etc/environment")]
  }

  /** Each variable is exported, or its line is added to the file. */
  function After(lines: seq<Line>, w: World): (r: World) {
    if lines == [] then w
    else
      var e := lines[0].entry;
      After(lines[1..], if lines[0].Export? then w.(exported := w.exported + [e])
                        else w.(file := w.file + Assignment(e) + "\n"))
  }

  predicate EndsLine(rest: string) {
    rest == "" || rest[0] == '\n'
  }

  function Prepend(tokens: seq<Token>, rest: Option<seq<Token>>): (r: Option<seq<Token>>) {
    if rest.None? then None else Some(tokens + rest.value)
  }

  lemma ThenIsPrepend(t: Token, rest: Option<seq<Token>>)
    ensures Then(t, rest) == Prepend([t], rest)
  {
  }

  lemma PrependTwice(a: seq<Token>, b: seq<Token>, rest: Option<seq<Token>>)
    ensures Prepend(a, Prepend(b, rest)) == Prepend(a + b, rest)
  {
    if rest.Some? {
      assert a + (b + rest.value) == a + b + rest.value;
    }
  }

  lemma ScanQuoted(s: string, rest: string)
    requires EndsWord(rest)
    ensures Scan(Quote(s) + rest) == Then(Word(s), Scan(rest))
  {
    QuoteRoundTrip(s, rest);
    assert !EndsWord(Quote(s) + rest) by {
      if s != "" && AllSafe(s) {
        assert s[0] in s;
      }
      assert (Quote(s) + rest)[0] == Quote(s)[0];
    }
    ScanWord(s, Quote(s) + rest, rest);
  }

  lemma ScanAppend(rest: string)
    ensures Scan(">>" + rest) == Then(AppendTo, Scan(rest))
  {
    var text := ">>" + rest;
    assert text[0] == '>' && text[1] == '>' && text[2..] == rest;
  }

  lemma ScanTarget(rest: string)
    requires EndsLine(rest)
    ensures Scan(" /etc/environment" + rest) == Prepend([Word("/etc/environment")], Scan(rest))
  {
    hide Scan;
    var r := "/etc/environment" + rest;
    assert " /etc/environment" + rest == " " + r;
    ScanBlank(r);
    ScanSafe("/etc/environment", rest);
    ThenIsPrepend(Word("/etc/environment"), Scan(rest));
  }

  lemma ScanRedirect(rest: string)
    requires EndsLine(rest)
    ensures Scan(" >> /etc/environment" + rest) == Prepend([AppendTo, Word("/etc/environment")], Scan(rest))
  {
    hide Scan;
    var r2 := " /etc/environment" + rest;
    var r1 := ">>" + r2;
    assert " >> /etc/environment" + rest == " " + r1;
    ScanBlank(r1);
    ScanAppend(r2);
    ScanTarget(rest);
    ThenIsPrepend(AppendTo, Scan(r2));
    PrependTwice([AppendTo], [Word("/etc/environment")], Scan(rest));
    assert [AppendTo] + [Word("/etc/environment")] == [AppendTo, Word("/etc/environment")];
  }

  lemma ScanPrintf(rest: string)
    ensures Scan("printf '%s\\n' " + rest) == Prepend([Word("printf"), Word("%s\\n")], Scan(rest))
  {
    hide Scan, Quote;
    var r3 := " " + rest;
    var r2 := Quote("%s\\n") + r3;
    var r1 := " " + r2;
    FormatQuoted();
    assert "printf '%s\\n' " + rest == "printf" + r1;
    ScanSafe("printf", r1);
    ScanBlank(r2);
    ScanQuoted("%s\\n", r3);
    ScanBlank(rest);
    var format := Word("%s\\n");
    ThenIsPrepend(format, Scan(rest));
    ThenIsPrepend(Word("printf"), Scan(r2));
    PrependTwice([Word("printf")], [format], Scan(rest));
    assert [Word("printf")] + [format] == [Word("printf"), format];
  }

  lemma ScanPersist(e: Entry, rest: string)
    requires EndsLine(rest)
    ensures Scan(PersistLine(e) + rest) == Prepend(TokensOf(Persist(e)), Scan(rest))
  {
    hide Scan, Quote;
    var word := Assignment(e);
    var redirect := " >> /etc/environment" + rest;
    assert PersistLine(e) + rest == "printf '%s\\n' " + (Quote(word) + redirect);
    ScanPrintf(Quote(word) + redirect);
    ScanQuoted(word, redirect);
    ScanRedirect(rest);
    var first, last := [Word("printf"), Word("%s\\n")], [AppendTo, Word("/etc/environment")];
    ThenIsPrepend(Word(word), Scan(redirect));
    PrependTwice([Word(word)], last, Scan(rest));
    PrependTwice(first, [Word(word)] + last, Scan(rest));
    assert first + ([Word(word)] + last) == TokensOf(Persist(e));
  }

  lemma FormatQuoted()
    ensures Quote("%s\\n") == "'%s\\n'"
  {
    hide QuoteBody;
    var s := "%s\\n";
    assert s[2] in s && !IsSafe(s[2]);
    BodyWithoutQuotes(s);
  }

  lemma {:induction false} BodyWithoutQuotes(s: string)
    requires '\'' !in s
    ensures QuoteBody(s) == s
  {
    if s == "" {
    } else {
      BodyWithoutQuotes(s[1..]);
      assert [s[0]] + s[1..] == s;
    }
  }

  lemma ScanExport(e: Entry, rest: string)
    requires EndsLine(rest) && IsName(e.name)
    ensures Scan(ExportLine(e) + rest) == Prepend(TokensOf(Export(e)), Scan(rest))
  {
    hide Scan, Quote;
    var name := e.name + "=";
    var r2 := name + (Quote(e.value) + rest);
    var r1 := " " + r2;
    assert ExportLine(e) + rest == "export" + r1;
    ScanSafe("export", r1);
    ScanBlank(r2);
    ScanAssignment(e, rest);
    ThenIsPrepend(Word(Assignment(e)), Scan(rest));
    ThenIsPrepend(Word("export"), Scan(r2));
    PrependTwice([Word("export")], [Word(Assignment(e))], Scan(rest));
    assert [Word("export")] + [Word(Assignment(e))] == TokensOf(Export(e));
  }

  lemma ScanAssignment(e: Entry, rest: string)
    requires EndsLine(rest) && IsName(e.name)
    ensures Scan(e.name + "=" + (Quote(e.value) + rest)) == Then(Word(Assignment(e)), Scan(rest))
  {
    hide Scan, Quote;
    var name := e.name + "=";
    var text := name + (Quote(e.value) + rest);
    QuoteRoundTrip(e.value, rest);
    TakeSafeThen(name, Quote(e.value) + rest, e.value, rest);
    assert name + e.value == Assignment(e);
    assert text[0] == e.name[0];
    ScanWord(Assignment(e), text, rest);
  }

  lemma ScanLine(line: Line, rest: string)
    requires EndsLine(rest) && IsName(line.entry.name)
    ensures Scan(TextOf(line) + rest) == Prepend(TokensOf(line), Scan(rest))
  {
    if line.Export? {
      ScanExport(line.entry, rest);
    } else {
      ScanPersist(line.entry, rest);
    }
  }

  lemma CommandOf(line: Line, w: World)
    requires IsName(line.entry.name)
    ensures Command(TokensOf(line), w) == Some(After([line], w))
  {
    var e := line.entry;
    assert Assignment(e) == e.name + ['='] + e.value;
    PartitionAt(e.name, '=', e.value);
    assert After([line][1..], w) == w;
  }

  /** The script of any list of lines does just that, whatever the values hold. */
  lemma {:induction false} ScriptRuns(lines: seq<Line>, w: World)
    requires forall line :: line in lines ==> IsName(line.entry.name)
    ensures Run(Join(Texts(lines)), w) == Some(After(lines, w))
  {
    hide Scan, TextOf, Command, TokensOf;
    if lines == [] {
      EmptyScript(w);
    } else {
      assert lines[0] in lines;
      var rest := Texts(lines[1..]);
      assert Texts(lines)[1..] == rest;
      if rest == [] {
        OneLineRuns(lines[0], w);
        assert TextOf(lines[0]) + "" == TextOf(lines[0]);
        assert lines == [lines[0]];
      } else {
        var next := After([lines[0]], w);
        ScriptRuns(lines[1..], next);
        LineThenRuns(lines[0], Join(rest), w);
        AfterFirst(lines, w);
      }
    }
  }

  lemma EmptyScript(w: World)
    ensures Run("", w) == Some(w)
  {
  }

  lemma AfterFirst(lines: seq<Line>, w: World)
    requires lines != []
    ensures After(lines, w) == After(lines[1..], After([lines[0]], w))
  {
    assert [lines[0]][1..] == [];
  }

  lemma OneLineRuns(line: Line, w: World)
    requires IsName(line.entry.name)
    ensures Run(TextOf(line) + "", w) == Some(After([line], w))
  {
    ScanLine(line, "");
    var tokens := TokensOf(line);
    assert Scan("") == Some([]);
    hide Scan, TextOf, TokensOf, Command, After;
    ExecuteLine(tokens, [], [], w);
    CommandOf(line, w);
    assert [] + tokens == tokens;
  }

  lemma LineThenRuns(line: Line, script: string, w: World)
    requires IsName(line.entry.name)
    ensures Run(TextOf(line) + ("\n" + script), w) == Run(script, After([line], w))
  {
    hide Scan, TextOf, TokensOf, Command, After;
    ScanLine(line, "\n" + script);
    ScanNewline(script);
    if Scan(script).Some? {
      var tokens, rest := TokensOf(line), Scan(script).value;
      ExecuteLine(tokens, [], [EndOfLine] + rest, w);
      CommandOf(line, w);
      assert [] + tokens == tokens;
      assert ([EndOfLine] + rest)[1..] == rest;
    }
  }

  // ---- What pam_env makes of the file. ----

  /** Without an opening quote a value is as it stands; a quoted one needs no close. */
  function Unquote(s: string): (r: string) {
    if s == "" || s[0] !in "'\"" then s
    else if |s| > 1 && s[|s| - 1] in "'\"" then s[1..|s| - 1]
    else s[1..]
  }

  /** One line: a comment and the blanks at its ends are dropped. */
  function ReadLine(line: string): (entries: seq<Entry>) {
    var text := Strip(Partition(line, '#').0);
    if '=' in text then
      var (name, value) := Partition(text, '=');
      [Entry(name, Unquote(value))]
    else []
  }

  /** The reader of the file, by lines: it gives up at one with no room for its newline, and a backslash at the end of one
      stands for no newline at all. */
  function ReadFile(file: string): (entries: seq<Entry>)
    decreases |file|
  {
    if file == "" then []
    else
      var (line, rest) := Partition(file, '\n');
      if |line| + 1 > LINE_LIMIT then []
      else if line != "" && line[|line| - 1] == '\\' && rest != "" then
        ReadFile(line[..|line| - 1] + rest)
      else ReadLine(line) + ReadFile(rest)
  }

  /** A file whose every line is read, and whose last line ends without a backslash, so that a new line begins after it. */
  predicate EndsClean(file: string)
    decreases |file|
  {
    file == ""
    || (var (line, rest) := Partition(file, '\n');
        && '\n' in file && |line| + 1 <= LINE_LIMIT
        && if line != "" && line[|line| - 1] == '\\' then rest != "" && EndsClean(line[..|line| - 1] + rest)
           else EndsClean(rest))
  }

  function FileOf(env: seq<Entry>): (file: string) {
    if env == [] then "" else Assignment(env[0]) + ("\n" + FileOf(env[1..]))
  }

  predicate Readable(e: Entry) {
    IsName(e.name) && IsValue(e.value)
  }

  /** A value of the pattern passes through the line reader unchanged. */
  lemma LineReadsBack(e: Entry)
    requires Readable(e)
    ensures ReadLine(Assignment(e)) == [e]
    ensures '\n' !in Assignment(e) && Assignment(e)[|Assignment(e)| - 1] != '\\'
  {
    var line := Assignment(e);
    AssignmentIsPlain(e);
    hide IsName, IsValue, Assignment, Strip, Partition, Unquote, Tight, IsSpace;
    assert line == e.name + ['='] + e.value by {
      AssignmentSplits(e);
    }
    PartitionWithout(line, '#');
    StripDropsBlanks("", line, "");
    assert "" + line + "" == line;
    PartitionAt(e.name, '=', e.value);
  }

  lemma AssignmentSplits(e: Entry)
    ensures Assignment(e) == e.name + ['='] + e.value
  {
  }

  lemma AssignmentIsPlain(e: Entry)
    requires Readable(e)
    ensures var line := Assignment(e);
            '#' !in line && '\n' !in line && Tight(line) && line[|line| - 1] != '\\' && '=' in line
    ensures '=' !in e.name && Unquote(e.value) == e.value
  {
    var line := Assignment(e);
    assert forall c :: c in line ==> c in e.name || c == '=' || c in e.value;
    assert line[0] == e.name[0];
    assert line[|line| - 1] == if e.value == "" then '=' else e.value[|e.value| - 1];
    assert line[|e.name|] == '=';
  }

  lemma FileReadsLine(e: Entry, rest: string)
    requires Readable(e)
    ensures ReadFile(Assignment(e) + ("\n" + rest)) == if Fits(e) then [e] + ReadFile(rest) else []
  {
    hide ReadLine;
    LineReadsBack(e);
    var line := Assignment(e);
    PartitionAt(line, '\n', rest);
    assert line + ("\n" + rest) == line + ['\n'] + rest;
  }

  /** What is read back is the environment up to its first entry that is too long. */
  lemma {:induction false} ReadsUpToTheFirstLongLine(env: seq<Entry>, n: nat)
    requires n <= |env| && forall e :: e in env ==> Readable(e)
    requires forall i :: 0 <= i < n ==> Fits(env[i])
    requires n < |env| ==> !Fits(env[n])
    ensures ReadFile(FileOf(env)) == env[..n]
  {
    if env == [] {
    } else {
      assert env[0] in env;
      FileReadsLine(env[0], FileOf(env[1..]));
      if n > 0 {
        ReadsUpToTheFirstLongLine(env[1..], n - 1);
        assert env[..n] == [env[0]] + env[1..][..n - 1];
      }
    }
  }

  /** The limit is exact: the file reads back as it was written exactly when every line fits. */
  lemma ReadsBackExactlyWhenLinesFit(env: seq<Entry>)
    requires forall e :: e in env ==> Readable(e)
    ensures ReadFile(FileOf(env)) == env <==> forall e :: e in env ==> Fits(e)
  {
    var n := 0;
    while n < |env| && Fits(env[n])
      invariant 0 <= n <= |env| && forall i :: 0 <= i < n ==> Fits(env[i])
    {
      n := n + 1;
    }
    ReadsUpToTheFirstLongLine(env, n);
    if n < |env| {
      assert env[n] in env;
    } else {
      assert env[..n] == env;
    }
  }

  /** Lines that follow such a file are read after it. */
  lemma {:induction false} ReadsOn(file: string, more: string)
    requires EndsClean(file)
    ensures ReadFile(file + more) == ReadFile(file) + ReadFile(more)
    decreases |file|
  {
    hide ReadLine;
    if file == "" {
      assert file + more == more;
    } else {
      var (line, rest) := Partition(file, '\n');
      PartitionSplits(file, '\n');
      assert file + more == line + ['\n'] + (rest + more);
      PartitionAt(line, '\n', rest + more);
      if line != "" && line[|line| - 1] == '\\' {
        var joined := line[..|line| - 1] + rest;
        ReadsOn(joined, more);
        assert joined + more == line[..|line| - 1] + (rest + more);
      } else {
        ReadsOn(rest, more);
      }
    }
  }

  function Persists(env: seq<Entry>): (lines: seq<Line>) {
    seq(|env|, i requires 0 <= i < |env| => Persist(env[i]))
  }

  function Exports(env: seq<Entry>): (lines: seq<Line>) {
    seq(|env|, i requires 0 <= i < |env| => Export(env[i]))
  }

  lemma {:induction false} AfterPersists(env: seq<Entry>, w: World)
    ensures After(Persists(env), w) == w.(file := w.file + FileOf(env))
  {
    if env == [] {
      assert w.file + FileOf(env) == w.file;
    } else {
      assert Persists(env)[1..] == Persists(env[1..]);
      AfterPersists(env[1..], w.(file := w.file + Assignment(env[0]) + "\n"));
      assert w.file + Assignment(env[0]) + "\n" + FileOf(env[1..]) == w.file + FileOf(env);
    }
  }

  lemma {:induction false} AfterExports(env: seq<Entry>, w: World)
    ensures After(Exports(env), w) == w.(exported := w.exported + env)
  {
    if env == [] {
      assert w.exported + env == w.exported;
    } else {
      assert Exports(env)[1..] == Exports(env[1..]);
      AfterExports(env[1..], w.(exported := w.exported + [env[0]]));
      assert w.exported + [env[0]] + env[1..] == w.exported + env;
    }
  }

  lemma {:induction false} TextsOf(lines: seq<Line>, i: nat)
    requires i < |lines|
    ensures Texts(lines)[i] == TextOf(lines[i])
  {
    hide TextOf;
    if i == 0 {
    } else {
      TextsOf(lines[1..], i - 1);
    }
  }

  /** The whole way: the shell runs the lines of an accepted environment, and pam_env reads it back from the file, after
      whatever a clean file had before. */
  lemma PersistedEnvironmentReadsBack(env: seq<Entry>, lines: seq<string>, w: World)
    requires (forall e :: e in env ==> Accepted(e)) && EndsClean(w.file)
    requires |lines| == |env| && forall i :: 0 <= i < |env| ==> lines[i] == PersistLine(env[i])
    ensures Run(Join(lines), w) == Some(World(w.exported, w.file + FileOf(env)))
    ensures ReadFile(w.file + FileOf(env)) == ReadFile(w.file) + env
  {
    PersistsRun(env, lines, w);
    hide Run, Join, PersistLine, FileOf, ReadFile, IsName, IsValue, EndsClean;
    ReadsBackExactlyWhenLinesFit(env);
    ReadsOn(w.file, FileOf(env));
  }

  lemma PersistsRun(env: seq<Entry>, lines: seq<string>, w: World)
    requires forall e :: e in env ==> IsName(e.name)
    requires |lines| == |env| && forall i :: 0 <= i < |env| ==> lines[i] == PersistLine(env[i])
    ensures Run(Join(lines), w) == Some(World(w.exported, w.file + FileOf(env)))
  {
    hide Run, Join, FileOf, After, PersistLine, IsName;
    var all := Persists(env);
    forall i | 0 <= i < |env|
      ensures lines[i] == Texts(all)[i]
    {
      TextsOf(all, i);
    }
    assert lines == Texts(all);
    ScriptRuns(all, w);
    AfterPersists(env, w);
  }

  /** The export lines give the running script each variable with its value, whatever characters it has. */
  lemma ExportedEnvironmentIsExact(env: seq<Entry>, lines: seq<string>, w: World)
    requires forall e :: e in env ==> IsName(e.name)
    requires |lines| == |env| && forall i :: 0 <= i < |env| ==> lines[i] == ExportLine(env[i])
    ensures Run(Join(lines), w) == Some(World(w.exported + env, w.file))
  {
    hide Run, Join, After, ExportLine, IsName;
    var all := Exports(env);
    forall i | 0 <= i < |env|
      ensures lines[i] == Texts(all)[i]
    {
      TextsOf(all, i);
    }
    assert lines == Texts(all);
    ScriptRuns(all, w);
    AfterExports(env, w);
  }
}
