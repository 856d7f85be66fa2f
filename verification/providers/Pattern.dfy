/** The two regular expressions of the environment, and what their full matches are. */
module Pattern {
  import opened Shell
  import opened Environment

  /** `Chars` is a character class, by its ranges. */
  datatype Regex =
    | Chars(ranges: seq<(char, char)>)
    | Cat(first: Regex, second: Regex)
    | Opt(body: Regex)
    | Star(body: Regex)

  predicate InClass(ranges: seq<(char, char)>, c: char) {
    exists i :: 0 <= i < |ranges| && ranges[i].0 <= c <= ranges[i].1
  }

  /** fullmatch */
  ghost predicate Matches(r: Regex, s: string)
    decreases r, |s|
  {
    match r
    case Chars(ranges) => |s| == 1 && InClass(ranges, s[0])
    case Cat(first, second) => exists i :: 0 <= i <= |s| && Matches(first, s[..i]) && Matches(second, s[i..])
    case Opt(body) => s == "" || Matches(body, s)
    case Star(body) => s == "" || exists i :: 0 < i <= |s| && Matches(body, s[..i]) && Matches(r, s[i..])
  }

  const LETTERS: seq<(char, char)> := [('A', 'Z'), ('a', 'z'), ('_', '_')]
  const WORDS: seq<(char, char)> := LETTERS + [('0', '9')]
  const EDGE: seq<(char, char)> := [('!', '!'), ('$', '&'), ('(', '['), (']', '~')]
  const INNER: seq<(char, char)> := [(' ', ' ')] + EDGE

  const NAME := Cat(Chars(LETTERS), Star(Chars(WORDS)))
  const VALUE := Opt(Cat(Chars(EDGE), Opt(Cat(Star(Chars(INNER)), Chars(EDGE)))))

  predicate AllIn(ranges: seq<(char, char)>, s: string) {
    forall i :: 0 <= i < |s| ==> InClass(ranges, s[i])
  }

  lemma {:induction false} StarOfChars(ranges: seq<(char, char)>, s: string)
    ensures Matches(Star(Chars(ranges)), s) <==> AllIn(ranges, s)
    decreases |s|
  {
    hide InClass;
    if s == "" {
    } else {
      StarOfChars(ranges, s[1..]);
      assert s[..1] == [s[0]];
      if Matches(Star(Chars(ranges)), s) {
        var i :| 0 < i <= |s| && Matches(Chars(ranges), s[..i]) && Matches(Star(Chars(ranges)), s[i..]);
        assert i == 1;
        assert forall k :: 1 <= k < |s| ==> s[k] == s[1..][k - 1];
      }
      if AllIn(ranges, s) {
        assert Matches(Chars(ranges), s[..1]) && Matches(Star(Chars(ranges)), s[1..]);
      }
    }
  }

  /** A class, and then anything: the first character decides. */
  lemma ClassFirst(ranges: seq<(char, char)>, rest: Regex, s: string)
    ensures Matches(Cat(Chars(ranges), rest), s) <==> s != "" && InClass(ranges, s[0]) && Matches(rest, s[1..])
  {
    hide InClass;
    if Matches(Cat(Chars(ranges), rest), s) {
      var i :| 0 <= i <= |s| && Matches(Chars(ranges), s[..i]) && Matches(rest, s[i..]);
      assert i == 1;
    }
    if s != "" && InClass(ranges, s[0]) && Matches(rest, s[1..]) {
      assert s[..1] == [s[0]];
      assert Matches(Chars(ranges), s[..1]);
    }
  }

  /** Anything of a class, and one character of another at the end. */
  lemma ClassLast(inner: seq<(char, char)>, last: seq<(char, char)>, s: string)
    ensures Matches(Cat(Star(Chars(inner)), Chars(last)), s) <==>
            s != "" && AllIn(inner, s[..|s| - 1]) && InClass(last, s[|s| - 1])
  {
    hide InClass, AllIn;
    var r := Cat(Star(Chars(inner)), Chars(last));
    if s != "" {
      StarOfChars(inner, s[..|s| - 1]);
      CharOfClass(last, s);
    }
    if Matches(r, s) {
      var i :| 0 <= i <= |s| && Matches(Star(Chars(inner)), s[..i]) && Matches(Chars(last), s[i..]);
      assert |s[i..]| == 1;
    }
  }

  lemma CharOfClass(ranges: seq<(char, char)>, s: string)
    requires s != ""
    ensures Matches(Chars(ranges), s[|s| - 1..]) <==> InClass(ranges, s[|s| - 1])
  {
    hide InClass;
    assert s[|s| - 1..] == [s[|s| - 1]];
  }

  lemma ClassesAre(c: char)
    ensures InClass(LETTERS, c) <==> IsLetter(c)
    ensures InClass(WORDS, c) <==> IsLetter(c) || '0' <= c <= '9'
    ensures InClass(EDGE, c) <==> IsPlain(c)
    ensures InClass(INNER, c) <==> IsPlain(c) || c == ' '
  {
    assert LETTERS[0] == ('A', 'Z') && LETTERS[1] == ('a', 'z') && LETTERS[2] == ('_', '_');
    assert WORDS[0] == ('A', 'Z') && WORDS[1] == ('a', 'z') && WORDS[2] == ('_', '_') && WORDS[3] == ('0', '9');
    assert EDGE[0] == ('!', '!') && EDGE[1] == ('$', '&') && EDGE[2] == ('(', '[') && EDGE[3] == (']', '~');
    assert INNER[0] == (' ', ' ') && INNER[1] == EDGE[0] && INNER[2] == EDGE[1] && INNER[3] == EDGE[2] && INNER[4] == EDGE[3];
  }

  /** Exactly the names that the expression matches are accepted. */
  lemma NamesAreThePattern(s: string)
    ensures IsName(s) <==> Matches(NAME, s)
  {
    hide InClass;
    forall c
      ensures InClass(LETTERS, c) <==> IsLetter(c)
      ensures InClass(WORDS, c) <==> IsLetter(c) || '0' <= c <= '9'
    {
      ClassesAre(c);
    }
    ClassFirst(LETTERS, Star(Chars(WORDS)), s);
    if s != "" {
      StarOfChars(WORDS, s[1..]);
      assert s == [s[0]] + s[1..];
    }
  }

  /** Exactly the values that the expression matches are accepted. */
  lemma ValuesAreThePattern(s: string)
    ensures IsValue(s) <==> Matches(VALUE, s)
  {
    hide InClass, IsPlain;
    forall c
      ensures InClass(EDGE, c) <==> IsPlain(c)
      ensures InClass(INNER, c) <==> IsPlain(c) || c == ' '
    {
      ClassesAre(c);
    }
    var tail := Cat(Star(Chars(INNER)), Chars(EDGE));
    ClassFirst(EDGE, Opt(tail), s);
    if s != "" {
      ClassLast(INNER, EDGE, s[1..]);
      assert Matches(VALUE, s) <==> InClass(EDGE, s[0]) && Matches(Opt(tail), s[1..]);
      if |s| > 1 {
        var n := |s| - 1;
        var middle := s[1..][..n - 1];
        assert s == [s[0]] + middle + [s[n]] && s[1..][n - 1] == s[n];
        assert forall c :: c in s <==> c == s[0] || c in middle || c == s[n];
      }
    }
  }

  /** An entry is accepted if and only if both expressions match it and its line has room for no more than 8191 characters. */
  lemma AcceptedIsThePattern(e: Entry)
    ensures Accepted(e) <==>
            Matches(NAME, e.name) && Matches(VALUE, e.value) && |e.name + "=" + e.value + "\n"| <= 8191
  {
    hide IsName, IsValue, Matches;
    NamesAreThePattern(e.name);
    ValuesAreThePattern(e.value);
  }
}
