/** The string operations of Python that the proxy and the exchange read header values with. */
module Text {

  /** The lower case of a character, as far as it can spell an ASCII word: the Kelvin sign is the one other character
      whose lower case is an ASCII letter. */
  function LowerChar(c: char): (r: char) {
    if 'A' <= c <= 'Z' then ((c as int) + 32) as char
    else if c == '\U{212A}' then 'k'
    else c
  }

  function Lower(s: string): (r: string)
    ensures |r| == |s|
  {
    seq(|s|, i requires 0 <= i < |s| => LowerChar(s[i]))
  }

  /** Two characters are one letter: they are the same, a capital and its small letter, or two of K, k and the Kelvin sign. */
  predicate OneLetter(c: char, d: char) {
    || c == d
    || ('A' <= c <= 'Z' && d as int - 'a' as int == c as int - 'A' as int)
    || ('A' <= d <= 'Z' && c as int - 'a' as int == d as int - 'A' as int)
    || (c in "Kk\U{212A}" && d in "Kk\U{212A}")
  }

  /** Two texts differ in the case of letters at most. */
  predicate Spells(s: string, t: string) {
    |s| == |t| && forall i :: 0 <= i < |s| ==> OneLetter(s[i], t[i])
  }

  predicate NoCapitals(s: string) {
    forall c :: c in s ==> !('A' <= c <= 'Z') && c != '\U{212A}'
  }

  /** Lower compares texts without case, and no further. */
  lemma LowerIgnoresCase(s: string, t: string)
    ensures Lower(s) == Lower(t) <==> Spells(s, t)
  {
    if Lower(s) == Lower(t) {
      forall i | 0 <= i < |s|
        ensures OneLetter(s[i], t[i])
      {
        assert LowerChar(s[i]) == Lower(s)[i] == Lower(t)[i] == LowerChar(t[i]);
      }
    }
  }

  /** It is the one spelling without capitals. */
  lemma LowerIsTheSmallSpelling(s: string, t: string)
    ensures t == Lower(s) <==> Spells(t, s) && NoCapitals(t)
  {
    if t == Lower(s) {
      forall i | 0 <= i < |t|
        ensures OneLetter(t[i], s[i]) && !('A' <= t[i] <= 'Z') && t[i] != '\U{212A}'
      {
        assert t[i] == LowerChar(s[i]);
      }
    } else if Spells(t, s) && NoCapitals(t) {
      forall i | 0 <= i < |t|
        ensures t[i] == Lower(s)[i]
      {
        assert OneLetter(t[i], s[i]) && t[i] in t;
      }
    }
  }

  predicate IsSpace(c: char) {
    var n := c as int;
    || 9 <= n <= 13 || 28 <= n <= 32 || n == 0x85 || n == 0xA0 || n == 0x1680 || 0x2000 <= n <= 0x200A
    || n == 0x2028 || n == 0x2029 || n == 0x202F || n == 0x205F || n == 0x3000
  }

  function StripLeft(s: string): (r: string) {
    if s != [] && IsSpace(s[0]) then StripLeft(s[1..]) else s
  }

  function StripRight(s: string): (r: string) {
    if s != [] && IsSpace(s[|s| - 1]) then StripRight(s[..|s| - 1]) else s
  }

  function Strip(s: string): (r: string) {
    StripRight(StripLeft(s))
  }

  predicate Blank(s: string) {
    forall c :: c in s ==> IsSpace(c)
  }

  /** No blank at either end. */
  predicate Tight(s: string) {
    s != [] ==> !IsSpace(s[0]) && !IsSpace(s[|s| - 1])
  }

  /** Blanks around a text are dropped, and nothing of the text. */
  lemma {:induction false} StripDropsBlanks(before: string, word: string, after: string)
    requires Blank(before) && Blank(after) && Tight(word)
    ensures Strip(before + word + after) == word
    decreases |before| + |after|
  {
    var s := before + word + after;
    if before != [] {
      assert s[1..] == before[1..] + word + after;
      StripDropsBlanks(before[1..], word, after);
    } else if after != [] {
      var n := |after| - 1;
      StripDropsBlanks(before, word, after[..n]);
      if word == [] {
        assert s == after && s[1..] == after[1..];
        BlankStrips(s);
      } else {
        assert s[0] == word[0];
        assert s[..|s| - 1] == word + after[..n];
        assert before + word + after[..n] == word + after[..n];
      }
    } else {
      assert s == word;
    }
  }

  lemma {:induction false} BlankStrips(s: string)
    requires Blank(s)
    ensures StripLeft(s) == ""
  {
    if s == [] {
    } else {
      BlankStrips(s[1..]);
    }
  }

  /** A text is what strip leaves of it, between blanks. */
  lemma {:induction false} StripSplits(s: string) returns (before: string, after: string)
    ensures Blank(before) && Blank(after) && Tight(Strip(s)) && s == before + Strip(s) + after
    decreases |s|
  {
    if s != [] && IsSpace(s[0]) {
      before, after := StripSplits(s[1..]);
      before := [s[0]] + before;
    } else if s != [] && IsSpace(s[|s| - 1]) {
      var n := |s| - 1;
      before, after := StripSplits(s[..n]);
      assert StripLeft(s[..n]) == s[..n];
      after := after + [s[n]];
    } else {
      before, after := "", "";
    }
  }

  /** The text before and after the first `mark`; without one, all of it and nothing. */
  function Partition(s: string, mark: char): (r: (string, string))
    ensures |r.0| + |r.1| <= |s| && (s != "" ==> |r.1| < |s|)
  {
    if s == [] then ("", "")
    else if s[0] == mark then ("", s[1..])
    else var r := Partition(s[1..], mark); ([s[0]] + r.0, r.1)
  }

  lemma {:induction false} PartitionAt(before: string, mark: char, after: string)
    requires mark !in before
    ensures Partition(before + [mark] + after, mark) == (before, after)
  {
    var s := before + [mark] + after;
    if before == [] {
      assert s[1..] == after;
    } else {
      assert s[1..] == before[1..] + [mark] + after;
      PartitionAt(before[1..], mark, after);
      assert [s[0]] + before[1..] == before;
    }
  }

  lemma {:induction false} PartitionWithout(s: string, mark: char)
    requires mark !in s
    ensures Partition(s, mark) == (s, "")
  {
    if s == [] {
    } else {
      PartitionWithout(s[1..], mark);
      assert [s[0]] + s[1..] == s;
    }
  }

  /** The two halves, and the mark between them, are the text. */
  lemma {:induction false} PartitionSplits(s: string, mark: char)
    ensures var (before, after) := Partition(s, mark);
            && mark !in before
            && if mark in s then s == before + [mark] + after else s == before && after == ""
  {
    if s == [] || s[0] == mark {
    } else {
      PartitionSplits(s[1..], mark);
    }
  }

  function Count(s: string, mark: char): (n: nat) {
    if s == [] then 0 else (if s[0] == mark then 1 else 0) + Count(s[1..], mark)
  }

  /** The parts between the marks: one more than there are marks. */
  function Split(s: string, mark: char): (parts: seq<string>)
    ensures |parts| == Count(s, mark) + 1
  {
    if s == [] then [""]
    else
      var rest := Split(s[1..], mark);
      if s[0] == mark then [""] + rest else [[s[0]] + rest[0]] + rest[1..]
  }

  /** Split undoes a join: a part without marks comes off the front. */
  lemma {:induction false} SplitAt(part: string, mark: char, rest: string)
    requires mark !in part
    ensures Split(part + [mark] + rest, mark) == [part] + Split(rest, mark)
  {
    var s := part + [mark] + rest;
    if part == [] {
      assert s[1..] == rest;
    } else {
      assert s[1..] == part[1..] + [mark] + rest;
      SplitAt(part[1..], mark, rest);
      assert [s[0]] + part[1..] == part;
    }
  }

  lemma {:induction false} SplitWithout(s: string, mark: char)
    requires mark !in s
    ensures Split(s, mark) == [s]
  {
    if s == [] {
    } else {
      SplitWithout(s[1..], mark);
      assert [s[0]] + s[1..] == s;
    }
  }

  /** The first part is a prefix of the text, and a mark follows it unless it is the only one. */
  lemma {:induction false} FirstPart(s: string, mark: char)
    ensures var first := Split(s, mark)[0];
            mark !in first && first <= s && (|Split(s, mark)| > 1 ==> |first| < |s| && s[|first|] == mark)
  {
    if s == [] {
    } else {
      FirstPart(s[1..], mark);
    }
  }
}
