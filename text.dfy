/**
 * The few pieces of Python's `str` API the core relies on: `str.strip()` with no argument,
 * `str.split(' ')` and `' '.join(...)`.
 */
module Text {

  /** Python's `str.isspace()` for a single character. */
  predicate IsSpace(c: char) {
    || '\t' <= c <= '\r'
    || '\U{1C}' <= c <= '\U{1F}'
    || c == ' '
    || c == '\U{85}'
    || c == '\U{A0}'
    || c == '\U{1680}'
    || '\U{2000}' <= c <= '\U{200A}'
    || c == '\U{2028}'
    || c == '\U{2029}'
    || c == '\U{202F}'
    || c == '\U{205F}'
    || c == '\U{3000}'
  }

  function StripLeft(s: string): (r: string)
    ensures |r| <= |s|
  {
    if s != [] && IsSpace(s[0]) then StripLeft(s[1..]) else s
  }

  function StripRight(s: string): (r: string)
    ensures |r| <= |s|
  {
    if s != [] && IsSpace(s[|s| - 1]) then StripRight(s[..|s| - 1]) else s
  }

  /** `lstrip` removes a prefix made only of whitespace and stops at the first other character. */
  lemma {:induction false} StripLeftFacts(s: string)
    ensures StripLeft(s) == s[|s| - |StripLeft(s)|..]
    ensures StripLeft(s) == [] || !IsSpace(StripLeft(s)[0])
    ensures forall i :: 0 <= i < |s| - |StripLeft(s)| ==> IsSpace(s[i])
    decreases |s|
  {
    if s != [] && IsSpace(s[0]) {
      StripLeftFacts(s[1..]);
      forall i | 0 <= i < |s| - |StripLeft(s)| ensures IsSpace(s[i]) {
        if i > 0 {
          assert s[i] == s[1..][i - 1];
        }
      }
    }
  }

  /** `rstrip` removes a suffix made only of whitespace and stops at the last other character. */
  lemma {:induction false} StripRightFacts(s: string)
    ensures StripRight(s) == s[..|StripRight(s)|]
    ensures StripRight(s) == [] || !IsSpace(StripRight(s)[|StripRight(s)| - 1])
    ensures forall i :: |StripRight(s)| <= i < |s| ==> IsSpace(s[i])
    decreases |s|
  {
    if s != [] && IsSpace(s[|s| - 1]) {
      StripRightFacts(s[..|s| - 1]);
      forall i | |StripRight(s)| <= i < |s| ensures IsSpace(s[i]) {
        if i < |s| - 1 {
          assert s[i] == s[..|s| - 1][i];
        }
      }
    }
  }

  /** Python's `s.strip()`: drop leading and trailing whitespace. */
  function Strip(s: string): (r: string)
  {
    StripRight(StripLeft(s))
  }

  /** Where the stripped text sits: right after the whitespace `lstrip` removed. */
  lemma StripInside(s: string)
    ensures var i := |s| - |StripLeft(s)|;
      i + |Strip(s)| <= |s| && s[i..i + |Strip(s)|] == Strip(s)
  {
    var l := StripLeft(s);
    var r := StripRight(l);
    StripLeftFacts(s);
    StripRightFacts(l);
    var i := |s| - |l|;
    assert l == s[i..];
    assert r == l[..|r|];
    assert s[i..i + |r|] == l[..|r|];
  }

  /** What `rstrip` removes after `lstrip` is whitespace of the original text. */
  lemma StripTrailing(s: string)
    ensures forall k :: |s| - |StripLeft(s)| + |Strip(s)| <= k < |s| ==> IsSpace(s[k])
  {
    var l := StripLeft(s);
    var r := StripRight(l);
    StripLeftFacts(s);
    StripRightFacts(l);
    var i := |s| - |l|;
    assert l == s[i..];
    forall k | i + |r| <= k < |s| ensures IsSpace(s[k]) {
      assert s[k] == l[k - i];
    }
  }

  /** The stripped text has no whitespace at either end. */
  lemma StripEnds(s: string)
    ensures Strip(s) == [] || (!IsSpace(Strip(s)[0]) && !IsSpace(Strip(s)[|Strip(s)| - 1]))
  {
    var l := StripLeft(s);
    var r := StripRight(l);
    StripLeftFacts(s);
    StripRightFacts(l);
    if r != [] {
      assert r[0] == l[0];
    }
  }

  /** The stripped text sits inside the original, surrounded only by whitespace, and has none at either end. */
  lemma StripIsTrimmedInfix(s: string)
    ensures var i := |s| - |StripLeft(s)|;
      i + |Strip(s)| <= |s| && s[i..i + |Strip(s)|] == Strip(s)
      && (forall k :: 0 <= k < i ==> IsSpace(s[k]))
      && (forall k :: i + |Strip(s)| <= k < |s| ==> IsSpace(s[k]))
    ensures Strip(s) == [] || (!IsSpace(Strip(s)[0]) && !IsSpace(Strip(s)[|Strip(s)| - 1]))
  {
    StripLeftFacts(s);
    StripInside(s);
    StripTrailing(s);
    StripEnds(s);
  }

  /** Stripping twice is stripping once. */
  lemma StripIdempotent(s: string)
    ensures Strip(Strip(s)) == Strip(s)
  {
    StripIsTrimmedInfix(s);
    var r := Strip(s);
    StripLeftFacts(r);
    StripRightFacts(r);
    if r != [] {
      assert StripLeft(r) == r;
      assert StripRight(r) == r;
    }
  }

  /** A string with no whitespace at all strips to itself. */
  lemma StripNoSpace(s: string)
    requires forall i :: 0 <= i < |s| ==> !IsSpace(s[i])
    ensures Strip(s) == s
  {
  }

  /** Python's `s.split(sep)` for a one-character separator: never empty, and `''` splits to `['']`. */
  function Split(s: string, sep: char): (r: seq<string>)
    ensures |r| >= 1
    ensures forall i :: 0 <= i < |r| ==> sep !in r[i]
    decreases |s|
  {
    if s == [] then [""]
    else
      var rest := Split(s[1..], sep);
      if s[0] == sep then [""] + rest
      else [[s[0]] + rest[0]] + rest[1..]
  }

  /** Python's `sep.join(words)` for a one-character separator. */
  function Join(words: seq<string>, sep: char): string
  {
    if |words| == 0 then ""
    else if |words| == 1 then words[0]
    else words[0] + [sep] + Join(words[1..], sep)
  }

  lemma {:induction false} SplitCons(c: char, s: string, sep: char)
    requires c != sep
    ensures Split([c] + s, sep) == [[c] + Split(s, sep)[0]] + Split(s, sep)[1..]
  {
    assert ([c] + s)[1..] == s;
  }

  /** Splitting a word that has no separator, followed by more text, leaves the word at the front. */
  lemma {:induction false} SplitPrefix(w: string, s: string, sep: char)
    requires sep !in w
    ensures Split(w + s, sep) == [w + Split(s, sep)[0]] + Split(s, sep)[1..]
    decreases |w|
  {
    if w == [] {
      assert w + s == s;
      assert w + Split(s, sep)[0] == Split(s, sep)[0];
      assert Split(s, sep) == [Split(s, sep)[0]] + Split(s, sep)[1..];
    } else {
      SplitPrefix(w[1..], s, sep);
      assert w + s == [w[0]] + (w[1..] + s);
      SplitCons(w[0], w[1..] + s, sep);
      assert [w[0]] + (w[1..] + Split(s, sep)[0]) == w + Split(s, sep)[0];
    }
  }

  /** `sep.join` then `split(sep)` gives the words back, provided there is at least one and none holds `sep`. */
  lemma {:induction false} SplitJoin(words: seq<string>, sep: char)
    requires |words| >= 1
    requires forall i :: 0 <= i < |words| ==> sep !in words[i]
    ensures Split(Join(words, sep), sep) == words
    decreases |words|
  {
    if |words| == 1 {
      SplitPrefix(words[0], "", sep);
      assert words[0] + "" == words[0];
    } else {
      var rest := Join(words[1..], sep);
      SplitJoin(words[1..], sep);
      assert Join(words, sep) == words[0] + ([sep] + rest);
      SplitPrefix(words[0], [sep] + rest, sep);
      assert ([sep] + rest)[1..] == rest;
      assert Split([sep] + rest, sep) == [""] + words[1..];
      assert words[0] + "" == words[0];
      assert [words[0]] + words[1..] == words;
    }
  }

  /** `split(sep)` then `sep.join` gives the text back. */
  lemma {:induction false} JoinSplit(s: string, sep: char)
    ensures Join(Split(s, sep), sep) == s
    decreases |s|
  {
    if s != [] {
      JoinSplit(s[1..], sep);
      var rest := Split(s[1..], sep);
      if s[0] == sep {
        assert Join([""] + rest, sep) == "" + [sep] + Join(rest, sep);
        assert s == [s[0]] + s[1..];
      } else {
        JoinHead([s[0]], rest, sep);
        assert s == [s[0]] + s[1..];
      }
    }
  }

  lemma {:induction false} JoinHead(p: string, words: seq<string>, sep: char)
    requires |words| >= 1
    ensures Join([p + words[0]] + words[1..], sep) == p + Join(words, sep)
  {
    var w := [p + words[0]] + words[1..];
    assert w[1..] == words[1..];
  }
}
