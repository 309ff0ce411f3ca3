/**
 * The G-code word reader and writer (lib/gcode.py). A line is words separated by single spaces;
 * each word is a one-letter command followed by a number.
 */
module Gcode {
  import opened Wrappers
  import opened Text
  import opened Numerals
  import opened Protocol

  /** `str.isalpha()` for a single character, restricted to the ASCII letters. */
  predicate IsAlpha(ch: char) {
    'a' <= ch <= 'z' || 'A' <= ch <= 'Z'
  }

  /** What the generator yielded before it stopped, and the exception that stopped it, if any. */
  datatype Reading = Reading(pairs: seq<(char, real)>, fault: Option<Fault>)

  /** The error the reader raises on one token, checked in the source's order; None when the token is a word. */
  function TokenFault(c: Codec, token: string): Option<Fault> {
    if token == [] then Some(IndexError)
    else if c.parse(token[1..]).None? then Some(ValueError)
    else if !IsAlpha(token[0]) then Some(AssertionError("Invalid command name: " + [token[0]]))
    else None
  }

  /** The generator's body over the split tokens. */
  function ReadTokens(c: Codec, tokens: seq<string>): (r: Reading)
    ensures |r.pairs| <= |tokens|
  {
    if tokens == [] then Reading([], None)
    else match TokenFault(c, tokens[0])
      case Some(f) => Reading([], Some(f))
      case None =>
        var rest := ReadTokens(c, tokens[1..]);
        Reading([(tokens[0][0], c.parse(tokens[0][1..]).value)] + rest.pairs, rest.fault)
  }

  /** `readGcodeLine(line)`, consumed to the end. */
  function ReadGcodeLine(c: Codec, line: string): Reading {
    ReadTokens(c, Split(Strip(line), ' '))
  }

  /**
   * The reader yields one pair per token, in token order, each the first character and the number
   * after it; it stops at the first token that is not a word, raising that token's error, and
   * raises nothing exactly when every token was a word.
   */
  lemma {:induction false} ReadTokensYieldsInOrder(c: Codec, tokens: seq<string>)
    ensures var r := ReadTokens(c, tokens);
      && (forall i :: 0 <= i < |r.pairs| ==>
            (TokenFault(c, tokens[i]).None? && r.pairs[i] == (tokens[i][0], c.parse(tokens[i][1..]).value)))
      && (r.fault.None? <==> |r.pairs| == |tokens|)
      && (r.fault.Some? ==> r.fault == TokenFault(c, tokens[|r.pairs|]))
    decreases |tokens|
  {
    if tokens != [] && TokenFault(c, tokens[0]).None? {
      ReadTokensYieldsInOrder(c, tokens[1..]);
      var r := ReadTokens(c, tokens);
      forall i | 0 < i < |r.pairs|
        ensures TokenFault(c, tokens[i]).None? && r.pairs[i] == (tokens[i][0], c.parse(tokens[i][1..]).value)
      {
        assert tokens[i] == tokens[1..][i - 1];
      }
    }
  }

  /** A blank line does not yield nothing: it splits to one empty token and fails on its first character. */
  lemma BlankLineFails(c: Codec, line: string)
    requires forall i :: 0 <= i < |line| ==> IsSpace(line[i])
    ensures ReadGcodeLine(c, line) == Reading([], Some(IndexError))
  {
    StripLeftFacts(line);
  }

  /** A word whose letter is not alphabetic is refused with the message naming it. */
  lemma NonAlphaRefused(c: Codec, token: string)
    requires token != [] && c.parse(token[1..]).Some? && !IsAlpha(token[0])
    ensures ReadTokens(c, [token]).fault == Some(AssertionError("Invalid command name: " + [token[0]]))
  {
  }

  /** One G-code word, `f'{command}{value}'`. */
  function Word(c: Codec, command: string, value: real): string {
    command + c.show(value)
  }

  function Words(c: Codec, commands: seq<(string, real)>): (r: seq<string>)
    ensures |r| == |commands|
    ensures forall i :: 0 <= i < |r| ==> r[i] == Word(c, commands[i].0, commands[i].1)
  {
    if commands == [] then [] else [Word(c, commands[0].0, commands[0].1)] + Words(c, commands[1..])
  }

  /** `writeGcodeLine` as intended: the words of the pairs, in order, joined with single spaces, without a newline. */
  function WriteGcodeLine(c: Codec, commands: seq<(string, real)>): string {
    Join(Words(c, commands), ' ')
  }

  /**
   * `writeGcodeLine` as written iterates the dictionary itself, that is its keys, and unpacks each
   * key string into a (command, value) pair: every key must be exactly two characters long (else
   * ValueError, and nothing is written), and the line is then the keys, the values ignored.
   */
  function WriteGcodeLineAsWritten(commands: seq<(string, real)>): (r: Result<string, Fault>)
    ensures r.Success? <==> forall i :: 0 <= i < |commands| ==> |commands[i].0| == 2
  {
    if forall i :: 0 <= i < |commands| ==> |commands[i].0| == 2 then
      Success(Join(Keys(commands), ' '))
    else Failure(ValueError)
  }

  function Keys(commands: seq<(string, real)>): (r: seq<string>)
    ensures |r| == |commands|
    ensures forall i :: 0 <= i < |r| ==> r[i] == commands[i].0
  {
    if commands == [] then [] else [commands[0].0] + Keys(commands[1..])
  }

  /** The dictionary `{'X': 1.0}` cannot be written as written, though its one word is `X` followed by the number. */
  lemma AsWrittenRefusesOneLetterCommand(c: Codec)
    ensures WriteGcodeLineAsWritten([("X", 1.0)]) == Failure(ValueError)
    ensures WriteGcodeLine(c, [("X", 1.0)]) == "X" + c.show(1.0)
  {
    assert |[("X", 1.0)][0].0| == 1;
  }

  /** A number format that reads back what it writes and writes no whitespace. */
  predicate Clean(c: Codec, v: real) {
    c.parse(c.show(v)) == Some(v) && forall k :: 0 <= k < |c.show(v)| ==> !IsSpace(c.show(v)[k])
  }

  /** The pairs a well-formed command sequence reads back as. */
  function Letters(commands: seq<(string, real)>): (r: seq<(char, real)>)
    requires forall i :: 0 <= i < |commands| ==> |commands[i].0| == 1
    ensures |r| == |commands|
    ensures forall i :: 0 <= i < |r| ==> r[i] == (commands[i].0[0], commands[i].1)
  {
    if commands == [] then [] else [(commands[0].0[0], commands[0].1)] + Letters(commands[1..])
  }

  lemma StripUnchanged(s: string)
    requires s != [] && !IsSpace(s[0]) && !IsSpace(s[|s| - 1])
    ensures Strip(s) == s
  {
  }

  /** A join of non-empty words starts with the first word's first character and ends with the last word's last one. */
  lemma {:induction false} JoinEnds(words: seq<string>, sep: char)
    requires |words| >= 1
    requires forall i :: 0 <= i < |words| ==> words[i] != []
    ensures Join(words, sep) != []
    ensures Join(words, sep)[0] == words[0][0]
    ensures Join(words, sep)[|Join(words, sep)| - 1] == words[|words| - 1][|words[|words| - 1]| - 1]
    decreases |words|
  {
    if |words| > 1 {
      var rest := words[1..];
      JoinEnds(rest, sep);
      assert rest[|rest| - 1] == words[|words| - 1];
    }
  }

  /** The words of well-formed commands hold no space and neither start nor end with whitespace, and each is its letter then its number. */
  lemma WordsClean(c: Codec, commands: seq<(string, real)>, i: int)
    requires 0 <= i < |commands|
    requires |commands[i].0| == 1 && IsAlpha(commands[i].0[0]) && Clean(c, commands[i].1)
    ensures var w := Words(c, commands)[i];
      && w != [] && ' ' !in w && !IsSpace(w[0]) && !IsSpace(w[|w| - 1])
      && w[0] == commands[i].0[0] && w[1..] == c.show(commands[i].1)
  {
    var w := Words(c, commands)[i];
    var s := c.show(commands[i].1);
    assert w == commands[i].0 + s;
    forall k | 0 <= k < |w| ensures w[k] != ' ' {
      if k > 0 { assert w[k] == s[k - 1]; }
    }
    if s != [] { assert w[|w| - 1] == s[|s| - 1]; }
  }

  /** Reading the clean words of well-formed commands gives their letters and numbers, with nothing raised. */
  lemma ReadWords(c: Codec, commands: seq<(string, real)>)
    requires forall i :: 0 <= i < |commands| ==> |commands[i].0| == 1 && IsAlpha(commands[i].0[0])
    requires forall i :: 0 <= i < |commands| ==> Clean(c, commands[i].1)
    ensures ReadTokens(c, Words(c, commands)) == Reading(Letters(commands), None)
  {
    var words := Words(c, commands);
    forall i | 0 <= i < |words| ensures TokenFault(c, words[i]).None? {
      WordsClean(c, commands, i);
    }
    ReadTokensYieldsInOrder(c, words);
    var r := ReadTokens(c, words);
    forall i | 0 <= i < |words| ensures r.pairs[i] == Letters(commands)[i] {
      WordsClean(c, commands, i);
    }
  }

  /**
   * Written from one-letter alphabetic commands with a clean number format, a line reads back
   * as the same pairs in the same order, and nothing is raised.
   */
  lemma WriteThenRead(c: Codec, commands: seq<(string, real)>)
    requires |commands| >= 1
    requires forall i :: 0 <= i < |commands| ==> |commands[i].0| == 1 && IsAlpha(commands[i].0[0])
    requires forall i :: 0 <= i < |commands| ==> Clean(c, commands[i].1)
    ensures ReadGcodeLine(c, WriteGcodeLine(c, commands)) == Reading(Letters(commands), None)
  {
    var words := Words(c, commands);
    forall i | 0 <= i < |words| ensures words[i] != [] && ' ' !in words[i] {
      WordsClean(c, commands, i);
    }
    WordsClean(c, commands, 0);
    WordsClean(c, commands, |commands| - 1);
    JoinEnds(words, ' ');
    StripUnchanged(Join(words, ' '));
    SplitJoin(words, ' ');
    ReadWords(c, commands);
  }
}
