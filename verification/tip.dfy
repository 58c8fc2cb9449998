/**
 * The generic engine every grammar is built on: a character classifier, the
 * tokenizer's reads over the text still to be lexed, the token record, and
 * the parser driver's two primitives.  The module `tip` itself is not part
 * of this model; what is here is the smallest behaviour its call sites in
 * tip_SQL.py fix, with ASCII character classes.
 */
module Tip {
  import opened Wrappers

  /** The classes `vrsta` tells apart: end of text, blank, digit, letter, other. */
  datatype Category = AtEnd | Blank | Digit | Letter | Other

  /** ASCII whitespace: space, tab, newline, carriage return, vertical tab, form feed. */
  predicate IsSpace(c: char) {
    c == ' ' || c == '\t' || c == '\n' || c == '\r' || c == '\U{000B}' || c == '\U{000C}'
  }

  predicate IsDigit(c: char) {
    '0' <= c <= '9'
  }

  predicate IsLetter(c: char) {
    'A' <= c <= 'Z' || 'a' <= c <= 'z'
  }

  predicate IsAlnum(c: char) {
    IsLetter(c) || IsDigit(c)
  }

  /** Classifies the character under the cursor; `rest` is the text not yet read. */
  function Classify(rest: string): Category {
    if |rest| == 0 then AtEnd
    else if IsSpace(rest[0]) then Blank
    else if IsDigit(rest[0]) then Digit
    else if IsLetter(rest[0]) then Letter
    else Other
  }

  /** One tokenizer read: the characters consumed and the text left after them. */
  datatype Read = Read(text: string, rest: string)

  /** Reads the longest prefix of `s` whose characters all satisfy `p`. */
  function ReadWhile(s: string, p: char -> bool): (r: Read)
    ensures r.text + r.rest == s
    ensures forall i :: 0 <= i < |r.text| ==> p(r.text[i])
    ensures |r.rest| > 0 ==> !p(r.rest[0])
    decreases |s|
  {
    if |s| > 0 && p(s[0]) then
      var tail := ReadWhile(s[1..], p);
      Read([s[0]] + tail.text, tail.rest)
    else
      Read([], s)
  }

  /**
   * The read is the maximal munch: any prefix of length `n` whose characters
   * satisfy `p` and that is not followed by one that does is the one read.
   */
  lemma {:induction false} ReadWhileIsMaximal(s: string, p: char -> bool, n: nat)
    requires n <= |s|
    requires forall i :: 0 <= i < n ==> p(s[i])
    requires n == |s| || !p(s[n])
    ensures ReadWhile(s, p) == Read(s[..n], s[n..])
  {
    var r := ReadWhile(s, p);
    assert r.text == s[..|r.text|] && r.rest == s[|r.text|..];
  }

  /** `praznine`: skips a maximal run of whitespace. */
  function SkipSpaces(s: string): (r: Read)
    requires |s| > 0 && IsSpace(s[0])
    ensures r.text + r.rest == s && |r.text| > 0
    ensures forall i :: 0 <= i < |r.text| ==> IsSpace(r.text[i])
    ensures |r.rest| > 0 ==> !IsSpace(r.rest[0])
  {
    ReadWhile(s, IsSpace)
  }

  /** `broj`: reads a maximal run of digits. */
  function ReadNumber(s: string): (r: Read)
    requires |s| > 0 && IsDigit(s[0])
    ensures r.text + r.rest == s && |r.text| > 0
    ensures forall i :: 0 <= i < |r.text| ==> IsDigit(r.text[i])
    ensures |r.rest| > 0 ==> !IsDigit(r.rest[0])
  {
    ReadWhile(s, IsDigit)
  }

  /** `ime`: reads a maximal run of letters and digits that starts at a letter. */
  function ReadName(s: string): (r: Read)
    requires |s| > 0 && IsLetter(s[0])
    ensures r.text + r.rest == s && |r.text| > 0 && IsLetter(r.text[0])
    ensures forall i :: 0 <= i < |r.text| ==> IsAlnum(r.text[i])
    ensures |r.rest| > 0 ==> !IsAlnum(r.rest[0])
  {
    ReadWhile(s, IsAlnum)
  }

  /** `čitaj`: reads exactly one character; never issued at the end of the text. */
  function ReadChar(s: string): (r: Read)
    requires |s| > 0
    ensures r.text + r.rest == s && |r.text| == 1
  {
    Read(s[..1], s[1..])
  }

  /** A token: its kind and the exact text it was read from. */
  datatype Token<K> = Token(kind: K, text: string)

  /** The driver's only error: what was expected and the token found instead. */
  datatype SyntaxError<K> = SyntaxError(expected: seq<K>, found: Token<K>)

  /** A rule's value together with the position of the new lookahead token. */
  datatype Parsed<T> = Parsed(value: T, next: nat)

  /**
   * `pročitaj(k)`: consumes the lookahead token at `pos` when its kind is
   * `k` and yields its text; fails otherwise, consuming nothing.
   */
  function Expect<K(==)>(toks: seq<Token<K>>, pos: nat, k: K): (r: Result<Parsed<string>, SyntaxError<K>>)
    requires pos < |toks|
    ensures r.Success? <==> toks[pos].kind == k
    ensures r.Success? ==> r.value == Parsed(toks[pos].text, pos + 1)
    ensures r.Failure? ==> r.error == SyntaxError([k], toks[pos])
  {
    if toks[pos].kind == k then Success(Parsed(toks[pos].text, pos + 1))
    else Failure(SyntaxError([k], toks[pos]))
  }

  /**
   * `granaj(k1, ..., kn)`: yields the lookahead kind without consuming it
   * when it is one of `ks`; fails otherwise.
   */
  function Branch<K(==)>(toks: seq<Token<K>>, pos: nat, ks: seq<K>): (r: Result<K, SyntaxError<K>>)
    requires pos < |toks|
    ensures r.Success? <==> toks[pos].kind in ks
    ensures r.Success? ==> r.value == toks[pos].kind
    ensures r.Failure? ==> r.error == SyntaxError(ks, toks[pos])
  {
    if toks[pos].kind in ks then Success(toks[pos].kind)
    else Failure(SyntaxError(ks, toks[pos]))
  }
}
