/**
 * The SQL dialect's token kinds, keyword and operator tables, and the
 * lexer `sql_lex`, materialised as a finite token sequence.
 */
module SqlLexer {
  import opened Tip

  /**
   * The `SQL` enumeration, one constructor per member:
   * PRAZNO, KRAJ, GREŠKA, IME, ZVJEZDICA, ZAREZ, SELECT, FROM, CREATE, TABLE,
   * DELETE, WHERE, JEDNAKO, OTVORENA, ZATVORENA, BROJ, TOČKAZAREZ.
   */
  datatype Kind =
    | Whitespace | End | Invalid | Ident | Star | Comma
    | Select | From | Create | Table | Delete | Where
    | Equals | LParen | RParen | Number | Semicolon

  type SqlToken = Token<Kind>

  /** `SQL_ključne_riječi`. */
  const Keywords: seq<string> := ["SELECT", "FROM", "CREATE", "TABLE", "DELETE", "WHERE"]

  /** `SQL_operatori`. */
  const Operators: seq<char> := ['*', ',', '(', ')', ';', '=']

  predicate IsKeyword(k: Kind) {
    k in {Select, From, Create, Table, Delete, Where}
  }

  predicate IsOperator(k: Kind) {
    k in {Star, Comma, LParen, RParen, Semicolon, Equals}
  }

  /** The enumeration value of a keyword kind: its upper-case spelling. */
  function Spelling(k: Kind): string
    requires IsKeyword(k)
  {
    match k
    case Select => "SELECT"
    case From => "FROM"
    case Create => "CREATE"
    case Table => "TABLE"
    case Delete => "DELETE"
    case Where => "WHERE"
  }

  /** The enumeration value of an operator kind: its one character. */
  function OperatorChar(k: Kind): char
    requires IsOperator(k)
  {
    match k
    case Star => '*'
    case Comma => ','
    case LParen => '('
    case RParen => ')'
    case Semicolon => ';'
    case Equals => '='
  }

  /** The kinds a letter-initial run can get. */
  predicate IsWordKind(k: Kind) {
    k == Ident || IsKeyword(k)
  }

  /** `SQL[kw]`: the keyword kind whose name is `u`. */
  function KeywordKind(u: string): (k: Kind)
    requires u in Keywords
    ensures IsKeyword(k) && Spelling(k) == u
  {
    if u == "SELECT" then Select
    else if u == "FROM" then From
    else if u == "CREATE" then Create
    else if u == "TABLE" then Table
    else if u == "DELETE" then Delete
    else Where
  }

  /** `SQL(znak)`: the operator kind whose value is `c`. */
  function OperatorKind(c: char): (k: Kind)
    requires c in Operators
    ensures IsOperator(k) && OperatorChar(k) == c
  {
    if c == '*' then Star
    else if c == ',' then Comma
    else if c == '(' then LParen
    else if c == ')' then RParen
    else if c == ';' then Semicolon
    else Equals
  }

  function UpperChar(c: char): char {
    if 'a' <= c <= 'z' then (c as int - 32) as char else c
  }

  /**
   * `str.upper`, restricted to ASCII: the same length, no lower-case letter
   * left, and every character either kept or a lower-case letter raised to
   * its capital.
   */
  function Upper(w: string): (u: string)
    ensures |u| == |w|
    ensures forall i :: 0 <= i < |u| ==> !('a' <= u[i] <= 'z')
    ensures forall i :: 0 <= i < |u| ==> u[i] == w[i] || ('a' <= w[i] <= 'z' && u[i] as int + 32 == w[i] as int)
  {
    seq(|w|, i requires 0 <= i < |w| => UpperChar(w[i]))
  }

  /** Upper-casing twice is upper-casing once. */
  lemma {:induction false} UpperIdempotent(w: string)
    ensures Upper(Upper(w)) == Upper(w)
  {
  }

  /** The kind a letter-initial run gets: a keyword matched without regard to case, else IME. */
  function WordKind(w: string): (k: Kind)
    ensures k == Ident <==> Upper(w) !in Keywords
    ensures k != Ident ==> IsKeyword(k) && Spelling(k) == Upper(w)
  {
    var u := Upper(w);
    if u in Keywords then KeywordKind(u) else Ident
  }

  /** Keyword matching ignores case: a run and its upper-case form get the same kind. */
  lemma {:induction false} WordKindIgnoresCase(w: string)
    ensures WordKind(Upper(w)) == WordKind(w)
  {
    UpperIdempotent(w);
  }

  /** A letter followed by letters and digits, the text `ime` reads. */
  predicate IsWord(w: string) {
    |w| > 0 && IsLetter(w[0]) && forall i :: 0 <= i < |w| ==> IsAlnum(w[i])
  }

  predicate IsNumeral(w: string) {
    |w| > 0 && forall i :: 0 <= i < |w| ==> IsDigit(w[i])
  }

  predicate IsBlank(g: string) {
    forall i :: 0 <= i < |g| ==> IsSpace(g[i])
  }

  /** A character no lexer rule accepts: it becomes a GREŠKA token. */
  predicate IsStray(c: char) {
    !IsSpace(c) && !IsAlnum(c) && c !in Operators
  }

  /** The text each emitted token may carry, by kind. */
  ghost predicate WellLexed(t: SqlToken) {
    match t.kind
    case Whitespace => false
    case End => t.text == ""
    case Invalid => |t.text| == 1 && IsStray(t.text[0])
    case Ident => IsWord(t.text) && Upper(t.text) !in Keywords
    case Number => IsNumeral(t.text)
    case Select | From | Create | Table | Delete | Where =>
      IsWord(t.text) && Upper(t.text) == Spelling(t.kind)
    case Star | Comma | LParen | RParen | Semicolon | Equals =>
      t.text == [OperatorChar(t.kind)]
  }

  /** The shape of every lexer output: one KRAJ token, and it is the last. */
  ghost predicate Terminated(ts: seq<SqlToken>) {
    && |ts| > 0
    && ts[|ts| - 1].kind == End
    && forall i :: 0 <= i < |ts| - 1 ==> ts[i].kind != End
  }

  /** What one turn of the lexer's loop does with the text still to be read. */
  datatype Step =
    | Finish
    | Skip(skipped: string, rest: string)
    | Emit(token: SqlToken, rest: string)

  /** One turn of `sql_lex`'s loop: classify the next character and read accordingly. */
  function Scan(s: string): (st: Step)
    ensures st.Finish? <==> |s| == 0
    ensures st.Skip? ==> st.skipped + st.rest == s && |st.skipped| > 0
    ensures st.Emit? ==> st.token.text + st.rest == s && |st.token.text| > 0
  {
    match Classify(s)
    case AtEnd => Finish
    case Blank =>
      var r := SkipSpaces(s);
      Skip(r.text, r.rest)
    case Digit =>
      var r := ReadNumber(s);
      Emit(Token(Number, r.text), r.rest)
    case Letter =>
      var r := ReadName(s);
      Emit(Token(WordKind(r.text), r.text), r.rest)
    case Other =>
      var r := ReadChar(s);
      if s[0] in Operators then Emit(Token(OperatorKind(s[0]), r.text), r.rest)
      else Emit(Token(Invalid, r.text), r.rest)
  }

  /** `sql_lex`: the token sequence of `s`, whitespace dropped, ending in KRAJ. */
  function Lex(s: string): (r: seq<SqlToken>)
    ensures Terminated(r) && r[|r| - 1] == Token(End, "")
    decreases |s|
  {
    match Scan(s)
    case Finish => [Token(End, "")]
    case Skip(_, rest) => Lex(rest)
    case Emit(t, rest) => [t] + Lex(rest)
  }

  /** The concatenation of the tokens' texts. */
  function Texts(ts: seq<SqlToken>): string {
    if |ts| == 0 then "" else ts[0].text + Texts(ts[1..])
  }

  /** `s` with its whitespace characters removed. */
  function Visible(s: string): string {
    if |s| == 0 then "" else (if IsSpace(s[0]) then "" else [s[0]]) + Visible(s[1..])
  }
}

/** Facts about the lexer: its step equations and what its output preserves. */
module SqlLexerFacts {
  import opened Tip
  import opened SqlLexer

  /**
   * One turn of the loop skips a maximal whitespace run, or emits one token
   * whose text has the shape its kind allows and, for a letter or digit run,
   * is not continued by the text left.
   */
  lemma {:induction false} ScanShape(s: string)
    ensures Scan(s).Skip? ==> IsBlank(Scan(s).skipped)
    ensures Scan(s).Skip? ==> |Scan(s).rest| == 0 || !IsSpace(Scan(s).rest[0])
    ensures Scan(s).Emit? ==> Scan(s).token.kind != End && WellLexed(Scan(s).token)
    ensures Scan(s).Emit? && IsWordKind(Scan(s).token.kind) ==> |Scan(s).rest| == 0 || !IsAlnum(Scan(s).rest[0])
    ensures Scan(s).Emit? && Scan(s).token.kind == Number ==> |Scan(s).rest| == 0 || !IsDigit(Scan(s).rest[0])
  {
  }

  /** One turn of the loop that emits a token puts it in front of the rest's tokens. */
  lemma {:induction false} LexEmit(s: string, t: SqlToken, rest: string)
    requires Scan(s) == Emit(t, rest)
    ensures Lex(s) == [t] + Lex(rest)
  {
  }

  lemma {:induction false} LexSkip(s: string, skipped: string, rest: string)
    requires Scan(s) == Skip(skipped, rest)
    ensures Lex(s) == Lex(rest)
  {
  }

  /** A maximal whitespace run at the front emits nothing. */
  lemma {:induction false} LexBlank(s: string, n: nat)
    requires 0 < n <= |s|
    requires forall i :: 0 <= i < n ==> IsSpace(s[i])
    requires n == |s| || !IsSpace(s[n])
    ensures Lex(s) == Lex(s[n..])
  {
    ReadWhileIsMaximal(s, IsSpace, n);
    assert SkipSpaces(s) == Read(s[..n], s[n..]);
    assert Scan(s) == Skip(s[..n], s[n..]);
    LexSkip(s, s[..n], s[n..]);
  }

  lemma {:induction false} ScanNumeral(s: string, n: nat)
    requires 0 < n <= |s|
    requires forall i :: 0 <= i < n ==> IsDigit(s[i])
    requires n == |s| || !IsDigit(s[n])
    ensures Scan(s) == Emit(Token(Number, s[..n]), s[n..])
  {
    ReadWhileIsMaximal(s, IsDigit, n);
    assert ReadNumber(s) == Read(s[..n], s[n..]);
  }

  /** A maximal digit run at the front becomes one BROJ token. */
  lemma {:induction false} LexNumeral(s: string, n: nat)
    requires 0 < n <= |s|
    requires forall i :: 0 <= i < n ==> IsDigit(s[i])
    requires n == |s| || !IsDigit(s[n])
    ensures Lex(s) == [Token(Number, s[..n])] + Lex(s[n..])
  {
    ScanNumeral(s, n);
    LexEmit(s, Token(Number, s[..n]), s[n..]);
  }

  lemma {:induction false} ScanWord(s: string, n: nat)
    requires 0 < n <= |s| && IsLetter(s[0])
    requires forall i :: 0 <= i < n ==> IsAlnum(s[i])
    requires n == |s| || !IsAlnum(s[n])
    ensures Scan(s) == Emit(Token(WordKind(s[..n]), s[..n]), s[n..])
  {
    ReadWhileIsMaximal(s, IsAlnum, n);
    assert ReadName(s) == Read(s[..n], s[n..]);
  }

  /**
   * A maximal letter-and-digit run that starts at a letter becomes one
   * token, a keyword or IME by `WordKind`, with the text as written.
   */
  lemma {:induction false} LexWord(s: string, n: nat)
    requires 0 < n <= |s| && IsLetter(s[0])
    requires forall i :: 0 <= i < n ==> IsAlnum(s[i])
    requires n == |s| || !IsAlnum(s[n])
    ensures Lex(s) == [Token(WordKind(s[..n]), s[..n])] + Lex(s[n..])
  {
    ScanWord(s, n);
    LexEmit(s, Token(WordKind(s[..n]), s[..n]), s[n..]);
  }

  lemma {:induction false} ScanSingle(s: string)
    requires |s| > 0 && !IsSpace(s[0]) && !IsAlnum(s[0])
    ensures Scan(s) == Emit(Token(if s[0] in Operators then OperatorKind(s[0]) else Invalid, [s[0]]), s[1..])
  {
    assert ReadChar(s) == Read([s[0]], s[1..]);
  }

  /** Any other character becomes a one-character token: an operator's own kind, else GREŠKA. */
  lemma {:induction false} LexSingle(s: string)
    requires |s| > 0 && !IsSpace(s[0]) && !IsAlnum(s[0])
    ensures s[0] in Operators ==> Lex(s) == [Token(OperatorKind(s[0]), [s[0]])] + Lex(s[1..])
    ensures s[0] !in Operators ==> Lex(s) == [Token(Invalid, [s[0]])] + Lex(s[1..])
  {
    ScanSingle(s);
    LexEmit(s, Token(if s[0] in Operators then OperatorKind(s[0]) else Invalid, [s[0]]), s[1..]);
  }

  /** The step equations restated for a text given as a lexeme followed by the rest. */
  lemma {:induction false} LexWordThen(w: string, rest: string)
    requires IsWord(w) && (|rest| == 0 || !IsAlnum(rest[0]))
    ensures Lex(w + rest) == [Token(WordKind(w), w)] + Lex(rest)
  {
    var s := w + rest;
    assert s[..|w|] == w && s[|w|..] == rest;
    assert forall i :: 0 <= i < |w| ==> s[i] == w[i];
    LexWord(s, |w|);
  }

  lemma {:induction false} LexNumeralThen(d: string, rest: string)
    requires IsNumeral(d) && (|rest| == 0 || !IsDigit(rest[0]))
    ensures Lex(d + rest) == [Token(Number, d)] + Lex(rest)
  {
    var s := d + rest;
    assert s[..|d|] == d && s[|d|..] == rest;
    assert forall i :: 0 <= i < |d| ==> s[i] == d[i];
    LexNumeral(s, |d|);
  }

  lemma {:induction false} LexBlankThen(b: string, rest: string)
    requires |b| > 0 && (forall i :: 0 <= i < |b| ==> IsSpace(b[i]))
    requires |rest| == 0 || !IsSpace(rest[0])
    ensures Lex(b + rest) == Lex(rest)
  {
    var s := b + rest;
    assert s[|b|..] == rest;
    assert forall i :: 0 <= i < |b| ==> s[i] == b[i];
    LexBlank(s, |b|);
  }

  lemma {:induction false} LexCharThen(c: char, rest: string)
    requires !IsSpace(c) && !IsAlnum(c)
    ensures c in Operators ==> Lex([c] + rest) == [Token(OperatorKind(c), [c])] + Lex(rest)
    ensures c !in Operators ==> Lex([c] + rest) == [Token(Invalid, [c])] + Lex(rest)
  {
    var s := [c] + rest;
    assert s[1..] == rest;
    LexSingle(s);
  }

  /** Putting one more well-lexed, non-final token in front keeps the lexer's output shape. */
  lemma {:induction false} PrependLexed(t: SqlToken, ts: seq<SqlToken>)
    requires t.kind != End && WellLexed(t)
    requires Terminated(ts) && forall i :: 0 <= i < |ts| ==> WellLexed(ts[i])
    ensures Terminated([t] + ts) && forall i :: 0 <= i < |[t] + ts| ==> WellLexed(([t] + ts)[i])
  {
    forall i | 0 <= i < |[t] + ts|
      ensures WellLexed(([t] + ts)[i])
    {
      if i > 0 {
        assert ([t] + ts)[i] == ts[i - 1];
      }
    }
  }

  /**
   * The lexer's output is finite and ends with the one KRAJ token, whose text
   * is empty; no PRAZNO token is emitted, and every token's text has the
   * shape its kind allows.
   */
  lemma {:induction false} LexShape(s: string)
    ensures Terminated(Lex(s)) && Lex(s)[|Lex(s)| - 1] == Token(End, "")
    ensures forall i :: 0 <= i < |Lex(s)| ==> WellLexed(Lex(s)[i])
    decreases |s|
  {
    ScanShape(s);
    match Scan(s)
    case Finish =>
    case Skip(_, rest) =>
      LexShape(rest);
    case Emit(t, rest) =>
      LexShape(rest);
      PrependLexed(t, Lex(rest));
  }

  lemma {:induction false} VisibleAppend(a: string, b: string)
    ensures Visible(a + b) == Visible(a) + Visible(b)
    decreases |a|
  {
    if |a| > 0 {
      assert (a + b)[0] == a[0] && (a + b)[1..] == a[1..] + b;
      VisibleAppend(a[1..], b);
    } else {
      assert a + b == b;
    }
  }

  lemma {:induction false} VisibleOfBlank(a: string)
    requires forall i :: 0 <= i < |a| ==> IsSpace(a[i])
    ensures Visible(a) == ""
    decreases |a|
  {
    if |a| > 0 {
      VisibleOfBlank(a[1..]);
    }
  }

  lemma {:induction false} VisibleOfSolid(a: string)
    requires forall i :: 0 <= i < |a| ==> !IsSpace(a[i])
    ensures Visible(a) == a
    decreases |a|
  {
    if |a| > 0 {
      VisibleOfSolid(a[1..]);
      assert a == [a[0]] + a[1..];
    }
  }

  /** No emitted token's text contains whitespace. */
  lemma {:induction false} SolidText(t: SqlToken)
    requires WellLexed(t)
    ensures forall i :: 0 <= i < |t.text| ==> !IsSpace(t.text[i])
  {
  }

  /**
   * Every character lands in exactly one token, whitespace in none: the
   * tokens' texts, concatenated in order, are the input without its whitespace.
   */
  lemma {:induction false} LexTexts(s: string)
    ensures Texts(Lex(s)) == Visible(s)
    decreases |s|
  {
    ScanShape(s);
    match Scan(s)
    case Finish =>
      assert Texts(Lex(s)) == "" + Texts([]);
    case Skip(skipped, rest) =>
      LexTexts(rest);
      VisibleAppend(skipped, rest);
      VisibleOfBlank(skipped);
    case Emit(t, rest) =>
      LexTexts(rest);
      VisibleAppend(t.text, rest);
      SolidText(t);
      VisibleOfSolid(t.text);
      assert ([t] + Lex(rest))[1..] == Lex(rest);
  }

  /** Only a GREŠKA token's text holds a character no rule accepts. */
  lemma {:induction false} StrayOnlyInvalid(t: SqlToken, k: nat)
    requires WellLexed(t) && k < |t.text| && IsStray(t.text[k])
    ensures t == Token(Invalid, [t.text[k]])
  {
  }

  /** Each character no rule accepts comes out as a GREŠKA token of its own. */
  lemma {:induction false} LexStray(s: string, i: nat)
    requires i < |s| && IsStray(s[i])
    ensures exists j :: 0 <= j < |Lex(s)| && Lex(s)[j] == Token(Invalid, [s[i]])
    decreases |s|
  {
    var st := Scan(s);
    ScanShape(s);
    if st.Skip? {
      var skipped, rest := st.skipped, st.rest;
      assert s[i] == rest[i - |skipped|];
      LexSkip(s, skipped, rest);
      LexStray(rest, i - |skipped|);
    } else if st.Emit? {
      var t, rest := st.token, st.rest;
      LexEmit(s, t, rest);
      if i < |t.text| {
        assert s[i] == t.text[i];
        StrayOnlyInvalid(t, i);
        assert Lex(s)[0] == t;
      } else {
        assert s[i] == rest[i - |t.text|];
        LexStray(rest, i - |t.text|);
        var j :| 0 <= j < |Lex(rest)| && Lex(rest)[j] == Token(Invalid, [s[i]]);
        assert Lex(s)[j + 1] == Lex(rest)[j];
      }
    }
  }

  /** Writes tokens back as text, each followed by its gap. */
  function Render(ts: seq<SqlToken>, gaps: seq<string>): string
    requires |gaps| == |ts|
  {
    if |ts| == 0 then "" else ts[0].text + gaps[0] + Render(ts[1..], gaps[1..])
  }

  /** Written with nothing between them, `b`'s text would continue `a`'s run. */
  predicate Glued(a: SqlToken, b: SqlToken) {
    && |b.text| > 0
    && ((IsWordKind(a.kind) && IsAlnum(b.text[0])) || (a.kind == Number && IsDigit(b.text[0])))
  }

  /** Tokens the lexer can emit, with whitespace gaps that keep adjacent runs apart. */
  ghost predicate Separable(ts: seq<SqlToken>, gaps: seq<string>) {
    && |gaps| == |ts|
    && (forall i :: 0 <= i < |ts| ==> WellLexed(ts[i]) && ts[i].kind != End)
    && (forall i :: 0 <= i < |gaps| ==> IsBlank(gaps[i]))
    && (forall i :: 0 <= i < |ts| - 1 ==> gaps[i] == "" ==> !Glued(ts[i], ts[i + 1]))
  }

  lemma {:induction false} RenderStart(ts: seq<SqlToken>, gaps: seq<string>)
    requires |gaps| == |ts| && |ts| > 0 && |ts[0].text| > 0
    ensures |Render(ts, gaps)| > 0 && Render(ts, gaps)[0] == ts[0].text[0]
  {
  }

  /** A keyword's spelling picks out the keyword: `WordKind` agrees with every emitted word token. */
  lemma {:induction false} WordKindOfLexed(t: SqlToken)
    requires WellLexed(t) && IsWordKind(t.kind)
    ensures WordKind(t.text) == t.kind
  {
  }

  lemma {:induction false} LexWordTokenThen(t: SqlToken, after: string)
    requires WellLexed(t) && IsWordKind(t.kind)
    requires |after| == 0 || !IsAlnum(after[0])
    ensures Lex(t.text + after) == [t] + Lex(after)
  {
    WordKindOfLexed(t);
    LexWordThen(t.text, after);
  }

  lemma {:induction false} LexNumberTokenThen(t: SqlToken, after: string)
    requires WellLexed(t) && t.kind == Number
    requires |after| == 0 || !IsDigit(after[0])
    ensures Lex(t.text + after) == [t] + Lex(after)
  {
    LexNumeralThen(t.text, after);
  }

  lemma {:induction false} LexCharTokenThen(t: SqlToken, after: string)
    requires WellLexed(t) && !IsWordKind(t.kind) && t.kind != Number && t.kind != End
    ensures Lex(t.text + after) == [t] + Lex(after)
  {
    assert t.text == [t.text[0]];
    LexCharThen(t.text[0], after);
  }

  /** An emittable token's text, followed by text that does not continue its run, lexes to that token first. */
  lemma {:induction false} LexTokenThen(t: SqlToken, after: string)
    requires WellLexed(t) && t.kind != End
    requires IsWordKind(t.kind) ==> |after| == 0 || !IsAlnum(after[0])
    requires t.kind == Number ==> |after| == 0 || !IsDigit(after[0])
    ensures Lex(t.text + after) == [t] + Lex(after)
  {
    if IsWordKind(t.kind) {
      LexWordTokenThen(t, after);
    } else if t.kind == Number {
      LexNumberTokenThen(t, after);
    } else {
      LexCharTokenThen(t, after);
    }
  }

  lemma {:induction false} SeparableTail(ts: seq<SqlToken>, gaps: seq<string>)
    requires Separable(ts, gaps) && |ts| > 0
    ensures Separable(ts[1..], gaps[1..])
  {
    forall i | 0 <= i < |ts| - 2
      ensures gaps[1..][i] == "" ==> !Glued(ts[1..][i], ts[1..][i + 1])
    {
      assert ts[1..][i] == ts[i + 1] && ts[1..][i + 1] == ts[i + 2];
    }
  }

  /** What follows the first token's text in a rendering never continues its run. */
  lemma {:induction false} RenderBoundary(ts: seq<SqlToken>, gaps: seq<string>)
    requires Separable(ts, gaps) && |ts| > 0
    ensures var rest := Render(ts[1..], gaps[1..]);
      |rest| == 0 || !IsSpace(rest[0])
    ensures var after := gaps[0] + Render(ts[1..], gaps[1..]);
      && (IsWordKind(ts[0].kind) ==> |after| == 0 || !IsAlnum(after[0]))
      && (ts[0].kind == Number ==> |after| == 0 || !IsDigit(after[0]))
  {
    var rest := Render(ts[1..], gaps[1..]);
    if |ts| > 1 {
      SolidText(ts[1]);
      RenderStart(ts[1..], gaps[1..]);
    }
    if |gaps[0]| > 0 {
      assert (gaps[0] + rest)[0] == gaps[0][0];
    } else {
      assert gaps[0] + rest == rest;
    }
  }

  /**
   * Lexing undoes rendering: text written from emittable tokens, with
   * whitespace gaps wherever two runs would merge, lexes back to exactly
   * those tokens followed by KRAJ.
   */
  lemma {:induction false} LexRender(ts: seq<SqlToken>, gaps: seq<string>)
    requires Separable(ts, gaps)
    ensures Lex(Render(ts, gaps)) == ts + [Token(End, "")]
    decreases |ts|
  {
    if |ts| == 0 {
      assert Scan("") == Finish;
    } else {
      SeparableTail(ts, gaps);
      LexRender(ts[1..], gaps[1..]);
      LexRenderStep(ts, gaps);
    }
  }

  /** The first token and its gap in front of an already lexed rest. */
  lemma {:induction false} LexRenderStep(ts: seq<SqlToken>, gaps: seq<string>)
    requires Separable(ts, gaps) && |ts| > 0
    requires Lex(Render(ts[1..], gaps[1..])) == ts[1..] + [Token(End, "")]
    ensures Lex(Render(ts, gaps)) == ts + [Token(End, "")]
  {
    var rest := Render(ts[1..], gaps[1..]);
    assert Render(ts, gaps) == ts[0].text + gaps[0] + rest;
    RenderBoundary(ts, gaps);
    LexTokenGapThen(ts[0], gaps[0], rest);
    assert ts + [Token(End, "")] == [ts[0]] + (ts[1..] + [Token(End, "")]);
  }

  /** One token, the blank gap after it, and a text that does not start blank. */
  lemma {:induction false} LexTokenGapThen(t: SqlToken, g: string, rest: string)
    requires WellLexed(t) && t.kind != End && IsBlank(g)
    requires |rest| == 0 || !IsSpace(rest[0])
    requires var after := g + rest;
      && (IsWordKind(t.kind) ==> |after| == 0 || !IsAlnum(after[0]))
      && (t.kind == Number ==> |after| == 0 || !IsDigit(after[0]))
    ensures Lex(t.text + g + rest) == [t] + Lex(rest)
  {
    var after := g + rest;
    assert t.text + g + rest == t.text + after;
    LexTokenThen(t, after);
    if |g| > 0 {
      LexBlankThen(g, rest);
    } else {
      assert after == rest;
    }
  }

  /** Whitespace in front of the first token changes nothing either. */
  lemma {:induction false} LexRenderPadded(lead: string, ts: seq<SqlToken>, gaps: seq<string>)
    requires IsBlank(lead) && Separable(ts, gaps)
    ensures Lex(lead + Render(ts, gaps)) == ts + [Token(End, "")]
  {
    LexRender(ts, gaps);
    var r := Render(ts, gaps);
    if |lead| == 0 {
      assert lead + r == r;
    } else {
      if |ts| > 0 {
        SolidText(ts[0]);
        RenderStart(ts, gaps);
      }
      LexBlankThen(lead, r);
    }
  }
}
