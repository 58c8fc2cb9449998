/**
 * What `sql_parse` refuses.  Every accepted stream is a chain of token kinds
 * in which each neighbouring pair is one the grammar can produce; the
 * malformed inputs the parser rejects (a comma before FROM, an empty spec
 * list, a doubled comma, a number as an attribute value, a GREŠKA token,
 * a second statement) each contain a pair that is not.
 */
module SqlRejections {
  import opened Wrappers
  import opened Tip
  import opened SqlLexer
  import opened SqlLexerFacts
  import opened SqlGrammar
  import opened SqlParser
  import opened SqlCompleteness

  /** The neighbouring token kinds some statement pattern, followed by KRAJ, contains. */
  const Adjacent: set<(Kind, Kind)> := {
    (Select, Star), (Select, Ident), (Star, From), (From, Ident),
    (Ident, Comma), (Comma, Ident), (Ident, From), (Ident, Semicolon),
    (Create, Table), (Table, Ident), (Ident, LParen), (LParen, Ident),
    (Ident, Ident), (LParen, Number), (Number, RParen), (RParen, Comma),
    (RParen, RParen), (Ident, RParen), (Comma, RParen), (RParen, Semicolon),
    (Delete, Star), (Delete, From), (Ident, Where), (Where, Ident),
    (Ident, Equals), (Equals, Ident), (Semicolon, End)
  }

  predicate Allowed(x: Kind, y: Kind) {
    (x, y) in Adjacent
  }

  /** Three IME tokens in a row: two column specs with no comma between them. */
  predicate NameRun(x: Kind, y: Kind, z: Kind) {
    x == Ident && y == Ident && z == Ident
  }

  /** Every neighbouring pair of kinds in `ts` is allowed, and no three IME tokens are adjacent. */
  ghost predicate Chain(ts: seq<SqlToken>) {
    && (forall i :: 0 < i < |ts| ==> Allowed(ts[i - 1].kind, ts[i].kind))
    && (forall i :: 1 < i < |ts| ==> !NameRun(ts[i - 2].kind, ts[i - 1].kind, ts[i].kind))
  }

  function Last(ts: seq<SqlToken>): SqlToken
    requires |ts| > 0
  {
    ts[|ts| - 1]
  }

  lemma {:induction false} ChainConcat(a: seq<SqlToken>, b: seq<SqlToken>)
    requires Chain(a) && Chain(b) && |a| > 0 && |b| > 0
    requires Allowed(Last(a).kind, b[0].kind)
    requires Last(a).kind != Ident || b[0].kind != Ident
    ensures Chain(a + b) && |a + b| > 0 && (a + b)[0] == a[0] && Last(a + b) == Last(b)
  {
    var ab := a + b;
    forall i | 0 < i < |ab|
      ensures Allowed(ab[i - 1].kind, ab[i].kind)
    {
      if i < |a| {
        assert ab[i - 1] == a[i - 1] && ab[i] == a[i];
      } else if i == |a| {
        assert ab[i - 1] == Last(a) && ab[i] == b[0];
      } else {
        assert ab[i - 1] == b[i - 1 - |a|] && ab[i] == b[i - |a|];
      }
    }
    forall i | 1 < i < |ab|
      ensures !NameRun(ab[i - 2].kind, ab[i - 1].kind, ab[i].kind)
    {
      if i < |a| {
        assert ab[i - 2] == a[i - 2] && ab[i - 1] == a[i - 1] && ab[i] == a[i];
      } else if i == |a| {
        assert ab[i - 1] == Last(a) && ab[i] == b[0];
      } else if i == |a| + 1 {
        assert ab[i - 2] == Last(a) && ab[i - 1] == b[0];
      } else {
        assert ab[i - 2] == b[i - 2 - |a|] && ab[i - 1] == b[i - 1 - |a|] && ab[i] == b[i - |a|];
      }
    }
  }

  lemma {:induction false} ColumnsChain(columns: seq<string>)
    requires |columns| > 0
    ensures var p := ColumnsPattern(columns);
      Chain(p) && |p| > 0 && p[0].kind == Ident && Last(p).kind == Ident
    decreases |columns|
  {
    if |columns| > 1 {
      ColumnsChain(columns[1..]);
      ChainConcat([I(columns[0]), K(Comma)], ColumnsPattern(columns[1..]));
    }
  }

  lemma {:induction false} SpecChain(spec: ColSpec)
    ensures var p := SpecPattern(spec);
      Chain(p) && |p| > 0 && p[0].kind == Ident && Last(p).kind in {Ident, RParen}
  {
    if spec.size.Some? {
      ChainConcat([I(spec.name), I(spec.typ)], [K(LParen), Token(Number, spec.size.value), K(RParen)]);
    } else {
      assert SpecPattern(spec) == [I(spec.name), I(spec.typ)];
    }
  }

  lemma {:induction false} SpecsChain(specs: seq<ColSpec>, trailing: bool)
    requires |specs| > 0
    ensures var p := SpecsPattern(specs, trailing);
      Chain(p) && |p| > 0 && p[0].kind == Ident && Last(p).kind in {Ident, RParen, Comma}
    decreases |specs|
  {
    SpecChain(specs[0]);
    var head := SpecPattern(specs[0]);
    if |specs| == 1 {
      if trailing {
        ChainConcat(head, [K(Comma)]);
      } else {
        assert SpecsPattern(specs, trailing) == head;
      }
    } else {
      SpecsChain(specs[1..], trailing);
      ChainConcat(head, [K(Comma)]);
      ChainConcat(head + [K(Comma)], SpecsPattern(specs[1..], trailing));
    }
  }

  lemma {:induction false} AttrsChain(attributes: seq<Attr>)
    requires |attributes| > 0
    ensures var p := AttrsPattern(attributes);
      Chain(p) && |p| > 0 && p[0].kind == Ident && Last(p).kind == Ident
    decreases |attributes|
  {
    if |attributes| > 1 {
      AttrsChain(attributes[1..]);
      ChainConcat(AttrPattern(attributes[0]), [K(Comma)]);
      ChainConcat(AttrPattern(attributes[0]) + [K(Comma)], AttrsPattern(attributes[1..]));
    }
  }

  /** A well-formed statement's body is an allowed chain ending in IME or `)`. */
  lemma {:induction false} BodyChain(stmt: Statement, trailing: bool)
    requires WellFormed(stmt)
    ensures var p := BodyPattern(stmt, trailing);
      && Chain(p) && |p| > 0 && Last(p).kind in {Ident, RParen}
      && p[0].kind == (match stmt case SelectStmt(_, _, _) => Select case CreateStmt(_, _) => Create case DeleteStmt(_, _, _) => Delete)
  {
    match stmt
    case SelectStmt(all, columns, table) =>
      var middle := if all then [K(Star)] else ColumnsPattern(columns);
      if !all {
        ColumnsChain(columns);
      }
      ChainConcat([K(Select)], middle);
      ChainConcat([K(Select)] + middle, [K(From), I(table)]);
    case CreateStmt(table, specs) =>
      var head := [K(Create), K(Table), I(table), K(LParen)];
      SpecsChain(specs, trailing);
      ChainConcat(head, SpecsPattern(specs, trailing));
      ChainConcat(head + SpecsPattern(specs, trailing), [K(RParen)]);
    case DeleteStmt(all, table, attributes) =>
      if !all {
        var head := [K(Delete), K(From), I(table), K(Where)];
        AttrsChain(attributes);
        ChainConcat(head, AttrsPattern(attributes));
      }
  }

  /** A well-formed statement followed by KRAJ is an allowed chain. */
  lemma {:induction false} StatementChain(stmt: Statement, trailing: bool)
    requires WellFormed(stmt)
    ensures Chain(StatementPattern(stmt, trailing) + [K(End)])
    ensures (StatementPattern(stmt, trailing) + [K(End)])[0] == BodyPattern(stmt, trailing)[0]
  {
    BodyChain(stmt, trailing);
    ChainConcat(BodyPattern(stmt, trailing), [K(Semicolon)]);
    ChainConcat(StatementPattern(stmt, trailing), [K(End)]);
  }

  /** Kinds carry over from a pattern to the tokens that spell it. */
  lemma {:induction false} AcceptsKinds(toks: seq<SqlToken>, stmt: Statement, trailing: bool, i: nat)
    requires Accepts(toks, stmt, trailing) && i < |toks|
    ensures toks[i].kind == (StatementPattern(stmt, trailing) + [K(End)])[i].kind
  {
    SpansKindAt(toks, 0, |toks|, StatementPattern(stmt, trailing) + [K(End)], i);
  }

  /** Every stream `sql_parse` accepts opens with a statement keyword and is an allowed chain. */
  lemma {:induction false} ParsedChain(toks: seq<SqlToken>)
    requires Terminated(toks) && ParseTokens(toks).Success?
    ensures Chain(toks)
    ensures toks[0].kind in {Select, Create, Delete}
  {
    var stmt := ParseTokens(toks).value;
    var trailing := Accepts(toks, stmt, true);
    var pat := StatementPattern(stmt, trailing) + [K(End)];
    StatementChain(stmt, trailing);
    BodyChain(stmt, trailing);
    forall i | 0 < i < |toks|
      ensures Allowed(toks[i - 1].kind, toks[i].kind)
    {
      AcceptsKinds(toks, stmt, trailing, i - 1);
      AcceptsKinds(toks, stmt, trailing, i);
    }
    forall i | 1 < i < |toks|
      ensures !NameRun(toks[i - 2].kind, toks[i - 1].kind, toks[i].kind)
    {
      AcceptsKinds(toks, stmt, trailing, i - 2);
      AcceptsKinds(toks, stmt, trailing, i - 1);
      AcceptsKinds(toks, stmt, trailing, i);
    }
    AcceptsKinds(toks, stmt, trailing, 0);
  }

  /** Two neighbouring tokens no statement can contain make `sql_parse` fail. */
  lemma {:induction false} RejectsAdjacent(toks: seq<SqlToken>, i: nat)
    requires Terminated(toks) && 0 < i < |toks|
    requires !Allowed(toks[i - 1].kind, toks[i].kind)
    ensures ParseTokens(toks).Failure?
  {
    if ParseTokens(toks).Success? {
      ParsedChain(toks);
    }
  }

  /** `CREATE TABLE t (a int b int);`: three IME tokens in a row, a comma missing between specs. */
  lemma {:induction false} RejectsMissingComma(toks: seq<SqlToken>, i: nat)
    requires Terminated(toks) && 1 < i < |toks|
    requires toks[i - 2].kind == Ident && toks[i - 1].kind == Ident && toks[i].kind == Ident
    ensures ParseTokens(toks).Failure?
  {
    if ParseTokens(toks).Success? {
      ParsedChain(toks);
      assert NameRun(toks[i - 2].kind, toks[i - 1].kind, toks[i].kind);
    }
  }

  /** A stream that does not open with SELECT, CREATE or DELETE is rejected. */
  lemma {:induction false} RejectsStart(toks: seq<SqlToken>)
    requires Terminated(toks) && toks[0].kind !in {Select, Create, Delete}
    ensures ParseTokens(toks).Failure?
  {
    if ParseTokens(toks).Success? {
      ParsedChain(toks);
    }
  }

  /** A GREŠKA token anywhere makes `sql_parse` fail. */
  lemma {:induction false} RejectsInvalid(toks: seq<SqlToken>, i: nat)
    requires Terminated(toks) && i < |toks| && toks[i].kind == Invalid
    ensures ParseTokens(toks).Failure?
  {
    if i == 0 {
      RejectsStart(toks);
    } else {
      RejectsAdjacent(toks, i);
    }
  }

  /** `SELECT a, FROM t;`: a comma right before FROM. */
  lemma {:induction false} RejectsCommaBeforeFrom(toks: seq<SqlToken>, i: nat)
    requires Terminated(toks) && 0 < i < |toks|
    requires toks[i - 1].kind == Comma && toks[i].kind == From
    ensures ParseTokens(toks).Failure?
  {
    RejectsAdjacent(toks, i);
  }

  /** `CREATE TABLE t ();`: `)` right after `(`. */
  lemma {:induction false} RejectsEmptyParens(toks: seq<SqlToken>, i: nat)
    requires Terminated(toks) && 0 < i < |toks|
    requires toks[i - 1].kind == LParen && toks[i].kind == RParen
    ensures ParseTokens(toks).Failure?
  {
    RejectsAdjacent(toks, i);
  }

  /** `CREATE TABLE t (a int,, b int);`: two commas in a row. */
  lemma {:induction false} RejectsDoubleComma(toks: seq<SqlToken>, i: nat)
    requires Terminated(toks) && 0 < i < |toks|
    requires toks[i - 1].kind == Comma && toks[i].kind == Comma
    ensures ParseTokens(toks).Failure?
  {
    RejectsAdjacent(toks, i);
  }

  /** `DELETE FROM t WHERE a = 1;`: an attribute value must be IME, not BROJ. */
  lemma {:induction false} RejectsNumericValue(toks: seq<SqlToken>, i: nat)
    requires Terminated(toks) && 0 < i < |toks|
    requires toks[i - 1].kind == Equals && toks[i].kind == Number
    ensures ParseTokens(toks).Failure?
  {
    RejectsAdjacent(toks, i);
  }

  /** The token before KRAJ in an accepted stream is `;`. */
  lemma {:induction false} SemicolonBeforeEnd(toks: seq<SqlToken>)
    requires Terminated(toks) && ParseTokens(toks).Success?
    ensures |toks| >= 2 && toks[|toks| - 2].kind == Semicolon
  {
    var stmt := ParseTokens(toks).value;
    var trailing := Accepts(toks, stmt, true);
    var body := BodyPattern(stmt, trailing);
    var pat := body + [K(Semicolon)] + [K(End)];
    assert StatementPattern(stmt, trailing) + [K(End)] == pat;
    assert |toks| == |body| + 2;
    AcceptsKinds(toks, stmt, trailing, |body|);
    assert pat[|body|] == K(Semicolon);
  }

  /** In an accepted stream a `;` is followed by KRAJ, hence is the second-last token. */
  lemma {:induction false} SemicolonOnlyLast(toks: seq<SqlToken>, i: nat)
    requires Terminated(toks) && ParseTokens(toks).Success? && i < |toks|
    requires toks[i].kind == Semicolon
    ensures i == |toks| - 2
  {
    ParsedChain(toks);
    assert i != |toks| - 1;
    assert Allowed(toks[i].kind, toks[i + 1].kind);
    OnlyEndAfterSemicolon(toks[i + 1].kind);
  }

  lemma {:induction false} OnlyEndAfterSemicolon(y: Kind)
    requires Allowed(Semicolon, y)
    ensures y == End
  {
  }

  /** An accepted stream holds exactly one `;`, the token right before KRAJ. */
  lemma {:induction false} SingleSemicolon(toks: seq<SqlToken>, i: nat)
    requires Terminated(toks) && ParseTokens(toks).Success? && i < |toks|
    ensures toks[i].kind == Semicolon <==> i == |toks| - 2
  {
    SemicolonBeforeEnd(toks);
    if toks[i].kind == Semicolon {
      SemicolonOnlyLast(toks, i);
    }
  }

  /** The kind of the first token of each statement form. */
  function Opening(stmt: Statement): Kind {
    match stmt
    case SelectStmt(_, _, _) => Select
    case CreateStmt(_, _) => Create
    case DeleteStmt(_, _, _) => Delete
  }

  /** An accepted stream's first two token kinds fix the statement's form. */
  lemma {:induction false} AcceptsOpening(toks: seq<SqlToken>, stmt: Statement, trailing: bool)
    requires Accepts(toks, stmt, trailing) && WellFormed(stmt)
    ensures |toks| > 2 && toks[0].kind == Opening(stmt)
    ensures stmt.SelectStmt? ==> (toks[1].kind == Star <==> stmt.all)
    ensures stmt.DeleteStmt? ==> (toks[1].kind == Star <==> stmt.all)
  {
    BodyChain(stmt, trailing);
    AcceptsKinds(toks, stmt, trailing, 0);
    AcceptsKinds(toks, stmt, trailing, 1);
    var body := BodyPattern(stmt, trailing);
    assert (StatementPattern(stmt, trailing) + [K(End)])[0] == body[0];
    assert (StatementPattern(stmt, trailing) + [K(End)])[1] == body[1];
    if stmt.SelectStmt? && !stmt.all {
      ColumnsChain(stmt.columns);
      assert body[1] == ColumnsPattern(stmt.columns)[0];
    }
  }

  /**
   * `DELETE * FROM t` admits nothing but the `;` after the table: the
   * accepted stream is six tokens long and holds no WHERE.
   */
  lemma {:induction false} DeleteAllForm(toks: seq<SqlToken>, stmt: Statement)
    requires Terminated(toks) && ParseTokens(toks) == Success(stmt)
    requires toks[0].kind == Delete && toks[1].kind == Star
    ensures stmt == DeleteStmt(true, toks[3].text, []) && |toks| == 6
    ensures forall j :: 0 <= j < |toks| ==> toks[j].kind != Where
  {
    ParseCharacterisation(toks, stmt);
    var trailing := Accepts(toks, stmt, true);
    AcceptsOpening(toks, stmt, trailing);
    var pat := StatementPattern(stmt, trailing) + [K(End)];
    assert pat == [K(Delete), K(Star), K(From), I(stmt.table), K(Semicolon), K(End)];
    AcceptsKinds(toks, stmt, trailing, 3);
    SpansKindAt(toks, 0, |toks|, pat, 3);
    forall j | 0 <= j < |toks|
      ensures toks[j].kind != Where
    {
      AcceptsKinds(toks, stmt, trailing, j);
    }
  }

  /** `DELETE * FROM t WHERE a=b;`: a WHERE anywhere after `DELETE *`. */
  lemma {:induction false} RejectsStarWhere(toks: seq<SqlToken>, i: nat)
    requires Terminated(toks) && 1 < i < |toks|
    requires toks[0].kind == Delete && toks[1].kind == Star && toks[i].kind == Where
    ensures ParseTokens(toks).Failure?
  {
    if ParseTokens(toks).Success? {
      DeleteAllForm(toks, ParseTokens(toks).value);
      assert false;
    }
  }

  /** `DELETE FROM t` must go on with WHERE: `DELETE FROM t;` is rejected. */
  lemma {:induction false} DeleteWhereForm(toks: seq<SqlToken>, stmt: Statement)
    requires Terminated(toks) && ParseTokens(toks) == Success(stmt)
    requires toks[0].kind == Delete && toks[1].kind == From
    ensures stmt.DeleteStmt? && !stmt.all && |stmt.attributes| > 0
    ensures |toks| > 4 && toks[3].kind == Where
  {
    ParseCharacterisation(toks, stmt);
    var trailing := Accepts(toks, stmt, true);
    AcceptsOpening(toks, stmt, trailing);
    var head := [K(Delete), K(From), I(stmt.table), K(Where)];
    var pat := StatementPattern(stmt, trailing) + [K(End)];
    assert pat == head + AttrsPattern(stmt.attributes) + [K(Semicolon), K(End)];
    assert pat[3] == K(Where);
    AcceptsKinds(toks, stmt, trailing, 3);
  }

  /** `DELETE FROM t;`: DELETE FROM whose fourth token is not WHERE. */
  lemma {:induction false} RejectsMissingWhere(toks: seq<SqlToken>)
    requires Terminated(toks) && |toks| > 3
    requires toks[0].kind == Delete && toks[1].kind == From && toks[3].kind != Where
    ensures ParseTokens(toks).Failure?
  {
    if ParseTokens(toks).Success? {
      DeleteWhereForm(toks, ParseTokens(toks).value);
      assert false;
    }
  }

  /** `SELECT *` reads no columns, `SELECT` IME reads at least one, the first being that IME. */
  lemma {:induction false} SelectForm(toks: seq<SqlToken>, stmt: Statement)
    requires Terminated(toks) && ParseTokens(toks) == Success(stmt)
    requires toks[0].kind == Select
    ensures stmt.SelectStmt?
    ensures toks[1].kind == Star ==> stmt.all && stmt.columns == [] && |toks| == 6
    ensures toks[1].kind == Ident ==> !stmt.all && |stmt.columns| > 0 && stmt.columns[0] == toks[1].text
  {
    ParseCharacterisation(toks, stmt);
    var trailing := Accepts(toks, stmt, true);
    AcceptsOpening(toks, stmt, trailing);
    var pat := StatementPattern(stmt, trailing) + [K(End)];
    if stmt.all {
      assert pat == [K(Select), K(Star), K(From), I(stmt.table), K(Semicolon), K(End)];
    } else {
      ColumnsChain(stmt.columns);
      assert pat[1] == ColumnsPattern(stmt.columns)[0] == I(stmt.columns[0]);
      SpansKindAt(toks, 0, |toks|, pat, 1);
    }
  }

  /** `sql_parse` on text holding a character that is no token's start fails. */
  lemma {:induction false} ParseRejectsStray(s: string, i: nat)
    requires i < |s| && IsStray(s[i])
    ensures Parse(s).Failure?
  {
    LexShape(s);
    LexStray(s, i);
    var j :| 0 <= j < |Lex(s)| && Lex(s)[j] == Token(Invalid, [s[i]]);
    RejectsInvalid(Lex(s), j);
  }
}
