/**
 * What the parser accepts, stated against the grammar: every rule finds
 * exactly the node whose pattern the tokens spell (completeness), so that
 * `sql_parse` succeeds precisely on the token streams the grammar describes.
 */
module SqlCompleteness {
  import opened Wrappers
  import opened Tip
  import opened SqlLexer
  import opened SqlLexerFacts
  import opened SqlGrammar
  import opened SqlParser

  /** A token matching an IME or BROJ pattern token is that token. */
  lemma {:induction false} ShapeExact(t: SqlToken, u: SqlToken)
    requires Shape(t) == u && (u.kind == Ident || u.kind == Number)
    ensures t == u
  {
  }

  /** A token matches a pattern token only if their kinds agree. */
  lemma {:induction false} ShapeKind(t: SqlToken, u: SqlToken)
    requires Shape(t) == u
    ensures t.kind == u.kind
  {
  }

  /** The token at offset `i` of a spanned pattern has the pattern's kind there. */
  lemma {:induction false} SpansKindAt(toks: seq<SqlToken>, pos: nat, next: nat, pat: seq<SqlToken>, i: nat)
    requires Spans(toks, pos, next, pat) && i < |pat|
    ensures toks[pos + i].kind == pat[i].kind
    ensures pat[i].kind == Ident || pat[i].kind == Number ==> toks[pos + i] == pat[i]
  {
    if pat[i].kind == Ident || pat[i].kind == Number {
      ShapeExact(toks[pos + i], pat[i]);
    } else {
      ShapeKind(toks[pos + i], pat[i]);
    }
  }

  lemma {:induction false} FromTableComplete(toks: seq<SqlToken>, pos: nat, table: string)
    requires Terminated(toks) && pos < |toks|
    requires Spans(toks, pos, pos + 2, [K(From), I(table)])
    ensures FromTable(toks, pos) == Success(Parsed(table, pos + 2))
  {
    SpansKindAt(toks, pos, pos + 2, [K(From), I(table)], 0);
    SpansKindAt(toks, pos, pos + 2, [K(From), I(table)], 1);
  }

  lemma {:induction false} ColumnListComplete(toks: seq<SqlToken>, pos: nat, next: nat, columns: seq<string>)
    requires Terminated(toks) && pos < |toks| && |columns| > 0
    requires Spans(toks, pos, next, ColumnsPattern(columns))
    requires next < |toks| && toks[next].kind == From
    ensures ColumnList(toks, pos) == Success(Parsed(columns, next))
    decreases |columns|
  {
    SpansKindAt(toks, pos, next, ColumnsPattern(columns), 0);
    if |columns| == 1 {
      assert [columns[0]] == columns;
    } else {
      var head := [I(columns[0]), K(Comma)];
      SpansSplit(toks, pos, next, head, ColumnsPattern(columns[1..]));
      SpansKindAt(toks, pos, pos + 2, head, 1);
      ColumnListComplete(toks, pos + 2, next, columns[1..]);
      assert [columns[0]] + columns[1..] == columns;
    }
  }

  lemma {:induction false} SelectAllComplete(toks: seq<SqlToken>, pos: nat, next: nat, table: string)
    requires Terminated(toks) && pos + 1 < |toks| && next < |toks|
    requires toks[pos].kind == Select && toks[pos + 1].kind == Star
    requires Spans(toks, pos, next, [K(Select), K(Star)] + [K(From), I(table)])
    ensures SelectAll(toks, pos) == Success(Parsed(SelectStmt(true, [], table), next))
  {
    SpansSplit(toks, pos, next, [K(Select), K(Star)], [K(From), I(table)]);
    FromTableComplete(toks, pos + 2, table);
  }

  lemma {:induction false} SelectColumnsComplete(toks: seq<SqlToken>, pos: nat, next: nat, columns: seq<string>, table: string)
    requires Terminated(toks) && pos + 1 < |toks| && next < |toks| && |columns| > 0
    requires toks[pos].kind == Select
    requires Spans(toks, pos, next, [K(Select)] + ColumnsPattern(columns) + [K(From), I(table)])
    ensures SelectColumns(toks, pos) == Success(Parsed(SelectStmt(false, columns, table), next))
  {
    var middle := ColumnsPattern(columns);
    var tail := [K(From), I(table)];
    SpansSplit(toks, pos, next, [K(Select)] + middle, tail);
    SpansSplit(toks, pos, pos + 1 + |middle|, [K(Select)], middle);
    SpansKindAt(toks, pos + 1 + |middle|, next, tail, 0);
    ColumnListComplete(toks, pos + 1, pos + 1 + |middle|, columns);
    FromTableComplete(toks, pos + 1 + |middle|, table);
  }

  lemma {:induction false} SelectComplete(toks: seq<SqlToken>, pos: nat, next: nat, stmt: Statement, trailing: bool)
    requires Terminated(toks) && pos < |toks| && next < |toks|
    requires stmt.SelectStmt? && WellFormed(stmt)
    requires Spans(toks, pos, next, BodyPattern(stmt, trailing))
    ensures SelectRule(toks, pos) == Success(Parsed(stmt, next))
  {
    var pat := BodyPattern(stmt, trailing);
    SpansKindAt(toks, pos, next, pat, 0);
    SpansKindAt(toks, pos, next, pat, 1);
    assert Expect(toks, pos, Select) == Success(Parsed(toks[pos].text, pos + 1));
    if stmt.all {
      assert pat == [K(Select), K(Star)] + [K(From), I(stmt.table)];
      SelectAllComplete(toks, pos, next, stmt.table);
    } else {
      assert pat == [K(Select)] + ColumnsPattern(stmt.columns) + [K(From), I(stmt.table)];
      SelectColumnsComplete(toks, pos, next, stmt.columns, stmt.table);
    }
  }

  lemma {:induction false} SizeSuffixComplete(toks: seq<SqlToken>, pos: nat, next: nat, size: Option<string>)
    requires Terminated(toks) && pos < |toks|
    requires Spans(toks, pos, next, SizePattern(size))
    requires next < |toks| && toks[next].kind in {Comma, RParen}
    ensures SizeSuffix(toks, pos) == Success(Parsed(size, next))
  {
    if size.Some? {
      var pat := [K(LParen), Token(Number, size.value), K(RParen)];
      assert SizePattern(size) == pat;
      SpansKindAt(toks, pos, next, pat, 0);
      SpansKindAt(toks, pos, next, pat, 1);
      SpansKindAt(toks, pos, next, pat, 2);
    }
  }

  lemma {:induction false} SpecHeadComplete(toks: seq<SqlToken>, pos: nat, next: nat, spec: ColSpec)
    requires Terminated(toks) && pos < |toks|
    requires Spans(toks, pos, next, SpecPattern(spec))
    requires next < |toks| && toks[next].kind in {Comma, RParen}
    ensures SpecHead(toks, pos) == Success(Parsed(spec, next))
  {
    var names := [I(spec.name), I(spec.typ)];
    SpansSplit(toks, pos, next, names, SizePattern(spec.size));
    SpansKindAt(toks, pos, pos + 2, names, 0);
    SpansKindAt(toks, pos, pos + 2, names, 1);
    SizeSuffixComplete(toks, pos + 2, next, spec.size);
  }

  /** A spec followed by `)` is read without consuming the `)`. */
  lemma {:induction false} SpecRuleCompleteLast(toks: seq<SqlToken>, pos: nat, next: nat, spec: ColSpec)
    requires Terminated(toks) && pos < |toks|
    requires Spans(toks, pos, next, SpecPattern(spec))
    requires next < |toks| && toks[next].kind == RParen
    ensures SpecRule(toks, pos) == Success(Parsed(spec, next))
  {
    SpecHeadComplete(toks, pos, next, spec);
  }

  /** A spec followed by a comma is read together with the comma. */
  lemma {:induction false} SpecRuleCompleteComma(toks: seq<SqlToken>, pos: nat, next: nat, spec: ColSpec)
    requires Terminated(toks) && pos < |toks|
    requires Spans(toks, pos, next, SpecPattern(spec) + [K(Comma)])
    ensures SpecRule(toks, pos) == Success(Parsed(spec, next))
  {
    SpansSplit(toks, pos, next, SpecPattern(spec), [K(Comma)]);
    var mid := pos + |SpecPattern(spec)|;
    SpansKindAt(toks, mid, next, [K(Comma)], 0);
    SpecHeadComplete(toks, pos, mid, spec);
  }

  /** A non-empty spec list's pattern starts with the first spec's name. */
  lemma {:induction false} SpecsPatternStart(specs: seq<ColSpec>, trailing: bool)
    requires |specs| > 0
    ensures |SpecsPattern(specs, trailing)| > 0 && SpecsPattern(specs, trailing)[0] == I(specs[0].name)
  {
  }

  /** The last spec of a list, with or without its trailing comma. */
  lemma {:induction false} SpecListCompleteLast(toks: seq<SqlToken>, pos: nat, next: nat, spec: ColSpec, trailing: bool)
    requires Terminated(toks) && pos < |toks|
    requires Spans(toks, pos, next, SpecsPattern([spec], trailing))
    requires next < |toks| && toks[next].kind == RParen
    ensures SpecList(toks, pos) == Success(Parsed([spec], next))
  {
    if trailing {
      assert SpecsPattern([spec], trailing) == SpecPattern(spec) + [K(Comma)];
      SpecRuleCompleteComma(toks, pos, next, spec);
    } else {
      assert SpecsPattern([spec], trailing) == SpecPattern(spec);
      SpecRuleCompleteLast(toks, pos, next, spec);
    }
    assert Branch(toks, next, [RParen, Ident]) == Success(RParen);
  }

  /** A spec and its comma, then more specs. */
  lemma {:induction false} SpecListCompleteMore(toks: seq<SqlToken>, pos: nat, mid: nat, next: nat, spec: ColSpec, rest: seq<ColSpec>, trailing: bool)
    requires Terminated(toks) && pos < |toks| && |rest| > 0
    requires Spans(toks, pos, mid, SpecPattern(spec) + [K(Comma)])
    requires Spans(toks, mid, next, SpecsPattern(rest, trailing))
    requires SpecList(toks, mid) == Success(Parsed(rest, next))
    ensures SpecList(toks, pos) == Success(Parsed([spec] + rest, next))
  {
    SpecRuleCompleteComma(toks, pos, mid, spec);
    SpecsPatternStart(rest, trailing);
    SpansKindAt(toks, mid, next, SpecsPattern(rest, trailing), 0);
    assert Branch(toks, mid, [RParen, Ident]) == Success(Ident);
  }

  lemma {:induction false} SpecListComplete(toks: seq<SqlToken>, pos: nat, next: nat, specs: seq<ColSpec>, trailing: bool)
    requires Terminated(toks) && pos < |toks| && |specs| > 0
    requires Spans(toks, pos, next, SpecsPattern(specs, trailing))
    requires next < |toks| && toks[next].kind == RParen
    ensures SpecList(toks, pos) == Success(Parsed(specs, next))
    decreases |specs|
  {
    if |specs| == 1 {
      assert [specs[0]] == specs;
      SpecListCompleteLast(toks, pos, next, specs[0], trailing);
    } else {
      var head := SpecPattern(specs[0]) + [K(Comma)];
      var rest := specs[1..];
      assert SpecsPattern(specs, trailing) == head + SpecsPattern(rest, trailing);
      SpansSplit(toks, pos, next, head, SpecsPattern(rest, trailing));
      var mid := pos + |head|;
      SpecsPatternStart(rest, trailing);
      SpansKindAt(toks, mid, next, SpecsPattern(rest, trailing), 0);
      SpecListComplete(toks, mid, next, rest, trailing);
      SpecListCompleteMore(toks, pos, mid, next, specs[0], rest, trailing);
      assert [specs[0]] + rest == specs;
    }
  }

  lemma {:induction false} CreateHeadComplete(toks: seq<SqlToken>, pos: nat, table: string)
    requires Terminated(toks) && pos + 4 < |toks|
    requires toks[pos].kind == Create && toks[pos + 1].kind == Table && toks[pos + 3].kind == LParen
    requires toks[pos + 2] == Token(Ident, table)
    ensures CreateHead(toks, pos) == Success(Parsed(table, pos + 4))
  {
    assert Expect(toks, pos, Create) == Success(Parsed(toks[pos].text, pos + 1));
    assert Expect(toks, pos + 1, Table) == Success(Parsed(toks[pos + 1].text, pos + 2));
    assert Expect(toks, pos + 2, Ident) == Success(Parsed(table, pos + 3));
    assert Expect(toks, pos + 3, LParen) == Success(Parsed(toks[pos + 3].text, pos + 4));
  }

  /** `create` on its header tokens, a spec list the loop reads, and `)`. */
  lemma {:induction false} CreateFromParts(toks: seq<SqlToken>, pos: nat, close: nat, table: string, specs: seq<ColSpec>)
    requires Terminated(toks) && pos + 4 <= close < |toks|
    requires CreateHead(toks, pos) == Success(Parsed(table, pos + 4))
    requires SpecList(toks, pos + 4) == Success(Parsed(specs, close))
    ensures CreateRule(toks, pos) == Success(Parsed(CreateStmt(table, specs), close + 1))
  {
    assert CreateTail(toks, pos, table) == Success(Parsed(CreateStmt(table, specs), close + 1));
  }

  lemma {:induction false} CreateComplete(toks: seq<SqlToken>, pos: nat, next: nat, stmt: Statement, trailing: bool)
    requires Terminated(toks) && pos < |toks| && next < |toks|
    requires stmt.CreateStmt? && WellFormed(stmt)
    requires Spans(toks, pos, next, BodyPattern(stmt, trailing))
    ensures CreateRule(toks, pos) == Success(Parsed(stmt, next))
  {
    CreateSplit(toks, pos, next, stmt, trailing);
    CreateFromSplit(toks, pos, next - 1, stmt.table, stmt.specs, trailing);
    assert stmt == CreateStmt(stmt.table, stmt.specs);
  }

  /** `create` on a header, a spec list's tokens, and `)` at `close`. */
  lemma {:induction false} CreateFromSplit(toks: seq<SqlToken>, pos: nat, close: nat, table: string, specs: seq<ColSpec>, trailing: bool)
    requires Terminated(toks) && pos + 4 <= close < |toks| && |specs| > 0
    requires toks[pos].kind == Create && toks[pos + 1].kind == Table && toks[pos + 3].kind == LParen
    requires toks[pos + 2] == Token(Ident, table) && toks[close].kind == RParen
    requires Spans(toks, pos + 4, close, SpecsPattern(specs, trailing))
    ensures CreateRule(toks, pos) == Success(Parsed(CreateStmt(table, specs), close + 1))
  {
    SpecListComplete(toks, pos + 4, close, specs, trailing);
    CreateHeadComplete(toks, pos, table);
    CreateFromParts(toks, pos, close, table, specs);
  }

  /** A CREATE TABLE body's pattern: the four header tokens, the spec list, `)`. */
  lemma {:induction false} CreatePattern(stmt: Statement, trailing: bool)
    requires stmt.CreateStmt?
    ensures BodyPattern(stmt, trailing)
      == [K(Create), K(Table), I(stmt.table), K(LParen)] + SpecsPattern(stmt.specs, trailing) + [K(RParen)]
  {
  }

  /** The tokens of a CREATE TABLE body, cut into header, spec list and `)`. */
  lemma {:induction false} CreateSplit(toks: seq<SqlToken>, pos: nat, next: nat, stmt: Statement, trailing: bool)
    requires stmt.CreateStmt? && Spans(toks, pos, next, BodyPattern(stmt, trailing))
    ensures pos + 4 < next && toks[next - 1].kind == RParen
    ensures toks[pos].kind == Create && toks[pos + 1].kind == Table && toks[pos + 3].kind == LParen
    ensures toks[pos + 2] == Token(Ident, stmt.table)
    ensures Spans(toks, pos + 4, next - 1, SpecsPattern(stmt.specs, trailing))
  {
    var head := [K(Create), K(Table), I(stmt.table), K(LParen)];
    var specs := SpecsPattern(stmt.specs, trailing);
    CreatePattern(stmt, trailing);
    SpansSplit(toks, pos, next, head + specs, [K(RParen)]);
    SpansSplit(toks, pos, next - 1, head, specs);
    SpansKindAt(toks, pos, pos + 4, head, 0);
    SpansKindAt(toks, pos, pos + 4, head, 1);
    SpansKindAt(toks, pos, pos + 4, head, 2);
    SpansKindAt(toks, pos, pos + 4, head, 3);
    SpansKindAt(toks, next - 1, next, [K(RParen)], 0);
  }

  lemma {:induction false} AttrComplete(toks: seq<SqlToken>, pos: nat, next: nat, attr: Attr)
    requires Terminated(toks) && pos < |toks|
    requires Spans(toks, pos, next, AttrPattern(attr))
    ensures AttrRule(toks, pos) == Success(Parsed(attr, next))
  {
    SpansKindAt(toks, pos, next, AttrPattern(attr), 0);
    SpansKindAt(toks, pos, next, AttrPattern(attr), 1);
    SpansKindAt(toks, pos, next, AttrPattern(attr), 2);
  }

  /** An assignment and its comma, then more assignments. */
  lemma {:induction false} AttrListCompleteMore(toks: seq<SqlToken>, pos: nat, next: nat, attr: Attr, rest: seq<Attr>)
    requires Terminated(toks) && pos < |toks|
    requires Spans(toks, pos, pos + 4, AttrPattern(attr) + [K(Comma)])
    requires pos + 4 < |toks| && AttrList(toks, pos + 4) == Success(Parsed(rest, next))
    ensures AttrList(toks, pos) == Success(Parsed([attr] + rest, next))
  {
    SpansSplit(toks, pos, pos + 4, AttrPattern(attr), [K(Comma)]);
    AttrComplete(toks, pos, pos + 3, attr);
    SpansKindAt(toks, pos + 3, pos + 4, [K(Comma)], 0);
    assert Branch(toks, pos + 3, [Comma, Semicolon]) == Success(Comma);
  }

  lemma {:induction false} AttrListComplete(toks: seq<SqlToken>, pos: nat, next: nat, attributes: seq<Attr>)
    requires Terminated(toks) && pos < |toks| && |attributes| > 0
    requires Spans(toks, pos, next, AttrsPattern(attributes))
    requires next < |toks| && toks[next].kind == Semicolon
    ensures AttrList(toks, pos) == Success(Parsed(attributes, next))
    decreases |attributes|
  {
    if |attributes| == 1 {
      AttrComplete(toks, pos, next, attributes[0]);
      assert Branch(toks, next, [Comma, Semicolon]) == Success(Semicolon);
      assert [attributes[0]] == attributes;
    } else {
      var head := AttrPattern(attributes[0]) + [K(Comma)];
      assert AttrsPattern(attributes) == head + AttrsPattern(attributes[1..]);
      SpansSplit(toks, pos, next, head, AttrsPattern(attributes[1..]));
      AttrListComplete(toks, pos + 4, next, attributes[1..]);
      AttrListCompleteMore(toks, pos, next, attributes[0], attributes[1..]);
      assert [attributes[0]] + attributes[1..] == attributes;
    }
  }

  /** `delete` on `DELETE * FROM` table. */
  lemma {:induction false} DeleteAllFromParts(toks: seq<SqlToken>, pos: nat, table: string)
    requires Terminated(toks) && pos + 3 < |toks|
    requires toks[pos].kind == Delete && toks[pos + 1].kind == Star && toks[pos + 2].kind == From
    requires toks[pos + 3] == Token(Ident, table)
    ensures DeleteRule(toks, pos) == Success(Parsed(DeleteStmt(true, table, []), pos + 4))
  {
    assert FromTable(toks, pos + 2) == Success(Parsed(table, pos + 4));
  }

  /** `delete` on `DELETE FROM` table `WHERE` and an attribute list the loop reads. */
  lemma {:induction false} DeleteWhereFromParts(toks: seq<SqlToken>, pos: nat, next: nat, table: string, attributes: seq<Attr>)
    requires Terminated(toks) && pos + 4 < |toks|
    requires toks[pos].kind == Delete && toks[pos + 1].kind == From && toks[pos + 3].kind == Where
    requires toks[pos + 2] == Token(Ident, table)
    requires AttrList(toks, pos + 4) == Success(Parsed(attributes, next))
    ensures DeleteRule(toks, pos) == Success(Parsed(DeleteStmt(false, table, attributes), next))
  {
    assert FromTable(toks, pos + 1) == Success(Parsed(table, pos + 3));
    assert Expect(toks, pos + 3, Where) == Success(Parsed(toks[pos + 3].text, pos + 4));
  }

  lemma {:induction false} DeleteComplete(toks: seq<SqlToken>, pos: nat, next: nat, stmt: Statement, trailing: bool)
    requires Terminated(toks) && pos < |toks| && next < |toks|
    requires stmt.DeleteStmt? && WellFormed(stmt)
    requires Spans(toks, pos, next, BodyPattern(stmt, trailing))
    requires toks[next].kind == Semicolon
    ensures DeleteRule(toks, pos) == Success(Parsed(stmt, next))
  {
    if stmt.all {
      var pat := [K(Delete), K(Star), K(From), I(stmt.table)];
      assert BodyPattern(stmt, trailing) == pat;
      SpansKindAt(toks, pos, next, pat, 0);
      SpansKindAt(toks, pos, next, pat, 1);
      SpansKindAt(toks, pos, next, pat, 2);
      SpansKindAt(toks, pos, next, pat, 3);
      DeleteAllFromParts(toks, pos, stmt.table);
    } else {
      var head := [K(Delete), K(From), I(stmt.table), K(Where)];
      assert BodyPattern(stmt, trailing) == head + AttrsPattern(stmt.attributes);
      SpansSplit(toks, pos, next, head, AttrsPattern(stmt.attributes));
      SpansKindAt(toks, pos, pos + 4, head, 0);
      SpansKindAt(toks, pos, pos + 4, head, 1);
      SpansKindAt(toks, pos, pos + 4, head, 2);
      SpansKindAt(toks, pos, pos + 4, head, 3);
      AttrListComplete(toks, pos + 4, next, stmt.attributes);
      DeleteWhereFromParts(toks, pos, next, stmt.table, stmt.attributes);
    }
  }

  lemma {:induction false} BodyComplete(toks: seq<SqlToken>, pos: nat, next: nat, stmt: Statement, trailing: bool)
    requires Terminated(toks) && pos < |toks| && next < |toks|
    requires WellFormed(stmt) && Spans(toks, pos, next, BodyPattern(stmt, trailing))
    requires toks[next].kind == Semicolon
    ensures BodyRule(toks, pos) == Success(Parsed(stmt, next))
  {
    match stmt
    case SelectStmt(_, _, _) =>
      SpansKindAt(toks, pos, next, BodyPattern(stmt, trailing), 0);
      SelectComplete(toks, pos, next, stmt, trailing);
    case CreateStmt(_, _) =>
      SpansKindAt(toks, pos, next, BodyPattern(stmt, trailing), 0);
      CreateComplete(toks, pos, next, stmt, trailing);
    case DeleteStmt(all, _, _) =>
      SpansKindAt(toks, pos, next, BodyPattern(stmt, trailing), 0);
      DeleteComplete(toks, pos, next, stmt, trailing);
  }

  lemma {:induction false} StatementComplete(toks: seq<SqlToken>, pos: nat, next: nat, stmt: Statement, trailing: bool)
    requires Terminated(toks) && pos < |toks| && next <= |toks|
    requires WellFormed(stmt) && Spans(toks, pos, next, StatementPattern(stmt, trailing))
    ensures StatementRule(toks, pos) == Success(Parsed(stmt, next))
  {
    var body := BodyPattern(stmt, trailing);
    SpansSplit(toks, pos, next, body, [K(Semicolon)]);
    SpansKindAt(toks, pos + |body|, next, [K(Semicolon)], 0);
    var mid := pos + |body|;
    BodyComplete(toks, pos, mid, stmt, trailing);
    assert BodyRule(toks, pos) == Success(Parsed(stmt, mid));
    assert Expect(toks, mid, Semicolon) == Success(Parsed(toks[mid].text, next));
  }

  /** Every well-formed statement whose pattern the stream spells is what `sql_parse` returns. */
  lemma {:induction false} ParseComplete(toks: seq<SqlToken>, stmt: Statement, trailing: bool)
    requires Terminated(toks) && WellFormed(stmt) && Accepts(toks, stmt, trailing)
    ensures ParseTokens(toks) == Success(stmt)
  {
    var pat := StatementPattern(stmt, trailing);
    SpansSplit(toks, 0, |toks|, pat, [K(End)]);
    StatementComplete(toks, 0, |pat|, stmt, trailing);
    SpansKindAt(toks, |pat|, |toks|, [K(End)], 0);
    assert StatementRule(toks, 0) == Success(Parsed(stmt, |pat|));
    assert Expect(toks, |pat|, End) == Success(Parsed(toks[|pat|].text, |toks|));
  }

  /**
   * `sql_parse` yields `stmt` from a terminated stream exactly when `stmt`
   * is well formed and the stream spells one of its patterns.
   */
  lemma {:induction false} ParseCharacterisation(toks: seq<SqlToken>, stmt: Statement)
    requires Terminated(toks)
    ensures ParseTokens(toks) == Success(stmt) <==>
      WellFormed(stmt) && (Accepts(toks, stmt, false) || Accepts(toks, stmt, true))
  {
    if WellFormed(stmt) && Accepts(toks, stmt, false) {
      ParseComplete(toks, stmt, false);
    } else if WellFormed(stmt) && Accepts(toks, stmt, true) {
      ParseComplete(toks, stmt, true);
    }
  }

  /** No stream spells two different well-formed statements. */
  lemma {:induction false} GrammarUnambiguous(toks: seq<SqlToken>, a: Statement, ta: bool, b: Statement, tb: bool)
    requires Terminated(toks) && WellFormed(a) && WellFormed(b)
    requires Accepts(toks, a, ta) && Accepts(toks, b, tb)
    ensures a == b
  {
    ParseComplete(toks, a, ta);
    ParseComplete(toks, b, tb);
  }

  /** The same characterisation for `sql_parse` on source text. */
  lemma {:induction false} ParseTextCharacterisation(s: string, stmt: Statement)
    ensures Parse(s) == Success(stmt) <==>
      WellFormed(stmt) && (Accepts(Lex(s), stmt, false) || Accepts(Lex(s), stmt, true))
  {
    LexShape(s);
    ParseCharacterisation(Lex(s), stmt);
  }
}
