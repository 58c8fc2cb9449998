/**
 * `SQLParser` and `sql_parse`: recursive descent over the materialised token
 * sequence.  Every rule takes the position of the lookahead token and yields
 * its node with the position after it, or the first syntax error.  The rules
 * never consume KRAJ, so on a terminated stream the lookahead stays in range.
 */
module SqlParser {
  import opened Wrappers
  import opened Tip
  import opened SqlLexer
  import opened SqlLexerFacts
  import opened SqlGrammar

  type Error = SyntaxError<Kind>

  type Outcome<T> = Result<Parsed<T>, Error>

  /** `pročitaj(FROM)` then the table name, shared by `select` and `delete`. */
  function FromTable(toks: seq<SqlToken>, pos: nat): (r: Outcome<string>)
    requires Terminated(toks) && pos < |toks|
    ensures r.Success? ==> r.value.next == pos + 2 < |toks|
    ensures r.Success? ==> toks[pos].kind == From && toks[pos + 1] == Token(Ident, r.value.value)
    ensures r.Success? ==> Spans(toks, pos, r.value.next, [K(From), I(r.value.value)])
  {
    var from :- Expect(toks, pos, From);
    var table :- Expect(toks, from.next, Ident);
    Success(Parsed(table.value, table.next))
  }

  /** The column-name loop of `select`: names separated by commas, stopping before FROM. */
  function ColumnList(toks: seq<SqlToken>, pos: nat): (r: Outcome<seq<string>>)
    requires Terminated(toks) && pos < |toks|
    ensures r.Success? ==> |r.value.value| > 0 && r.value.next < |toks| && toks[r.value.next].kind == From
    ensures r.Success? ==> Spans(toks, pos, r.value.next, ColumnsPattern(r.value.value))
    decreases |toks| - pos
  {
    var column :- Expect(toks, pos, Ident);
    var sep :- Branch(toks, column.next, [Comma, From]);
    if sep == From then
      Success(Parsed([column.value], column.next))
    else
      var comma := Expect(toks, column.next, Comma).value;
      var more :- ColumnList(toks, comma.next);
      var columns := [column.value] + more.value;
      assert columns[1..] == more.value;
      SpansConcat(toks, pos, comma.next, more.next, [I(column.value), K(Comma)], ColumnsPattern(more.value));
      Success(Parsed(columns, more.next))
  }

  /** `select`: `SELECT *` or `SELECT` columns, then `FROM` table. */
  function SelectRule(toks: seq<SqlToken>, pos: nat): (r: Outcome<Statement>)
    requires Terminated(toks) && pos < |toks|
    ensures r.Success? ==> r.value.value.SelectStmt? && WellFormed(r.value.value)
    ensures r.Success? ==> r.value.next < |toks| && Spans(toks, pos, r.value.next, BodyPattern(r.value.value, false))
  {
    var keyword :- Expect(toks, pos, Select);
    var what :- Branch(toks, keyword.next, [Star, Ident]);
    if what == Star then SelectAll(toks, pos) else SelectColumns(toks, pos)
  }

  /** The `SELECT *` branch of `select`. */
  function SelectAll(toks: seq<SqlToken>, pos: nat): (r: Outcome<Statement>)
    requires Terminated(toks) && pos + 1 < |toks|
    requires toks[pos].kind == Select && toks[pos + 1].kind == Star
    ensures r.Success? ==> r.value.value.SelectStmt? && r.value.value.all && r.value.value.columns == []
    ensures r.Success? ==> r.value.next < |toks| && Spans(toks, pos, r.value.next, BodyPattern(r.value.value, false))
  {
    var table :- FromTable(toks, pos + 2);
    assert Spans(toks, pos, pos + 2, [K(Select), K(Star)]);
    SpansConcat(toks, pos, pos + 2, table.next, [K(Select), K(Star)], [K(From), I(table.value)]);
    Success(Parsed(SelectStmt(true, [], table.value), table.next))
  }

  /** The column-list branch of `select`. */
  function SelectColumns(toks: seq<SqlToken>, pos: nat): (r: Outcome<Statement>)
    requires Terminated(toks) && pos + 1 < |toks| && toks[pos].kind == Select
    ensures r.Success? ==> r.value.value.SelectStmt? && !r.value.value.all && |r.value.value.columns| > 0
    ensures r.Success? ==> r.value.next < |toks| && Spans(toks, pos, r.value.next, BodyPattern(r.value.value, false))
  {
    var columns :- ColumnList(toks, pos + 1);
    var table :- FromTable(toks, columns.next);
    assert Spans(toks, pos, pos + 1, [K(Select)]);
    SpansConcat(toks, pos, pos + 1, columns.next, [K(Select)], ColumnsPattern(columns.value));
    SpansConcat(toks, pos, columns.next, table.next, [K(Select)] + ColumnsPattern(columns.value), [K(From), I(table.value)]);
    Success(Parsed(SelectStmt(false, columns.value, table.value), table.next))
  }

  /**
   * The part of `spec_stupac` after the type: an optional `( BROJ )`, after
   * which the lookahead must be a comma or `)`.
   */
  function SizeSuffix(toks: seq<SqlToken>, pos: nat): (r: Outcome<Option<string>>)
    requires Terminated(toks) && pos < |toks|
    ensures r.Success? ==> r.value.next < |toks| && toks[r.value.next].kind in {Comma, RParen}
    ensures r.Success? ==> Spans(toks, pos, r.value.next, SizePattern(r.value.value))
  {
    var after :- Branch(toks, pos, [Comma, LParen, RParen]);
    if after == LParen then
      var open := Expect(toks, pos, LParen).value;
      var size :- Expect(toks, open.next, Number);
      var close :- Expect(toks, size.next, RParen);
      var follow :- Branch(toks, close.next, [Comma, RParen]);
      assert SizePattern(Some(size.value)) == [K(LParen), Token(Number, size.value), K(RParen)];
      assert Shape(toks[pos + 1]) == Token(Number, size.value);
      Success(Parsed(Some(size.value), close.next))
    else
      Success(Parsed(None, pos))
  }

  /** `spec_stupac` up to, not including, the comma that may follow it. */
  function SpecHead(toks: seq<SqlToken>, pos: nat): (r: Outcome<ColSpec>)
    requires Terminated(toks) && pos < |toks|
    ensures r.Success? ==> r.value.next < |toks| && toks[r.value.next].kind in {Comma, RParen}
    ensures r.Success? ==> Spans(toks, pos, r.value.next, SpecPattern(r.value.value))
  {
    var name :- Expect(toks, pos, Ident);
    var typ :- Expect(toks, name.next, Ident);
    var size :- SizeSuffix(toks, typ.next);
    assert Shape(toks[pos]) == I(name.value) && Shape(toks[pos + 1]) == I(typ.value);
    SpansConcat(toks, pos, typ.next, size.next, [I(name.value), I(typ.value)], SizePattern(size.value));
    Success(Parsed(ColSpec(name.value, typ.value, size.value), size.next))
  }

  /** `spec_stupac`: `name type [( size )]`, consuming the comma that follows it, if any. */
  function SpecRule(toks: seq<SqlToken>, pos: nat): (r: Outcome<ColSpec>)
    requires Terminated(toks) && pos < |toks|
    ensures r.Success? ==> r.value.next < |toks|
    ensures r.Success? ==>
      || (Spans(toks, pos, r.value.next, SpecPattern(r.value.value)) && toks[r.value.next].kind == RParen)
      || Spans(toks, pos, r.value.next, SpecPattern(r.value.value) + [K(Comma)])
  {
    var head :- SpecHead(toks, pos);
    if toks[head.next].kind == Comma then
      var comma := Expect(toks, head.next, Comma).value;
      SpansConcat(toks, pos, head.next, comma.next, SpecPattern(head.value), [K(Comma)]);
      Success(Parsed(head.value, comma.next))
    else
      Success(head)
  }

  /** A spec and its comma, in front of a spec list, spans the longer list. */
  lemma {:induction false} SpecsCons(toks: seq<SqlToken>, pos: nat, mid: nat, next: nat, spec: ColSpec, rest: seq<ColSpec>)
    requires Spans(toks, pos, mid, SpecPattern(spec) + [K(Comma)]) && |rest| > 0
    requires Spans(toks, mid, next, SpecsPattern(rest, false)) || Spans(toks, mid, next, SpecsPattern(rest, true))
    ensures Spans(toks, pos, next, SpecsPattern([spec] + rest, false)) || Spans(toks, pos, next, SpecsPattern([spec] + rest, true))
  {
    assert ([spec] + rest)[1..] == rest;
    if Spans(toks, mid, next, SpecsPattern(rest, false)) {
      SpansConcat(toks, pos, mid, next, SpecPattern(spec) + [K(Comma)], SpecsPattern(rest, false));
    } else {
      SpansConcat(toks, pos, mid, next, SpecPattern(spec) + [K(Comma)], SpecsPattern(rest, true));
    }
  }

  /** The spec loop of `create`: specs until the lookahead after one is `)`. */
  function SpecList(toks: seq<SqlToken>, pos: nat): (r: Outcome<seq<ColSpec>>)
    requires Terminated(toks) && pos < |toks|
    ensures r.Success? ==> |r.value.value| > 0 && r.value.next < |toks| && toks[r.value.next].kind == RParen
    ensures r.Success? ==>
      || Spans(toks, pos, r.value.next, SpecsPattern(r.value.value, false))
      || Spans(toks, pos, r.value.next, SpecsPattern(r.value.value, true))
    decreases |toks| - pos
  {
    var spec :- SpecRule(toks, pos);
    var more :- Branch(toks, spec.next, [RParen, Ident]);
    if more == RParen then
      Success(Parsed([spec.value], spec.next))
    else
      var rest :- SpecList(toks, spec.next);
      SpecsCons(toks, pos, spec.next, rest.next, spec.value, rest.value);
      Success(Parsed([spec.value] + rest.value, rest.next))
  }

  /** The header of `create`: `CREATE TABLE` name `(`, yielding the table name. */
  function CreateHead(toks: seq<SqlToken>, pos: nat): (r: Outcome<string>)
    requires Terminated(toks) && pos < |toks|
    ensures r.Success? ==> r.value.next == pos + 4 < |toks|
    ensures r.Success? ==> toks[pos].kind == Create && toks[pos + 1].kind == Table && toks[pos + 3].kind == LParen
    ensures r.Success? ==> toks[pos + 2] == Token(Ident, r.value.value)
  {
    var create :- Expect(toks, pos, Create);
    var table :- Expect(toks, create.next, Table);
    var name :- Expect(toks, table.next, Ident);
    var open :- Expect(toks, name.next, LParen);
    Success(Parsed(name.value, open.next))
  }

  /** `create`: `CREATE TABLE` name `(` specs `)`. */
  function CreateRule(toks: seq<SqlToken>, pos: nat): (r: Outcome<Statement>)
    requires Terminated(toks) && pos < |toks|
    ensures r.Success? ==> r.value.value.CreateStmt? && WellFormed(r.value.value)
    ensures r.Success? ==> r.value.next < |toks|
    ensures r.Success? ==>
      || Spans(toks, pos, r.value.next, BodyPattern(r.value.value, false))
      || Spans(toks, pos, r.value.next, BodyPattern(r.value.value, true))
  {
    var name :- CreateHead(toks, pos);
    CreateTail(toks, pos, name.value)
  }

  /** The rest of `create` once its header has matched: specs, then `)`. */
  function CreateTail(toks: seq<SqlToken>, pos: nat, table: string): (r: Outcome<Statement>)
    requires Terminated(toks) && pos + 4 < |toks|
    requires toks[pos].kind == Create && toks[pos + 1].kind == Table && toks[pos + 3].kind == LParen
    requires toks[pos + 2] == Token(Ident, table)
    ensures r.Success? ==> r.value.value.CreateStmt? && WellFormed(r.value.value)
    ensures r.Success? ==> r.value.next < |toks|
    ensures r.Success? ==>
      || Spans(toks, pos, r.value.next, BodyPattern(r.value.value, false))
      || Spans(toks, pos, r.value.next, BodyPattern(r.value.value, true))
  {
    match SpecList(toks, pos + 4)
    case Failure(e) => Failure(e)
    case Success(specs) =>
      var stmt := CreateStmt(table, specs.value);
      CreateSpans(toks, pos, specs.next, table, specs.value);
      assert Spans(toks, pos, specs.next + 1, BodyPattern(stmt, false)) || Spans(toks, pos, specs.next + 1, BodyPattern(stmt, true));
      Success(Parsed(stmt, specs.next + 1))
  }

  /** The four header tokens, a spec list and `)` span the CREATE TABLE body. */
  lemma {:induction false} CreateSpans(toks: seq<SqlToken>, pos: nat, mid: nat, table: string, specs: seq<ColSpec>)
    requires pos + 4 <= mid < |toks| && toks[mid].kind == RParen
    requires toks[pos].kind == Create && toks[pos + 1].kind == Table && toks[pos + 3].kind == LParen
    requires toks[pos + 2] == Token(Ident, table)
    requires Spans(toks, pos + 4, mid, SpecsPattern(specs, false)) || Spans(toks, pos + 4, mid, SpecsPattern(specs, true))
    ensures
      || Spans(toks, pos, mid + 1, BodyPattern(CreateStmt(table, specs), false))
      || Spans(toks, pos, mid + 1, BodyPattern(CreateStmt(table, specs), true))
  {
    var head := [K(Create), K(Table), I(table), K(LParen)];
    assert Spans(toks, pos, pos + 4, head);
    assert Spans(toks, mid, mid + 1, [K(RParen)]);
    var trailing := Spans(toks, pos + 4, mid, SpecsPattern(specs, true));
    SpansConcat(toks, pos, pos + 4, mid, head, SpecsPattern(specs, trailing));
    SpansConcat(toks, pos, mid, mid + 1, head + SpecsPattern(specs, trailing), [K(RParen)]);
  }

  /** `vrijednost_atributa`: IME `=` IME. */
  function AttrRule(toks: seq<SqlToken>, pos: nat): (r: Outcome<Attr>)
    requires Terminated(toks) && pos < |toks|
    ensures r.Success? ==> r.value.next < |toks|
    ensures r.Success? ==> Spans(toks, pos, r.value.next, AttrPattern(r.value.value))
  {
    var key :- Expect(toks, pos, Ident);
    var eq :- Expect(toks, key.next, Equals);
    var value :- Expect(toks, eq.next, Ident);
    assert Shape(toks[pos]) == I(key.value) && Shape(toks[pos + 2]) == I(value.value);
    Success(Parsed(Attr(key.value, value.value), value.next))
  }

  /** The attribute loop of `delete`: assignments separated by commas, stopping before `;`. */
  function AttrList(toks: seq<SqlToken>, pos: nat): (r: Outcome<seq<Attr>>)
    requires Terminated(toks) && pos < |toks|
    ensures r.Success? ==> |r.value.value| > 0 && r.value.next < |toks| && toks[r.value.next].kind == Semicolon
    ensures r.Success? ==> Spans(toks, pos, r.value.next, AttrsPattern(r.value.value))
    decreases |toks| - pos
  {
    var attr :- AttrRule(toks, pos);
    var sep :- Branch(toks, attr.next, [Comma, Semicolon]);
    if sep == Semicolon then
      Success(Parsed([attr.value], attr.next))
    else
      var comma := Expect(toks, attr.next, Comma).value;
      var more :- AttrList(toks, comma.next);
      var attributes := [attr.value] + more.value;
      assert attributes[1..] == more.value;
      SpansConcat(toks, pos, attr.next, comma.next, AttrPattern(attr.value), [K(Comma)]);
      SpansConcat(toks, pos, comma.next, more.next, AttrPattern(attr.value) + [K(Comma)], AttrsPattern(more.value));
      Success(Parsed(attributes, more.next))
  }

  /** `delete`: `DELETE * FROM` table, or `DELETE FROM` table `WHERE` assignments. */
  function DeleteRule(toks: seq<SqlToken>, pos: nat): (r: Outcome<Statement>)
    requires Terminated(toks) && pos < |toks|
    ensures r.Success? ==> r.value.value.DeleteStmt? && WellFormed(r.value.value)
    ensures r.Success? ==> r.value.next < |toks| && Spans(toks, pos, r.value.next, BodyPattern(r.value.value, false))
  {
    var keyword :- Expect(toks, pos, Delete);
    var what :- Branch(toks, keyword.next, [Star, From]);
    if what == Star then
      var star := Expect(toks, keyword.next, Star).value;
      var table :- FromTable(toks, star.next);
      SpansConcat(toks, pos, star.next, table.next, [K(Delete), K(Star)], [K(From), I(table.value)]);
      Success(Parsed(DeleteStmt(true, table.value, []), table.next))
    else
      var table :- FromTable(toks, keyword.next);
      var where :- Expect(toks, table.next, Where);
      var attributes :- AttrList(toks, where.next);
      DeleteSpans(toks, pos, attributes.next, table.value, attributes.value);
      Success(Parsed(DeleteStmt(false, table.value, attributes.value), attributes.next))
  }

  /** The four header tokens and an attribute list span the DELETE ... WHERE body. */
  lemma {:induction false} DeleteSpans(toks: seq<SqlToken>, pos: nat, next: nat, table: string, attributes: seq<Attr>)
    requires |attributes| > 0
    requires pos + 3 < |toks| && toks[pos].kind == Delete && toks[pos + 1].kind == From && toks[pos + 3].kind == Where
    requires toks[pos + 2] == Token(Ident, table)
    requires Spans(toks, pos + 4, next, AttrsPattern(attributes))
    ensures Spans(toks, pos, next, BodyPattern(DeleteStmt(false, table, attributes), false))
  {
    var head := [K(Delete), K(From), I(table), K(Where)];
    assert Spans(toks, pos, pos + 4, head);
    SpansConcat(toks, pos, pos + 4, next, head, AttrsPattern(attributes));
  }

  /** The first half of `naredba`: dispatch on the first keyword. */
  function BodyRule(toks: seq<SqlToken>, pos: nat): (r: Outcome<Statement>)
    requires Terminated(toks) && pos < |toks|
    ensures r.Success? ==> WellFormed(r.value.value) && r.value.next < |toks|
    ensures r.Success? ==>
      || Spans(toks, pos, r.value.next, BodyPattern(r.value.value, false))
      || Spans(toks, pos, r.value.next, BodyPattern(r.value.value, true))
  {
    var start :- Branch(toks, pos, [Select, Create, Delete]);
    if start == Select then SelectRule(toks, pos)
    else if start == Create then CreateRule(toks, pos)
    else DeleteRule(toks, pos)
  }

  /** `naredba`: the statement for the first keyword, then the closing `;`. */
  function StatementRule(toks: seq<SqlToken>, pos: nat): (r: Outcome<Statement>)
    requires Terminated(toks) && pos < |toks|
    ensures r.Success? ==> WellFormed(r.value.value) && r.value.next < |toks|
    ensures r.Success? ==>
      || Spans(toks, pos, r.value.next, StatementPattern(r.value.value, false))
      || Spans(toks, pos, r.value.next, StatementPattern(r.value.value, true))
  {
    var body :- BodyRule(toks, pos);
    var semicolon :- Expect(toks, body.next, Semicolon);
    StatementSpans(toks, pos, body.next, body.value);
    Success(Parsed(body.value, semicolon.next))
  }

  /** A body followed by a `;` spans the whole statement. */
  lemma {:induction false} StatementSpans(toks: seq<SqlToken>, pos: nat, mid: nat, stmt: Statement)
    requires mid < |toks| && toks[mid].kind == Semicolon
    requires Spans(toks, pos, mid, BodyPattern(stmt, false)) || Spans(toks, pos, mid, BodyPattern(stmt, true))
    ensures
      || Spans(toks, pos, mid + 1, StatementPattern(stmt, false))
      || Spans(toks, pos, mid + 1, StatementPattern(stmt, true))
  {
    assert Spans(toks, mid, mid + 1, [K(Semicolon)]);
    var trailing := Spans(toks, pos, mid, BodyPattern(stmt, true));
    SpansConcat(toks, pos, mid, mid + 1, BodyPattern(stmt, trailing), [K(Semicolon)]);
  }

  /** `sql_parse` on a token stream: one statement, then KRAJ. */
  function ParseTokens(toks: seq<SqlToken>): (r: Result<Statement, Error>)
    requires Terminated(toks)
    ensures r.Success? ==> WellFormed(r.value)
    ensures r.Success? ==> Accepts(toks, r.value, false) || Accepts(toks, r.value, true)
  {
    var stmt :- StatementRule(toks, 0);
    var end :- Expect(toks, stmt.next, End);
    AcceptsAtEnd(toks, stmt.next, stmt.value);
    Success(stmt.value)
  }

  /** A statement ending just before the KRAJ token is an accepted stream. */
  lemma {:induction false} AcceptsAtEnd(toks: seq<SqlToken>, mid: nat, stmt: Statement)
    requires Terminated(toks) && mid < |toks| && toks[mid].kind == End
    requires Spans(toks, 0, mid, StatementPattern(stmt, false)) || Spans(toks, 0, mid, StatementPattern(stmt, true))
    ensures Accepts(toks, stmt, false) || Accepts(toks, stmt, true)
  {
    assert mid == |toks| - 1;
    assert Spans(toks, mid, mid + 1, [K(End)]);
    var trailing := Spans(toks, 0, mid, StatementPattern(stmt, true));
    SpansConcat(toks, 0, mid, mid + 1, StatementPattern(stmt, trailing), [K(End)]);
  }

  /** `sql_parse(kôd)`: lex the whole text, then parse the tokens. */
  function Parse(s: string): (r: Result<Statement, Error>)
    ensures r.Success? ==> WellFormed(r.value)
    ensures r.Success? ==> Accepts(Lex(s), r.value, false) || Accepts(Lex(s), r.value, true)
  {
    LexShape(s);
    ParseTokens(Lex(s))
  }
}
