/**
 * The syntax tree `SQLParser` builds, and the token patterns each tree is
 * written as: the grammar stated as a printer, against which the parser's
 * rules are proved sound and complete.
 */
module SqlGrammar {
  import opened Wrappers
  import opened Tip
  import opened SqlLexer

  /** A `stupac` node of CREATE TABLE: name, type and the optional size. */
  datatype ColSpec = ColSpec(name: string, typ: string, size: Option<string>)

  /** An `atribut` node of DELETE ... WHERE: `ključ = vrijednost`. */
  datatype Attr = Attr(key: string, value: string)

  /**
   * A `naredba` node, one constructor per `vrsta`.  A flag the source leaves
   * unset is `false` here, and a list it leaves unset is empty.
   */
  datatype Statement =
    | SelectStmt(all: bool, columns: seq<string>, table: string)
    | CreateStmt(table: string, specs: seq<ColSpec>)
    | DeleteStmt(all: bool, table: string, attributes: seq<Attr>)

  /**
   * The field combinations the rules can produce: select-all or a non-empty
   * column list, never both; at least one column spec; delete-all exactly
   * when there are no attributes.
   */
  ghost predicate WellFormed(stmt: Statement) {
    match stmt
    case SelectStmt(all, columns, _) => all <==> |columns| == 0
    case CreateStmt(_, specs) => |specs| > 0
    case DeleteStmt(all, _, attributes) => all <==> |attributes| == 0
  }

  /**
   * A token as the parser sees it: only IME and BROJ tokens' texts are ever
   * kept, so every other token is compared by kind alone.
   */
  function Shape(t: SqlToken): SqlToken {
    if t.kind == Ident || t.kind == Number then t else Token(t.kind, "")
  }

  /** A pattern token that stands for any token of kind `k`. */
  function K(k: Kind): SqlToken {
    Token(k, "")
  }

  /** A pattern token that stands for the IME token with text `x`. */
  function I(x: string): SqlToken {
    Token(Ident, x)
  }

  /** `toks[pos..next]`, taken by shape, is the pattern `pat`. */
  ghost predicate Spans(toks: seq<SqlToken>, pos: nat, next: nat, pat: seq<SqlToken>) {
    && next == pos + |pat| <= |toks|
    && forall i :: 0 <= i < |pat| ==> Shape(toks[pos + i]) == pat[i]
  }

  /** Column names separated by commas, none after the last. */
  function ColumnsPattern(columns: seq<string>): seq<SqlToken>
    decreases |columns|
  {
    if |columns| == 0 then []
    else if |columns| == 1 then [I(columns[0])]
    else [I(columns[0]), K(Comma)] + ColumnsPattern(columns[1..])
  }

  /** `( size )` when there is a size, nothing otherwise. */
  function SizePattern(size: Option<string>): seq<SqlToken> {
    if size.Some? then [K(LParen), Token(Number, size.value), K(RParen)] else []
  }

  /** `name type`, then the size pattern. */
  function SpecPattern(c: ColSpec): seq<SqlToken> {
    [I(c.name), I(c.typ)] + SizePattern(c.size)
  }

  /** Column specs separated by commas, with one more comma after the last when `trailing`. */
  function SpecsPattern(specs: seq<ColSpec>, trailing: bool): seq<SqlToken>
    decreases |specs|
  {
    if |specs| == 0 then []
    else if |specs| == 1 then SpecPattern(specs[0]) + (if trailing then [K(Comma)] else [])
    else SpecPattern(specs[0]) + [K(Comma)] + SpecsPattern(specs[1..], trailing)
  }

  function AttrPattern(a: Attr): seq<SqlToken> {
    [I(a.key), K(Equals), I(a.value)]
  }

  /** Attribute assignments separated by commas, none after the last. */
  function AttrsPattern(attributes: seq<Attr>): seq<SqlToken>
    decreases |attributes|
  {
    if |attributes| == 0 then []
    else if |attributes| == 1 then AttrPattern(attributes[0])
    else AttrPattern(attributes[0]) + [K(Comma)] + AttrsPattern(attributes[1..])
  }

  /**
   * The tokens of a statement without its `;`.  `trailing` chooses whether a
   * CREATE TABLE spec list ends with a comma; the other forms ignore it.
   */
  function BodyPattern(stmt: Statement, trailing: bool): seq<SqlToken> {
    match stmt
    case SelectStmt(all, columns, table) =>
      [K(Select)] + (if all then [K(Star)] else ColumnsPattern(columns)) + [K(From), I(table)]
    case CreateStmt(table, specs) =>
      [K(Create), K(Table), I(table), K(LParen)] + SpecsPattern(specs, trailing) + [K(RParen)]
    case DeleteStmt(all, table, attributes) =>
      if all then [K(Delete), K(Star), K(From), I(table)]
      else [K(Delete), K(From), I(table), K(Where)] + AttrsPattern(attributes)
  }

  /** The tokens of a whole statement, `;` included. */
  function StatementPattern(stmt: Statement, trailing: bool): seq<SqlToken> {
    BodyPattern(stmt, trailing) + [K(Semicolon)]
  }

  /** The whole token stream is one statement, then KRAJ. */
  ghost predicate Accepts(toks: seq<SqlToken>, stmt: Statement, trailing: bool) {
    Spans(toks, 0, |toks|, StatementPattern(stmt, trailing) + [K(End)])
  }

  lemma {:induction false} SpansConcat(toks: seq<SqlToken>, pos: nat, mid: nat, next: nat, a: seq<SqlToken>, b: seq<SqlToken>)
    requires Spans(toks, pos, mid, a) && Spans(toks, mid, next, b)
    ensures Spans(toks, pos, next, a + b)
  {
    forall i | 0 <= i < |a + b|
      ensures Shape(toks[pos + i]) == (a + b)[i]
    {
      if i >= |a| {
        assert Shape(toks[mid + (i - |a|)]) == b[i - |a|];
      }
    }
  }

  lemma {:induction false} SpansSplit(toks: seq<SqlToken>, pos: nat, next: nat, a: seq<SqlToken>, b: seq<SqlToken>)
    requires Spans(toks, pos, next, a + b)
    ensures Spans(toks, pos, pos + |a|, a) && Spans(toks, pos + |a|, next, b)
  {
    forall i | 0 <= i < |a|
      ensures Shape(toks[pos + i]) == a[i]
    {
      assert (a + b)[i] == a[i];
    }
    forall i | 0 <= i < |b|
      ensures Shape(toks[pos + |a| + i]) == b[i]
    {
      assert (a + b)[|a| + i] == b[i];
    }
  }
}
