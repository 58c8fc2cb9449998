/**
 * The statements `tip_SQL.py` parses when run as a script, and inputs its
 * grammar refuses, taken through `sql_lex` and `sql_parse`.
 */
module SqlExamples {
  import opened Wrappers
  import opened Tip
  import opened SqlLexer
  import opened SqlLexerFacts
  import opened SqlGrammar
  import opened SqlParser
  import opened SqlCompleteness
  import opened SqlRejections
  import opened SqlExampleTexts
  import opened SqlExampleTrees

  /** `sql_parse` yields `stmt` from text written as a stream the grammar accepts as `stmt`. */
  lemma {:induction false} ParsedFrom(s: string, lead: string, ts: seq<SqlToken>, gaps: seq<string>, stmt: Statement, trailing: bool)
    requires Written(s, lead, ts, gaps)
    requires WellFormed(stmt) && Accepts(ts + [Token(End, "")], stmt, trailing)
    ensures Parse(s) == Success(stmt)
  {
    LexWritten(s, lead, ts, gaps);
    ParseTextCharacterisation(s, stmt);
  }

  /** `sql_parse` reads written text as the stream it is written from. */
  lemma {:induction false} ParseWritten(s: string, lead: string, ts: seq<SqlToken>, gaps: seq<string>)
    requires Written(s, lead, ts, gaps)
    ensures Terminated(ts + [Token(End, "")]) && Parse(s) == ParseTokens(ts + [Token(End, "")])
  {
    LexWritten(s, lead, ts, gaps);
  }

  /** The script's CREATE TABLE: five column specs, the last one followed by a comma. */
  lemma {:induction false} PersonsParsed()
    ensures Parse(PersonsText) == Success(PersonsTree)
  {
    PersonsWritten();
    PersonsAccepted();
    ParsedFrom(PersonsText, NL, PersonsTokens, PersonsGaps, PersonsTree, true);
  }

  /** The script's SELECT, indented by three blanks. */
  lemma {:induction false} SelectParsed()
    ensures Parse(SelectText) == Success(SelectTree)
  {
    SelectWritten();
    SelectAccepted();
    ParsedFrom(SelectText, "   ", SelectTokens, SelectGaps, SelectTree, false);
  }

  /** The script's DELETE with a star. */
  lemma {:induction false} DeleteAllParsed()
    ensures Parse(DeleteAllText) == Success(DeleteAllTree)
  {
    DeleteAllWritten();
    DeleteAllAccepted();
    ParsedFrom(DeleteAllText, "", DeleteAllTokens, DeleteAllGaps, DeleteAllTree, false);
  }

  /** The script's DELETE with two WHERE assignments. */
  lemma {:induction false} DeleteWhereParsed()
    ensures Parse(DeleteWhereText) == Success(DeleteWhereTree)
  {
    DeleteWhereWritten();
    DeleteWhereAccepted();
    ParsedFrom(DeleteWhereText, "", DeleteWhereTokens, DeleteWhereGaps, DeleteWhereTree, false);
  }

  /** `SELECT * FROM t;` selects everything from `t`. */
  lemma {:induction false} SelectAllParsed()
    ensures Parse(SelectAllText) == Success(SelectAllTree)
  {
    SelectAllWritten();
    SelectAllAccepted();
    ParsedFrom(SelectAllText, "", SelectAllTokens, SelectAllGaps, SelectAllTree, false);
  }

  /** A WHERE value must be a name: `1` is a BROJ token, so `a=1` is refused. */
  lemma {:induction false} NumericValueRefused()
    ensures Parse(NumericValueText).Failure?
  {
    var toks := NumericValueTokens + [Token(End, "")];
    assert toks[5].kind == Equals && toks[6].kind == Number;
    NumericValueWritten();
    ParseWritten(NumericValueText, "", NumericValueTokens, NumericValueGaps);
    RejectsNumericValue(toks, 6);
  }

  /** DELETE * ends at the table name: a WHERE list after it is refused. */
  lemma {:induction false} StarWhereRefused()
    ensures Parse(StarWhereText).Failure?
  {
    var toks := StarWhereTokens + [Token(End, "")];
    assert toks[0].kind == Delete && toks[1].kind == Star && toks[4].kind == Where;
    StarWhereWritten();
    ParseWritten(StarWhereText, "", StarWhereTokens, StarWhereGaps);
    RejectsStarWhere(toks, 4);
  }

  /** A column list may not end in a comma. */
  lemma {:induction false} CommaFromRefused()
    ensures Parse(CommaFromText).Failure?
  {
    var toks := CommaFromTokens + [Token(End, "")];
    assert toks[2].kind == Comma && toks[3].kind == From;
    CommaFromWritten();
    ParseWritten(CommaFromText, "", CommaFromTokens, CommaFromGaps);
    RejectsCommaBeforeFrom(toks, 3);
  }

  /** CREATE TABLE needs at least one column spec. */
  lemma {:induction false} EmptySpecsRefused()
    ensures Parse(EmptySpecsText).Failure?
  {
    var toks := EmptySpecsTokens + [Token(End, "")];
    assert toks[3].kind == LParen && toks[4].kind == RParen;
    EmptySpecsWritten();
    ParseWritten(EmptySpecsText, "", EmptySpecsTokens, EmptySpecsGaps);
    RejectsEmptyParens(toks, 4);
  }

  /** Only one comma may follow a column spec. */
  lemma {:induction false} DoubleCommaRefused()
    ensures Parse(DoubleCommaText).Failure?
  {
    var toks := DoubleCommaTokens + [Token(End, "")];
    assert toks[6].kind == Comma && toks[7].kind == Comma;
    DoubleCommaWritten();
    ParseWritten(DoubleCommaText, "", DoubleCommaTokens, DoubleCommaGaps);
    RejectsDoubleComma(toks, 7);
  }

  /** Column specs must be separated by commas. */
  lemma {:induction false} MissingCommaRefused()
    ensures Parse(MissingCommaText).Failure?
  {
    var toks := MissingCommaTokens + [Token(End, "")];
    assert toks[4].kind == Ident && toks[5].kind == Ident && toks[6].kind == Ident;
    MissingCommaWritten();
    ParseWritten(MissingCommaText, "", MissingCommaTokens, MissingCommaGaps);
    RejectsMissingComma(toks, 6);
  }

  /** DELETE FROM needs a WHERE list. */
  lemma {:induction false} NoWhereRefused()
    ensures Parse(NoWhereText).Failure?
  {
    var toks := NoWhereTokens + [Token(End, "")];
    assert toks[0].kind == Delete && toks[1].kind == From && toks[3].kind == Semicolon;
    NoWhereWritten();
    ParseWritten(NoWhereText, "", NoWhereTokens, NoWhereGaps);
    RejectsMissingWhere(toks);
  }

  /** A character no rule reads, here `-`, makes the whole input fail. */
  lemma {:induction false} StrayRefused()
    ensures Parse("SELECT a-b FROM t;").Failure?
  {
    var s := "SELECT a-b FROM t;";
    assert s[8] == '-' && IsStray(s[8]);
    ParseRejectsStray(s, 8);
  }
}
