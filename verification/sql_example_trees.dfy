/**
 * The statement trees the grammar gives the accepted example texts.
 */
module SqlExampleTrees {
  import opened Wrappers
  import opened Tip
  import opened SqlLexer
  import opened SqlGrammar
  import opened SqlExampleTexts

  const SelectTree := SelectStmt(false, ["firstName", "lastName"], "wherever")

  lemma {:induction false} SelectAccepted()
    ensures WellFormed(SelectTree) && Accepts(SelectTokens + [Token(End, "")], SelectTree, false)
  {
    var pat := StatementPattern(SelectTree, false) + [K(End)];
    assert ColumnsPattern(SelectTree.columns) == [I("firstName"), K(Comma), I("lastName")];
    var toks := SelectTokens + [Token(End, "")];
    assert |pat| == |toks| == 8;
    forall i | 0 <= i < |pat|
      ensures Shape(toks[i]) == pat[i]
    {
    }
  }

  const PersonsTree := CreateStmt("Persons", [
    ColSpec("PersonID", "int", None),
    ColSpec("LastName", "varchar", Some("255")),
    ColSpec("FirstName", "varchar", Some("255")),
    ColSpec("Address", "varchar", Some("255")),
    ColSpec("City", "varchar", Some("255"))])

  /** Runs taken by shape concatenate. */
  lemma {:induction false} SpansAppend(a: seq<SqlToken>, p: seq<SqlToken>, b: seq<SqlToken>, q: seq<SqlToken>)
    requires Spans(a, 0, |a|, p) && Spans(b, 0, |b|, q)
    ensures Spans(a + b, 0, |a + b|, p + q)
  {
    forall i | 0 <= i < |p + q|
      ensures Shape((a + b)[i]) == (p + q)[i]
    {
      if i < |p| {
        assert (a + b)[i] == a[i] && (p + q)[i] == p[i];
      } else {
        assert (a + b)[i] == b[i - |a|] && (p + q)[i] == q[i - |p|];
      }
    }
  }

  /** The pattern of a `name varchar(255),` line. */
  function SizedPattern(name: string): seq<SqlToken> {
    SpecPattern(ColSpec(name, "varchar", Some("255"))) + [K(Comma)]
  }

  lemma {:induction false} SizedLineSpans(name: string)
    ensures Spans(SizedLine(name), 0, 6, SizedPattern(name))
  {
    assert SizedPattern(name) == [I(name), I("varchar"), K(LParen), Token(Number, "255"), K(RParen), K(Comma)];
  }

  const PersonsHeadPattern := [K(Create), K(Table), I("Persons"), K(LParen)]
  const IdPattern := [I("PersonID"), I("int"), K(Comma)]
  const PersonsTailPattern := [K(RParen), K(Semicolon), K(End)]

  lemma {:induction false} PersonsPattern()
    ensures StatementPattern(PersonsTree, true) + [K(End)]
      == PersonsHeadPattern + IdPattern + SizedPattern("LastName") + SizedPattern("FirstName")
        + SizedPattern("Address") + SizedPattern("City") + PersonsTailPattern
  {
    var specs := PersonsTree.specs;
    assert SpecPattern(specs[0]) + [K(Comma)] == IdPattern;
    assert SpecsPattern(specs[4..], true) == SizedPattern("City");
    assert SpecsPattern(specs[3..], true) == SizedPattern("Address") + SpecsPattern(specs[4..], true);
    assert SpecsPattern(specs[2..], true) == SizedPattern("FirstName") + SpecsPattern(specs[3..], true);
    assert SpecsPattern(specs[1..], true) == SizedPattern("LastName") + SpecsPattern(specs[2..], true);
    assert SpecsPattern(specs, true) == IdPattern + SpecsPattern(specs[1..], true);
  }

  lemma {:induction false} PersonsSpans()
    ensures Spans(PersonsTokens + [Token(End, "")], 0, |PersonsTokens| + 1,
      PersonsHeadPattern + IdPattern + SizedPattern("LastName") + SizedPattern("FirstName")
        + SizedPattern("Address") + SizedPattern("City") + PersonsTailPattern)
  {
    assert Spans(PersonsHead, 0, 4, PersonsHeadPattern);
    assert Spans(IdLine, 0, 3, IdPattern);
    var end := PersonsTail + [Token(End, "")];
    assert Spans(end, 0, 3, PersonsTailPattern);
    SizedLineSpans("LastName");
    SizedLineSpans("FirstName");
    SizedLineSpans("Address");
    SizedLineSpans("City");
    SpansAppend(PersonsHead, PersonsHeadPattern, IdLine, IdPattern);
    var a, p := PersonsHead + IdLine, PersonsHeadPattern + IdPattern;
    SpansAppend(a, p, SizedLine("LastName"), SizedPattern("LastName"));
    a, p := a + SizedLine("LastName"), p + SizedPattern("LastName");
    SpansAppend(a, p, SizedLine("FirstName"), SizedPattern("FirstName"));
    a, p := a + SizedLine("FirstName"), p + SizedPattern("FirstName");
    SpansAppend(a, p, SizedLine("Address"), SizedPattern("Address"));
    a, p := a + SizedLine("Address"), p + SizedPattern("Address");
    SpansAppend(a, p, SizedLine("City"), SizedPattern("City"));
    a, p := a + SizedLine("City"), p + SizedPattern("City");
    SpansAppend(a, p, end, PersonsTailPattern);
    assert a + end == PersonsTokens + [Token(End, "")];
  }

  lemma {:induction false} PersonsAccepted()
    ensures WellFormed(PersonsTree) && Accepts(PersonsTokens + [Token(End, "")], PersonsTree, true)
  {
    PersonsPattern();
    PersonsSpans();
  }

  const DeleteAllTree := DeleteStmt(true, "wherever", [])

  lemma {:induction false} DeleteAllAccepted()
    ensures WellFormed(DeleteAllTree) && Accepts(DeleteAllTokens + [Token(End, "")], DeleteAllTree, false)
  {
    var pat := StatementPattern(DeleteAllTree, false) + [K(End)];
    var toks := DeleteAllTokens + [Token(End, "")];
    assert |pat| == |toks| == 6;
    forall i | 0 <= i < |pat|
      ensures Shape(toks[i]) == pat[i]
    {
    }
  }

  const DeleteWhereTree := DeleteStmt(false, "wherever", [Attr("atr1", "val1"), Attr("atr2", "val2")])

  lemma {:induction false} DeleteWhereAccepted()
    ensures WellFormed(DeleteWhereTree) && Accepts(DeleteWhereTokens + [Token(End, "")], DeleteWhereTree, false)
  {
    var attributes := DeleteWhereTree.attributes;
    assert AttrsPattern(attributes[1..]) == [I("atr2"), K(Equals), I("val2")];
    assert AttrsPattern(attributes) == [I("atr1"), K(Equals), I("val1"), K(Comma), I("atr2"), K(Equals), I("val2")];
    var pat := StatementPattern(DeleteWhereTree, false) + [K(End)];
    var toks := DeleteWhereTokens + [Token(End, "")];
    assert |pat| == |toks| == 13;
    forall i | 0 <= i < |pat|
      ensures Shape(toks[i]) == pat[i]
    {
    }
  }

  const SelectAllTree := SelectStmt(true, [], "t")

  lemma {:induction false} SelectAllAccepted()
    ensures WellFormed(SelectAllTree) && Accepts(SelectAllTokens + [Token(End, "")], SelectAllTree, false)
  {
    var pat := StatementPattern(SelectAllTree, false) + [K(End)];
    var toks := SelectAllTokens + [Token(End, "")];
    assert |pat| == |toks| == 6;
    forall i | 0 <= i < |pat|
      ensures Shape(toks[i]) == pat[i]
    {
    }
  }
}
